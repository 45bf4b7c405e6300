/**
 Runs of the daily operations as events of the lock: a run whose steps return by their timeouts is punctual, so the
 bound on overlapping step loops is about runs.
 */
module OperationsSchedule {
  import opened Wrappers
  import opened OperationsTimeouts
  import opened OperationsLock
  import opened DailyOperations
  import R = OperationsRun

  // ---------------------------------------------------------------------------------------------
  // The events of one run
  // ---------------------------------------------------------------------------------------------

  /** The events of the loop of one run: a gap before each step and before it leaves, then the release. */
  function LoopEvents(t: Token, at: int, gaps: seq<nat>, durations: seq<nat>, closing: nat): seq<Event>
    requires |gaps| == |durations| + 1
    decreases |durations|
  {
    var next := at + gaps[0];
    if durations == [] then [Leave(t, next), Release(t, next + closing)]
    else [Begin(t, next), Finish(t, next + durations[0])]
         + LoopEvents(t, next + durations[0], gaps[1..], durations[1..], closing)
  }

  function SumOf(gaps: seq<nat>): nat {
    if gaps == [] then 0 else gaps[0] + SumOf(gaps[1..])
  }

  function DurationsOf(end: R.LoopEnd): seq<nat> {
    seq(|R.ResultsOf(end)|, i requires 0 <= i < |R.ResultsOf(end)| => R.ResultsOf(end)[i].durationMs)
  }

  function TimeoutsOf(steps: seq<OperationStep>): seq<nat> {
    seq(|steps|, i requires 0 <= i < |steps| => steps[i].timeoutMs)
  }

  /** Every step that was recorded took no longer than its timeout. */
  ghost predicate WithinTimeouts(end: R.LoopEnd, attempts: seq<Attempt>)
    requires |R.ResultsOf(end)| <= |attempts|
  {
    forall i :: 0 <= i < |R.ResultsOf(end)| ==> attempts[i].elapsedMs <= attempts[i].step.timeoutMs
  }

  /** The events of a run that does not enter its loop, for whatever reason: it acquires and is gone. */
  predicate NeverLoops(own: seq<Event>, t: Token, slack: nat) {
    && |own| == 2 && own[0].Acquire? && own[1].Crash? && own[0].token == own[1].token == t
    && own[0].at <= own[1].at < own[0].at + slack
  }

  /**
   A run over these steps that comes to its release, each step returning by its timeout, its overhead below the slack.
   */
  ghost predicate RunOnSchedule(own: seq<Event>, t: Token, at: int, gaps: seq<nat>, closing: nat,
                                attempts: seq<Attempt>, end: R.LoopEnd, id: Identity, steps: seq<OperationStep>,
                                slack: nat) {
    && Tries(attempts, steps) && R.Ran(end, attempts, id)
    && |R.ResultsOf(end)| <= |attempts| && WithinTimeouts(end, attempts)
    && |gaps| == |DurationsOf(end)| + 1 && SumOf(gaps) < slack
    && own == [Acquire(t, at)] + LoopEvents(t, at, gaps, DurationsOf(end), closing)
  }

  ghost predicate CompleteRun(own: seq<Event>, t: Token, steps: seq<OperationStep>, slack: nat) {
    exists at, gaps, closing, attempts, end, id ::
      RunOnSchedule(own, t, at, gaps, closing, attempts, end, id, steps, slack)
  }

  /** A run that is killed, wherever it is, before the `n`-th of its events. */
  ghost predicate KilledRun(own: seq<Event>, full: seq<Event>, n: nat, at: int, t: Token, steps: seq<OperationStep>,
                            slack: nat) {
    && CompleteRun(full, t, steps, slack) && 1 <= n < |full| && at <= full[n].at
    && own == full[..n] + [Crash(t, at)]
  }

  /**
   The events `own` are those of a run over these steps. It ends by itself or is killed; a step that is interrupted
   counts as overhead.
   */
  ghost predicate EventsOfRun(own: seq<Event>, t: Token, steps: seq<OperationStep>, slack: nat) {
    || NeverLoops(own, t, slack)
    || CompleteRun(own, t, steps, slack)
    || (exists full, n: nat, at :: KilledRun(own, full, n, at, t, steps, slack))
  }

  // ---------------------------------------------------------------------------------------------
  // On schedule means punctual
  // ---------------------------------------------------------------------------------------------

  /** What a run has still to do keeps it on time until it is out of its loop. */
  ghost predicate OnSchedule(r: Phase, own: seq<Event>, timeouts: seq<nat>, slack: nat)
    decreases |own|
  {
    match r
    case Between(acquiredAt, step, overhead, since) =>
      && own != [] && overhead + (own[0].at - since) < slack
      && (match own[0]
          case Begin(_, at) =>
            step < |timeouts|
            && OnSchedule(InStep(acquiredAt, step, overhead + (at - since), at), own[1..], timeouts, slack)
          case Leave(_, _) => true
          case Crash(_, _) => true
          case _ => false)
    case InStep(acquiredAt, step, overhead, since) =>
      && own != [] && step < |timeouts| && own[0].at <= since + timeouts[step] && overhead < slack
      && (match own[0]
          case Finish(_, at) => OnSchedule(Between(acquiredAt, step + 1, overhead, at), own[1..], timeouts, slack)
          case Crash(_, _) => true
          case _ => false)
    case _ => true
  }

  predicate Mine(e: Event, t: Token) { !e.Expire? && e.token == t }

  function Own(events: seq<Event>, t: Token): seq<Event> {
    if events == [] then []
    else (if Mine(events[0], t) then [events[0]] else []) + Own(events[1..], t)
  }

  /** A run not yet begun has its events still before it. */
  ghost predicate Coming(own: seq<Event>, timeouts: seq<nat>, slack: nat) {
    own == []
    || (own[0].Acquire? && OnSchedule(Between(own[0].at, 0, 0, own[0].at), own[1..], timeouts, slack))
  }

  ghost predicate AllOnSchedule(w: World, events: seq<Event>, timeouts: seq<nat>, slack: nat) {
    forall t :: if t in w.runs then OnSchedule(w.runs[t], Own(events, t), timeouts, slack)
                else Coming(Own(events, t), timeouts, slack)
  }

  lemma {:induction false} NothingComesEarlier(w: World, events: seq<Event>, timeouts: seq<nat>)
    requires Possible(w, events, timeouts)
    ensures forall e :: e in events ==> w.clock <= e.at
    decreases |events|
  {
    if events != [] {
      var w' := Next(w, events[0], timeouts);
      NothingComesEarlier(w', events[1..], timeouts);
      assert w'.clock == events[0].at;
    }
  }

  lemma {:induction false} OwnAreAmong(events: seq<Event>, t: Token)
    ensures forall e :: e in Own(events, t) ==> e in events && Mine(e, t)
  {
    if events != [] { OwnAreAmong(events[1..], t); }
  }

  /** Whatever is on schedule is on time at the next event. */
  lemma {:induction false} ScheduleIsOnTime(w: World, events: seq<Event>, t: Token, timeouts: seq<nat>, slack: nat)
    requires Possible(w, events, timeouts) && events != [] && t in w.runs
    requires OnSchedule(w.runs[t], Own(events, t), timeouts, slack)
    ensures OnTime(w.runs[t], events[0].at, timeouts, slack)
  {
    var own := Own(events, t);
    if w.runs[t].Between? || w.runs[t].InStep? {
      OwnAreAmong(events, t);
      assert own[0] in events;
      NothingComesEarlier(Next(w, events[0], timeouts), events[1..], timeouts);
      assert Next(w, events[0], timeouts).clock == events[0].at;
      assert own[0] == events[0] || own[0] in events[1..];
    }
  }

  /** The run whose event comes next has one event less before it. */
  lemma {:induction false} ActingRunGoesOn(w: World, e: Event, own: seq<Event>, timeouts: seq<nat>, slack: nat)
    requires Enabled(w, e, timeouts) && !e.Expire? && own != [] && own[0] == e
    requires if e.token in w.runs then OnSchedule(w.runs[e.token], own, timeouts, slack)
             else Coming(own, timeouts, slack)
    ensures var w' := Next(w, e, timeouts);
            e.token in w'.runs && OnSchedule(w'.runs[e.token], own[1..], timeouts, slack)
  {
  }

  lemma OthersStand(w: World, e: Event, t: Token, timeouts: seq<nat>)
    requires Enabled(w, e, timeouts) && !Mine(e, t)
    ensures var w' := Next(w, e, timeouts);
            (t in w'.runs <==> t in w.runs) && (t in w.runs ==> w'.runs[t] == w.runs[t])
  {
  }

  lemma {:induction false} ScheduleGoesOn(w: World, events: seq<Event>, timeouts: seq<nat>, slack: nat)
    requires Possible(w, events, timeouts) && events != [] && AllOnSchedule(w, events, timeouts, slack)
    ensures AllOnSchedule(Next(w, events[0], timeouts), events[1..], timeouts, slack)
  {
    hide OnSchedule, Coming, Enabled, Next;
    var (e, rest) := (events[0], events[1..]);
    var w' := Next(w, e, timeouts);
    forall t
      ensures if t in w'.runs then OnSchedule(w'.runs[t], Own(rest, t), timeouts, slack)
              else Coming(Own(rest, t), timeouts, slack)
    {
      if Mine(e, t) {
        assert Own(events, t)[0] == e && Own(events, t)[1..] == Own(rest, t);
        ActingRunGoesOn(w, e, Own(events, t), timeouts, slack);
      } else {
        assert Own(events, t) == Own(rest, t);
        OthersStand(w, e, t, timeouts);
      }
    }
  }

  lemma {:induction false} OnScheduleIsPunctual(w: World, events: seq<Event>, timeouts: seq<nat>, slack: nat)
    requires Possible(w, events, timeouts) && AllOnSchedule(w, events, timeouts, slack)
    ensures Punctual(w, events, timeouts, slack)
    decreases |events|
  {
    if events != [] {
      forall t | t in w.runs
        ensures OnTime(w.runs[t], events[0].at, timeouts, slack)
      {
        ScheduleIsOnTime(w, events, t, timeouts, slack);
      }
      ScheduleGoesOn(w, events, timeouts, slack);
      OnScheduleIsPunctual(Next(w, events[0], timeouts), events[1..], timeouts, slack);
    }
  }

  // ---------------------------------------------------------------------------------------------
  // Runs are on schedule
  // ---------------------------------------------------------------------------------------------

  lemma {:induction false} LoopIsOnSchedule(
    t: Token, acquiredAt: int, step: nat, overhead: int, at: int, gaps: seq<nat>, durations: seq<nat>, closing: nat,
    timeouts: seq<nat>, slack: nat)
    requires |gaps| == |durations| + 1 && overhead + SumOf(gaps) < slack
    requires step + |durations| <= |timeouts|
    requires forall i :: 0 <= i < |durations| ==> durations[i] <= timeouts[step + i]
    ensures var own := LoopEvents(t, at, gaps, durations, closing);
            OnSchedule(Between(acquiredAt, step, overhead, at), own, timeouts, slack)
    decreases |durations|
  {
    var next := at + gaps[0];
    if durations != [] {
      var rest := LoopEvents(t, next + durations[0], gaps[1..], durations[1..], closing);
      LoopIsOnSchedule(t, acquiredAt, step + 1, overhead + gaps[0], next + durations[0], gaps[1..], durations[1..],
                       closing, timeouts, slack);
      var all := [Begin(t, next), Finish(t, next + durations[0])] + rest;
      assert all[1..][1..] == rest;
      assert OnSchedule(InStep(acquiredAt, step, overhead + gaps[0], next), all[1..], timeouts, slack);
    }
  }

  /** What is on schedule stays so when it is cut short by a kill. */
  lemma {:induction false} KilledIsOnSchedule(
    r: Phase, full: seq<Event>, n: nat, t: Token, at: int, timeouts: seq<nat>, slack: nat)
    requires OnSchedule(r, full, timeouts, slack) && n < |full| && at <= full[n].at
    ensures OnSchedule(r, full[..n] + [Crash(t, at)], timeouts, slack)
    decreases n
  {
    var own := full[..n] + [Crash(t, at)];
    if n > 0 && (r.Between? || r.InStep?) {
      assert own[0] == full[0] && own[1..] == full[1..][..n - 1] + [Crash(t, at)];
      match full[0] {
        case Begin(_, begun) =>
          if r.Between? {
            var next := InStep(r.acquiredAt, r.step, r.overhead + (begun - r.since), begun);
            KilledIsOnSchedule(next, full[1..], n - 1, t, at, timeouts, slack);
          }
        case Finish(_, finished) =>
          if r.InStep? {
            var next := Between(r.acquiredAt, r.step + 1, r.overhead, finished);
            KilledIsOnSchedule(next, full[1..], n - 1, t, at, timeouts, slack);
          }
        case _ =>
      }
    }
  }

  lemma RunIsOnSchedule(own: seq<Event>, t: Token, steps: seq<OperationStep>, slack: nat)
    requires EventsOfRun(own, t, steps, slack)
    ensures Coming(own, TimeoutsOf(steps), slack)
  {
    hide CompleteRun, TimeoutsOf;
    if CompleteRun(own, t, steps, slack) {
      CompleteRunIsOnSchedule(own, t, steps, slack);
    } else if !NeverLoops(own, t, slack) {
      var full: seq<Event>, n: nat, at: int :| KilledRun(own, full, n, at, t, steps, slack);
      CompleteRunIsOnSchedule(full, t, steps, slack);
      KilledIsOnSchedule(Between(full[0].at, 0, 0, full[0].at), full[1..], n - 1, t, at, TimeoutsOf(steps), slack);
      assert own[0] == full[0] && own[1..] == full[1..][..n - 1] + [Crash(t, at)];
    }
  }

  lemma CompleteRunIsOnSchedule(own: seq<Event>, t: Token, steps: seq<OperationStep>, slack: nat)
    requires CompleteRun(own, t, steps, slack)
    ensures Coming(own, TimeoutsOf(steps), slack) && own != []
  {
    hide R.Ran, WithinTimeouts, OnSchedule, LoopEvents, TimeoutsOf, DurationsOf;
    var at, gaps, closing, attempts, end, id :|
      RunOnSchedule(own, t, at, gaps, closing, attempts, end, id, steps, slack);
    DurationsWithin(end, attempts, id, steps);
    LoopIsOnSchedule(t, at, 0, 0, at, gaps, DurationsOf(end), closing, TimeoutsOf(steps), slack);
    assert own[1..] == LoopEvents(t, at, gaps, DurationsOf(end), closing);
  }

  lemma DurationsWithin(end: R.LoopEnd, attempts: seq<Attempt>, id: Identity, steps: seq<OperationStep>)
    requires Tries(attempts, steps)
    requires R.Ran(end, attempts, id) && |R.ResultsOf(end)| <= |attempts| && WithinTimeouts(end, attempts)
    ensures |DurationsOf(end)| <= |TimeoutsOf(steps)|
    ensures forall i :: 0 <= i < |DurationsOf(end)| ==> DurationsOf(end)[i] <= TimeoutsOf(steps)[i]
  {
    hide Tally, StatusFits;
    forall i | 0 <= i < |DurationsOf(end)|
      ensures DurationsOf(end)[i] <= TimeoutsOf(steps)[i]
    {
      assert R.ResultsOf(end)[i] == ResultOf(attempts[i]);
    }
  }

  lemma {:induction false} PrefixIsPunctual(w: World, events: seq<Event>, n: nat, timeouts: seq<nat>, slack: nat)
    requires Punctual(w, events, timeouts, slack) && Possible(w, events, timeouts) && n <= |events|
    ensures Punctual(w, events[..n], timeouts, slack) && Possible(w, events[..n], timeouts)
    decreases |events|
  {
    if n > 0 {
      PrefixIsPunctual(Next(w, events[0], timeouts), events[1..], n - 1, timeouts, slack);
      assert events[..n][1..] == events[1..][..n - 1];
    }
  }

  /**
   In any interleaving whatever of runs over these steps, each step returning by its timeout, each run with less
   overhead than the slack and perhaps killed on the way, no two are in their step loops at once at any moment.
   */
  lemma {:induction false} RunsNeverOverlap(
    events: seq<Event>, n: nat, a: Token, b: Token, steps: seq<OperationStep>, slack: nat)
    requires Possible(START, events, TimeoutsOf(steps)) && n <= |events|
    requires forall t :: Own(events, t) == [] || EventsOfRun(Own(events, t), t, steps, slack)
    requires Total(TimeoutsOf(steps), |steps|) + slack <= LOCK_TTL_MS
    ensures Possible(START, events[..n], TimeoutsOf(steps))
    ensures !Overlap(Final(START, events[..n], TimeoutsOf(steps)), a, b)
  {
    hide EventsOfRun, OnSchedule;
    var timeouts := TimeoutsOf(steps);
    forall t
      ensures Coming(Own(events, t), timeouts, slack)
    {
      if Own(events, t) != [] { RunIsOnSchedule(Own(events, t), t, steps, slack); }
    }
    OnScheduleIsPunctual(START, events, timeouts, slack);
    PrefixIsPunctual(START, events, n, timeouts, slack);
    ExclusiveThroughout(START, events[..n], timeouts, slack);
  }

  lemma DefaultTimeouts()
    ensures TimeoutsOf(DEFAULT_STEPS) == STEP_TIMEOUTS_MS
  {
    assert |DEFAULT_STEPS| == |STEP_TIMEOUTS_MS| == 5;
    assert forall i :: 0 <= i < 5 ==> DEFAULT_STEPS[i].timeoutMs == STEP_TIMEOUTS_MS[i];
  }

  /** For the five default steps, an overhead below 900 seconds does no harm. */
  lemma {:induction false} DefaultRunsNeverOverlap(events: seq<Event>, n: nat, a: Token, b: Token)
    requires Possible(START, events, TimeoutsOf(DEFAULT_STEPS)) && n <= |events|
    requires forall t :: Own(events, t) == [] || EventsOfRun(Own(events, t), t, DEFAULT_STEPS, 900_000)
    ensures Possible(START, events[..n], TimeoutsOf(DEFAULT_STEPS))
    ensures !Overlap(Final(START, events[..n], TimeoutsOf(DEFAULT_STEPS)), a, b)
  {
    hide EventsOfRun, TimeoutsOf;
    DefaultTimeouts();
    DefaultTotal();
    RunsNeverOverlap(events, n, a, b, DEFAULT_STEPS, 900_000);
  }

  // ---------------------------------------------------------------------------------------------
  // A lock nobody releases
  // ---------------------------------------------------------------------------------------------

  /**
   A run that took the lock and ends without releasing it keeps every other run out until the deadline, 1800 seconds
   after it was taken.
   */
  lemma {:induction false} LeakedLockKeepsOthersOut(
    w: World, t: Token, at: int, events: seq<Event>, n: nat, timeouts: seq<nat>)
    requires w.lock.None? && Enabled(w, Acquire(t, at), timeouts) && n < |events|
    requires Possible(Next(w, Acquire(t, at), timeouts), events, timeouts)
    requires forall e :: e in events ==> e.at < at + LOCK_TTL_MS
    requires forall e :: e in events && e.Release? ==> e.token != t
    requires events[n].Acquire?
    ensures var w' := Next(w, Acquire(t, at), timeouts);
            && Final(w', events, timeouts).lock == Some(Lock(t, at + LOCK_TTL_MS))
            && Possible(w', events[..n], timeouts) && Enabled(Final(w', events[..n], timeouts), events[n], timeouts)
            && !Looping(Next(Final(w', events[..n], timeouts), events[n], timeouts), events[n].token)
  {
    var w' := Next(w, Acquire(t, at), timeouts);
    LockSurvivesOthers(w', events, timeouts);
    PossibleSplits(w', events, n, timeouts);
    assert forall e :: e in events[..n] ==> e in events;
    LockSurvivesOthers(w', events[..n], timeouts);
  }

  lemma {:induction false} PossibleSplits(w: World, events: seq<Event>, n: nat, timeouts: seq<nat>)
    requires Possible(w, events, timeouts) && n < |events|
    ensures Possible(w, events[..n], timeouts) && Enabled(Final(w, events[..n], timeouts), events[n], timeouts)
    decreases |events|
  {
    if n > 0 {
      PossibleSplits(Next(w, events[0], timeouts), events[1..], n - 1, timeouts);
      assert events[..n][1..] == events[1..][..n - 1];
    }
  }
}
