/** The timeouts of the five default steps. */
module OperationsTimeouts {
  const STEP_TIMEOUTS_MS: seq<nat> := [300_000, 300_000, 120_000, 120_000, 60_000]
}

/**
 The lock of the daily operations: one Redis key set with NX and a time to live, released by a script
 that compares tokens. Any number of runs interleave; each walks through its steps while it believes it
 holds the lock, and Redis may drop the key once the time to live is over.
 */
module OperationsLock {
  import opened OperationsTimeouts
  import opened Wrappers

  const LOCK_TTL_MS: nat := 30 * 60 * 1000

  datatype Token = Token(uuid: nat)

  datatype Lock = Lock(token: Token, deadline: int)

  /** Where a run is. `overhead` is the time it has spent in its loop outside its steps. */
  datatype Phase =
    | Between(acquiredAt: int, step: nat, overhead: int, since: int)
    | InStep(acquiredAt: int, step: nat, overhead: int, since: int)
    | Left
    | Gone

  datatype World = World(lock: Option<Lock>, runs: map<Token, Phase>, clock: int)

  datatype Event =
    | Acquire(token: Token, at: int)
    | Begin(token: Token, at: int)
    | Finish(token: Token, at: int)
    | Leave(token: Token, at: int)
    | Release(token: Token, at: int)
    | Crash(token: Token, at: int)
    | Expire(at: int)

  function Total(timeouts: seq<nat>, n: nat): nat
    requires n <= |timeouts|
  {
    if n == 0 then 0 else Total(timeouts, n - 1) + timeouts[n - 1]
  }

  predicate Looping(w: World, t: Token) {
    t in w.runs && (w.runs[t].Between? || w.runs[t].InStep?)
  }

  predicate Enabled(w: World, e: Event, timeouts: seq<nat>) {
    w.clock <= e.at &&
    match e
    case Acquire(t, _) => t !in w.runs
    case Begin(t, _) => t in w.runs && w.runs[t].Between? && w.runs[t].step < |timeouts|
    case Finish(t, _) => t in w.runs && w.runs[t].InStep?
    case Leave(t, _) => t in w.runs && w.runs[t].Between?
    case Release(t, _) => t in w.runs && w.runs[t].Left?
    case Crash(t, _) => t in w.runs
    case Expire(at) => w.lock.Some? && w.lock.value.deadline <= at
  }

  function Next(w: World, e: Event, timeouts: seq<nat>): World
    requires Enabled(w, e, timeouts)
  {
    match e
    case Acquire(t, at) =>
      if w.lock.None?
      then World(Some(Lock(t, at + LOCK_TTL_MS)), w.runs[t := Between(at, 0, 0, at)], at)
      else World(w.lock, w.runs[t := Gone], at)
    case Begin(t, at) =>
      var r := w.runs[t];
      World(w.lock, w.runs[t := InStep(r.acquiredAt, r.step, r.overhead + (at - r.since), at)], at)
    case Finish(t, at) =>
      var r := w.runs[t];
      World(w.lock, w.runs[t := Between(r.acquiredAt, r.step + 1, r.overhead, at)], at)
    case Leave(t, at) => World(w.lock, w.runs[t := Left], at)
    case Release(t, at) =>
      World(if w.lock.Some? && w.lock.value.token == t then None else w.lock, w.runs[t := Gone], at)
    case Crash(t, at) => World(w.lock, w.runs[t := Gone], at)
    case Expire(at) => World(None, w.runs, at)
  }

  /** A step in progress has not outlived its timeout, and the time spent outside steps is below the slack. */
  predicate OnTime(r: Phase, now: int, timeouts: seq<nat>, slack: nat) {
    match r
    case Between(_, _, overhead, since) => overhead + (now - since) < slack
    case InStep(_, step, overhead, since) =>
      overhead < slack && (step < |timeouts| ==> now <= since + timeouts[step])
    case _ => true
  }

  /** An interleaving in which every run that is in its loop is on time whenever anything happens. */
  ghost predicate Punctual(w: World, events: seq<Event>, timeouts: seq<nat>, slack: nat)
    decreases |events|
  {
    events == [] ||
    (&& Enabled(w, events[0], timeouts)
     && (forall t :: t in w.runs ==> OnTime(w.runs[t], events[0].at, timeouts, slack))
     && Punctual(Next(w, events[0], timeouts), events[1..], timeouts, slack))
  }

  /** Any interleaving at all, late runs and crashed runs included. */
  predicate Possible(w: World, events: seq<Event>, timeouts: seq<nat>)
    decreases |events|
  {
    events == [] ||
    (Enabled(w, events[0], timeouts) && Possible(Next(w, events[0], timeouts), events[1..], timeouts))
  }

  function Final(w: World, events: seq<Event>, timeouts: seq<nat>): World
    requires Possible(w, events, timeouts)
    decreases |events|
  {
    if events == [] then w else Final(Next(w, events[0], timeouts), events[1..], timeouts)
  }

  const START := World(None, map[], 0)

  // ---------------------------------------------------------------------------------------------
  // The lock is lost only to its holder or to its deadline
  // ---------------------------------------------------------------------------------------------

  /**
   In every interleaving, on time or not, a lock that is held survives until its deadline unless its
   holder releases it: no other run's release, however late, removes it.
   */
  lemma {:induction false} LockSurvivesOthers(w: World, events: seq<Event>, timeouts: seq<nat>)
    requires w.lock.Some? && Possible(w, events, timeouts)
    requires forall e :: e in events ==> e.at < w.lock.value.deadline
    requires forall e :: e in events && e.Release? ==> e.token != w.lock.value.token
    ensures Final(w, events, timeouts).lock == w.lock
    decreases |events|
  {
    if events != [] {
      var w' := Next(w, events[0], timeouts);
      assert events[0] in events;
      assert w'.lock == w.lock;
      assert forall e :: e in events[1..] ==> e in events;
      LockSurvivesOthers(w', events[1..], timeouts);
    }
  }

  // ---------------------------------------------------------------------------------------------
  // Loops never overlap
  // ---------------------------------------------------------------------------------------------

  /** A looping run owns the lock, and its age is covered by the steps behind it and its overhead. */
  predicate Owns(w: World, t: Token, timeouts: seq<nat>)
    requires Looping(w, t)
  {
    var r := w.runs[t];
    && w.lock == Some(Lock(t, r.acquiredAt + LOCK_TTL_MS))
    && r.step <= |timeouts| && (r.InStep? ==> r.step < |timeouts|)
    && r.since - r.acquiredAt <= Total(timeouts, r.step) + r.overhead
    && r.since <= w.clock
  }

  ghost predicate Exclusive(w: World, timeouts: seq<nat>) {
    forall t :: Looping(w, t) ==> Owns(w, t, timeouts)
  }

  lemma {:induction false} TotalGrows(timeouts: seq<nat>, a: nat, b: nat)
    requires a <= b <= |timeouts|
    ensures Total(timeouts, a) <= Total(timeouts, b)
    decreases b
  {
    if a < b { TotalGrows(timeouts, a, b - 1); }
  }

  /** While on time, a looping run is younger than the time to live. */
  lemma {:induction false} YoungerThanLock(w: World, t: Token, now: int, timeouts: seq<nat>, slack: nat)
    requires Looping(w, t) && Owns(w, t, timeouts) && OnTime(w.runs[t], now, timeouts, slack)
    requires Total(timeouts, |timeouts|) + slack <= LOCK_TTL_MS
    ensures now < w.runs[t].acquiredAt + LOCK_TTL_MS
  {
    var r := w.runs[t];
    TotalGrows(timeouts, if r.InStep? then r.step + 1 else r.step, |timeouts|);
  }

  lemma {:induction false} StepKeepsExclusive(w: World, e: Event, timeouts: seq<nat>, slack: nat)
    requires Exclusive(w, timeouts) && Enabled(w, e, timeouts)
    requires forall t :: t in w.runs ==> OnTime(w.runs[t], e.at, timeouts, slack)
    requires Total(timeouts, |timeouts|) + slack <= LOCK_TTL_MS
    ensures Exclusive(Next(w, e, timeouts), timeouts)
  {
    var w' := Next(w, e, timeouts);
    forall t | Looping(w', t) ensures Owns(w', t, timeouts) {
      if Looping(w, t) {
        YoungerThanLock(w, t, e.at, timeouts, slack);
      }
    }
  }

  lemma {:induction false} ExclusiveThroughout(w: World, events: seq<Event>, timeouts: seq<nat>, slack: nat)
    requires Exclusive(w, timeouts) && Punctual(w, events, timeouts, slack) && Possible(w, events, timeouts)
    requires Total(timeouts, |timeouts|) + slack <= LOCK_TTL_MS
    ensures Exclusive(Final(w, events, timeouts), timeouts)
    decreases |events|
  {
    if events != [] {
      StepKeepsExclusive(w, events[0], timeouts, slack);
      ExclusiveThroughout(Next(w, events[0], timeouts), events[1..], timeouts, slack);
    }
  }

  /** Two different runs are in their step loops at once. */
  predicate Overlap(w: World, a: Token, b: Token) {
    a != b && Looping(w, a) && Looping(w, b)
  }

  ghost predicate CanOverlap(timeouts: seq<nat>, slack: nat) {
    exists events, a, b ::
      && Punctual(START, events, timeouts, slack) && Possible(START, events, timeouts)
      && Overlap(Final(START, events, timeouts), a, b)
  }

  // ---------------------------------------------------------------------------------------------
  // The bound is exact
  // ---------------------------------------------------------------------------------------------

  /** The world of a single run that has just finished its first `n` steps, each at its timeout. */
  function Alone(t: Token, timeouts: seq<nat>, n: nat): World
    requires n <= |timeouts|
  {
    var now := Total(timeouts, n);
    World(Some(Lock(t, LOCK_TTL_MS)), map[t := Between(0, n, 0, now)], now)
  }

  lemma {:induction false} PunctualCons(w: World, e: Event, rest: seq<Event>, timeouts: seq<nat>, slack: nat)
    requires Enabled(w, e, timeouts)
    requires forall t :: t in w.runs ==> OnTime(w.runs[t], e.at, timeouts, slack)
    requires Punctual(Next(w, e, timeouts), rest, timeouts, slack) && Possible(Next(w, e, timeouts), rest, timeouts)
    ensures Punctual(w, [e] + rest, timeouts, slack) && Possible(w, [e] + rest, timeouts)
    ensures Final(w, [e] + rest, timeouts) == Final(Next(w, e, timeouts), rest, timeouts)
  {
    assert ([e] + rest)[1..] == rest;
  }

  /** After the slow run's last step: the lock expires under it and another run gets in. */
  lemma Intrusion(a: Token, b: Token, timeouts: seq<nat>, slack: nat, at: int) returns (events: seq<Event>)
    requires a != b && Total(timeouts, |timeouts|) <= at && LOCK_TTL_MS <= at
    requires at < Total(timeouts, |timeouts|) + slack
    ensures var w := Alone(a, timeouts, |timeouts|);
            && Punctual(w, events, timeouts, slack) && Possible(w, events, timeouts)
            && Overlap(Final(w, events, timeouts), a, b)
  {
    var w := Alone(a, timeouts, |timeouts|);
    var w1 := Next(w, Expire(at), timeouts);
    PunctualCons(w1, Acquire(b, at), [], timeouts, slack);
    PunctualCons(w, Expire(at), [Acquire(b, at)] + [], timeouts, slack);
    events := [Expire(at)] + ([Acquire(b, at)] + []);
  }

  lemma {:induction false} SlowRunLeadsIn(
    a: Token, b: Token, timeouts: seq<nat>, slack: nat, n: nat, tail: seq<Event>) returns (events: seq<Event>)
    requires n <= |timeouts| && slack > 0
    requires var w := Alone(a, timeouts, |timeouts|);
             && Punctual(w, tail, timeouts, slack) && Possible(w, tail, timeouts)
             && Overlap(Final(w, tail, timeouts), a, b)
    ensures var w := Alone(a, timeouts, n);
            && Punctual(w, events, timeouts, slack) && Possible(w, events, timeouts)
            && Overlap(Final(w, events, timeouts), a, b)
    decreases |timeouts| - n
  {
    if n == |timeouts| {
      events := tail;
    } else {
      var w := Alone(a, timeouts, n);
      var begin, finish := Begin(a, Total(timeouts, n)), Finish(a, Total(timeouts, n + 1));
      var rest := SlowRunLeadsIn(a, b, timeouts, slack, n + 1, tail);
      var w1 := Next(w, begin, timeouts);
      assert w1.runs == map[a := InStep(0, n, 0, Total(timeouts, n))];
      assert Next(w1, finish, timeouts) == Alone(a, timeouts, n + 1);
      PunctualCons(w1, finish, rest, timeouts, slack);
      PunctualCons(w, begin, [finish] + rest, timeouts, slack);
      events := [begin] + ([finish] + rest);
    }
  }

  lemma {:induction false} OverlapWhenTooSlow(timeouts: seq<nat>, slack: nat)
    requires slack > 0 && Total(timeouts, |timeouts|) + slack > LOCK_TTL_MS
    ensures CanOverlap(timeouts, slack)
  {
    var a, b := Token(0), Token(1);
    var total := Total(timeouts, |timeouts|);
    var tail := Intrusion(a, b, timeouts, slack, if total < LOCK_TTL_MS then LOCK_TTL_MS else total);
    var rest := SlowRunLeadsIn(a, b, timeouts, slack, 0, tail);
    assert Next(START, Acquire(a, 0), timeouts) == Alone(a, timeouts, 0);
    PunctualCons(START, Acquire(a, 0), rest, timeouts, slack);
  }

  /**
   For any step timeouts and any slack: two step loops can overlap in some interleaving of punctual runs
   exactly when the timeouts and the slack together exceed the lock's time to live.
   */
  lemma {:induction false} OverlapExactlyBeyondTtl(timeouts: seq<nat>, slack: nat)
    requires slack > 0
    ensures CanOverlap(timeouts, slack) <==> Total(timeouts, |timeouts|) + slack > LOCK_TTL_MS
  {
    if Total(timeouts, |timeouts|) + slack > LOCK_TTL_MS {
      OverlapWhenTooSlow(timeouts, slack);
    } else if CanOverlap(timeouts, slack) {
      var events, a, b :|
        && Punctual(START, events, timeouts, slack) && Possible(START, events, timeouts)
        && Overlap(Final(START, events, timeouts), a, b);
      ExclusiveThroughout(START, events, timeouts, slack);
      assert false;
    }
  }

  lemma DefaultTotal()
    ensures Total(STEP_TIMEOUTS_MS, |STEP_TIMEOUTS_MS|) == 900_000
  {
    var t := STEP_TIMEOUTS_MS;
    assert Total(t, 1) == 300_000;
    assert Total(t, 2) == 600_000;
    assert Total(t, 3) == 720_000;
    assert Total(t, 4) == 840_000;
    assert Total(t, 5) == 900_000;
  }

  /** The five default steps leave a slack of exactly 900 seconds. */
  lemma DefaultStepsNeverOverlap(slack: nat)
    requires slack > 0
    ensures CanOverlap(STEP_TIMEOUTS_MS, slack) <==> slack > 900_000
  {
    DefaultTotal();
    OverlapExactlyBeyondTtl(STEP_TIMEOUTS_MS, slack);
  }
}
