/**
 One run of the daily operations: take the lock, walk through the steps, save the summary, release the lock. The
 runners, the clock, Redis and the events, and whatever they raise, answer through parameters.
 */
module OperationsRun {
  import opened Wrappers
  import opened OperationsValues
  import opened DailyOperations
  import opened StatusEncoding
  import OperationsLock

  type Token = OperationsLock.Token

  // ---------------------------------------------------------------------------------------------
  // The guard
  // ---------------------------------------------------------------------------------------------

  /** What becomes of saving: stored, refused, or no answer, in which case it may be stored all the same. */
  datatype SaveReply = Stored | Refused | Down | StoredUnheard

  /** How Redis answers one run when it acquires, saves and releases. */
  datatype Link = Link(acquire: Connection, save: SaveReply, release: Connection)

  /** The two keys in Redis, and every release that was asked for, in order. */
  datatype GuardState = GuardState(lock: Option<Token>, status: Option<Fields>, releases: seq<Token>)

  class DailyOperationsGuard {
    var lock: Option<Token>
    var status: Option<Fields>
    ghost var releases: seq<Token>

    constructor ()
      ensures State() == GuardState(None, None, [])
    {
      lock, status, releases := None, None, [];
    }

    ghost function State(): GuardState
      reads this
    {
      GuardState(lock, status, releases)
    }

    method Acquire(token: Token, c: Connection) returns (r: Result<bool, Thrown>)
      modifies this`lock
      ensures r == if c.Answers? then Ok(old(lock) == None) else Err(OperationsUnavailable)
      ensures lock == if !c.Unreached? && old(lock) == None then Some(token) else old(lock)
    {
      if c.Unreached? { return Err(OperationsUnavailable); }
      var free := lock == None;
      if free { lock := Some(token); }
      return if c.Answers? then Ok(free) else Err(OperationsUnavailable);
    }

    /** The release script: the key goes only while it holds the caller's token. */
    method Release(token: Token, c: Connection) returns (r: Result<bool, Thrown>)
      modifies this`lock, this`releases
      ensures releases == old(releases) + [token]
      ensures r == if c.Answers? then Ok(old(lock) == Some(token)) else Err(OperationsUnavailable)
      ensures lock == if !c.Unreached? && old(lock) == Some(token) then None else old(lock)
    {
      releases := releases + [token];
      if c.Unreached? { return Err(OperationsUnavailable); }
      var mine := lock == Some(token);
      if mine { lock := None; }
      return if c.Answers? then Ok(mine) else Err(OperationsUnavailable);
    }

    /** The encoding comes before the guarded call, so its error is no `DailyOperationsUnavailable`. */
    method SaveStatus(summary: Summary, reply: SaveReply) returns (r: Result<(), Thrown>)
      modifies this`status
      ensures !Encodable(Dict(Encode(summary))) ==> r == Err(OtherError) && status == old(status)
      ensures Encodable(Dict(Encode(summary))) ==>
                && r == (if reply.Stored? then Ok(()) else Err(OperationsUnavailable))
                && status == if reply.Stored? || reply.StoredUnheard? then Some(Encode(summary)) else old(status)
    {
      hide Encodable, Encode;
      var encoded := Encode(summary);
      if !Encodable(Dict(encoded)) { return Err(OtherError); }
      if reply.Stored? || reply.StoredUnheard? { status := Some(encoded); }
      return if reply.Stored? then Ok(()) else Err(OperationsUnavailable);
    }

    /** Between a run's acquire and its release other runs and the time to live may change the key. */
    method Interfere(later: Option<Token>)
      modifies this`lock
      ensures lock == later
    {
      lock := later;
    }
  }

  // ---------------------------------------------------------------------------------------------
  // The step loop
  // ---------------------------------------------------------------------------------------------

  ghost predicate AllQuiet(attempts: seq<Attempt>, n: nat)
    requires n <= |attempts|
  {
    forall i :: 0 <= i < n ==> attempts[i].trouble.Quiet?
  }

  /** The loop so far: every step ran, none stopped it, and the status tells whether one failed. */
  ghost predicate SoFar(results: seq<StepResult>, status: Word, attempts: seq<Attempt>) {
    && |results| <= |attempts| && AllQuiet(attempts, |results|)
    && (forall j :: 0 <= j < |results| ==> results[j] == ResultOf(attempts[j]) && !Stops(results[j]))
    && (status == CompletedText || status == DegradedText)
    && (status == CompletedText <==> forall j :: 0 <= j < |results| ==> results[j].Completed?)
  }

  /** Something raised around a step: before its result was recorded, or just after. */
  ghost predicate Interrupts(results: seq<StepResult>, thrown: Thrown, attempts: seq<Attempt>) {
    && |results| <= |attempts|
    && (forall i :: 0 <= i < |results| ==> results[i] == ResultOf(attempts[i]))
    && (forall i :: 0 <= i < |results| - 1 ==> attempts[i].trouble.Quiet? && !Stops(results[i]))
    && (|| (results != [] && attempts[|results| - 1].trouble == AfterResult(thrown))
        || (&& |results| < |attempts| && attempts[|results|].trouble == BeforeResult(thrown)
            && AllQuiet(attempts, |results|) && !CriticalEnd(results)))
  }

  lemma StepFits(results: seq<StepResult>, status: Word, r: StepResult, attempts: seq<Attempt>)
    requires SoFar(results, status, attempts) && |results| < |attempts|
    requires r == ResultOf(attempts[|results|])
    ensures var trouble := attempts[|results|].trouble;
            && (trouble.AfterResult? ==> Interrupts(results + [r], trouble.thrown, attempts))
            && (trouble.Quiet? && Stops(r) ==>
                  && Follows(results + [r], attempts) && StatusFits(FailedText, Some(r.errorCode), results + [r])
                  && AllQuiet(attempts, |results| + 1))
            && (trouble.Quiet? && !Stops(r) ==>
                  SoFar(results + [r], if r.Failed? then DegradedText else status, attempts))
  {
    hide ResultOf;
    if status == DegradedText {
      var j :| 0 <= j < |results| && results[j].Failed?;
      assert (results + [r])[j].Failed?;
    }
    assert (results + [r])[|results|] == r;
  }

  lemma LoopEnds(results: seq<StepResult>, status: Word, attempts: seq<Attempt>)
    requires SoFar(results, status, attempts) && |attempts| == |results|
    ensures Follows(results, attempts) && StatusFits(status, None, results)
  {
    hide ResultOf;
  }

  lemma TroubleInterrupts(results: seq<StepResult>, status: Word, attempts: seq<Attempt>)
    requires SoFar(results, status, attempts) && |results| < |attempts|
    requires attempts[|results|].trouble.BeforeResult?
    ensures Interrupts(results, attempts[|results|].trouble.thrown, attempts)
  {
    hide ResultOf;
  }

  /** The step loop: it accumulates results and metrics, and stops after a critical failure or when something raises. */
  method RunSteps(metrics: OperationMetrics, attempts: seq<Attempt>)
    returns (stepResults: seq<StepResult>, finalStatus: Word, finalErrorCode: Option<Word>, thrown: Option<Thrown>)
    requires metrics.AsDict() == NOTHING_YET
    modifies metrics
    ensures thrown.None? ==>
              && Follows(stepResults, attempts) && AllQuiet(attempts, |stepResults|)
              && StatusFits(finalStatus, finalErrorCode, stepResults)
    ensures thrown.Some? ==> Interrupts(stepResults, thrown.value, attempts)
    ensures metrics.AsDict() == Tally(stepResults)
  {
    hide SafeStepMetrics, PublicStepError, ResultOf, Tally, IsStepErrorCode, Follows, StatusFits, Interrupts;
    assert Tally([]) == NOTHING_YET by { NothingTallied(); }
    stepResults, finalStatus, finalErrorCode, thrown := [], CompletedText, None, None;
    var i := 0;
    while i < |attempts|
      invariant i <= |attempts| && |stepResults| == i
      invariant metrics.AsDict() == Tally(stepResults)
      invariant SoFar(stepResults, finalStatus, attempts)
      invariant finalErrorCode == None && thrown == None
    {
      var (step, outcome, trouble) := (attempts[i].step, attempts[i].outcome, attempts[i].trouble);
      if trouble.BeforeResult? {
        TroubleInterrupts(stepResults, finalStatus, attempts);
        thrown := Some(trouble.thrown);
        return;
      }
      hide SoFar, AllQuiet;
      var durationMs: nat := if attempts[i].elapsedMs < 0 then 0 else attempts[i].elapsedMs;
      var safeMetrics := if outcome.Returned? then SafeStepMetrics(step.name, outcome.result) else None;
      var result: StepResult;
      if safeMetrics.None? {
        var errorCode := PublicStepError(step.name, if outcome.Raised? then outcome.failure else FunnelInvalid);
        result := Failed(step.name, step.critical, durationMs, errorCode);
      } else {
        result := Completed(step.name, step.critical, durationMs, safeMetrics.value);
      }
      ResultByCases(attempts[i]);
      StepFits(stepResults, finalStatus, result, attempts);
      metrics.Note(result, stepResults);
      stepResults := stepResults + [result];
      if trouble.AfterResult? {
        thrown := Some(trouble.thrown);
        return;
      }
      if result.Failed? {
        if step.critical {
          finalStatus, finalErrorCode := FailedText, Some(result.errorCode);
          return;
        }
        finalStatus := DegradedText;
      }
      i := i + 1;
    }
    LoopEnds(stepResults, finalStatus, attempts);
  }

  /** How the step loop of a run ends: with a summary to save, or interrupted. */
  datatype LoopEnd = Finished(summary: Summary) | Interrupted(results: seq<StepResult>, thrown: Thrown)

  ghost predicate Ran(end: LoopEnd, attempts: seq<Attempt>, id: Identity) {
    match end
    case Finished(s) => SavedBy(s, attempts, id) && AllQuiet(attempts, |s.steps|)
    case Interrupted(results, thrown) => Interrupts(results, thrown, attempts)
  }

  function ResultsOf(end: LoopEnd): seq<StepResult> {
    match end
    case Finished(s) => s.steps
    case Interrupted(results, _) => results
  }

  /** The attempts decide how the loop ends: where, with which results, and with what thrown. */
  lemma RanIsUnique(a: LoopEnd, b: LoopEnd, attempts: seq<Attempt>, id: Identity)
    requires Ran(a, attempts, id) && Ran(b, attempts, id)
    ensures a == b
  {
    hide ResultOf, Tally;
    var (x, y) := (ResultsOf(a), ResultsOf(b));
    assert forall i :: 0 <= i < |x| && i < |y| ==> x[i] == y[i];
    assert |x| == |y|;
    assert x == y;
    if a.Finished? && b.Finished? { SavedByIsUnique(a.summary, b.summary, attempts, id); }
  }

  /** The loop is interrupted by nothing but trouble around a step it reaches. */
  lemma QuietRunFinishes(end: LoopEnd, attempts: seq<Attempt>, id: Identity)
    requires Ran(end, attempts, id) && AllQuiet(attempts, |attempts|)
    ensures end.Finished? && SavedBy(end.summary, attempts, id)
  {
    hide ResultOf, Tally;
  }

  /**
   Throughout the step loop, whatever the steps return or raise and whatever interrupts them, the metrics so far are
   conserved.
   */
  lemma RunConserves(end: LoopEnd, attempts: seq<Attempt>, id: Identity, done: nat)
    requires Ran(end, attempts, id) && done <= |ResultsOf(end)|
    ensures var results := ResultsOf(end)[..done];
            var m := Tally(results);
            && m.retentionFunnel == FunnelSum(results)
            && Balanced(m.retentionFunnel)
            && m.retentionFunnel[FIXTURES_RECEIVED] == m.counters[FIXTURES_RECEIVED]
            && m.retentionFunnel[RETAINED] == m.counters[FIXTURES_RETAINED]
            && m.counters[SYNCHRONIZATION_SUCCEEDED] + m.counters[SYNCHRONIZATION_FAILED] == |SyncResults(results)|
  {
    hide ResultOf, Sound, Balanced;
    var results := ResultsOf(end);
    forall r | r in results ensures Sound(r) {
      var i :| 0 <= i < |results| && results[i] == r;
      ResultsAreSound(attempts[i]);
    }
    TallyConserves(results[..done]);
    TallyMeans(results[..done]);
  }

  // ---------------------------------------------------------------------------------------------
  // The run
  // ---------------------------------------------------------------------------------------------

  const ALREADY_RUNNING := Plain("daily_operations_already_running")
  const FAIL_CLOSED := Plain("daily_operations_redis_fail_closed")

  function FailClosed(m: MetricsRecord): MetricsRecord {
    m.(counters := Add(m.counters, REDIS_FAIL_CLOSED_COUNT, 1))
  }

  /** What the events outside the step loop raise, if anything. */
  datatype Events = Events(
    refused: Option<Thrown>, started: Option<Thrown>, releaseRefused: Option<Thrown>, releaseFailed: Option<Thrown>)

  /** `lockLater` is what the lock holds when the run comes to release it. */
  datatype Setting = Setting(token: Token, identity: Identity, link: Link, events: Events, lockLater: Option<Token>)

  /** The run holds the lock and has come past its started event. */
  predicate Enters(before: GuardState, x: Setting) {
    x.link.acquire.Answers? && before.lock.None? && x.events.started.None?
  }

  function AlreadyRunning(id: Identity): Summary {
    Summary(FailedText, id, Some(ALREADY_RUNNING), [], FailClosed(NOTHING_YET))
  }

  function FailedClosed(results: seq<StepResult>, id: Identity): Summary {
    Summary(FailedText, id, Some(FAIL_CLOSED), results, FailClosed(Tally(results)))
  }

  /** The summary is encoded and Redis takes it, whether or not its answer arrives. */
  predicate Saves(end: LoopEnd, reply: SaveReply) {
    end.Finished? && Encodable(Dict(Encode(end.summary))) && (reply.Stored? || reply.StoredUnheard?)
  }

  /** What `DailyOperationsUnavailable` becomes, and what goes on escaping. */
  function Caught(thrown: Thrown, results: seq<StepResult>, id: Identity): Result<Summary, Thrown> {
    if thrown.OperationsUnavailable? then Ok(FailedClosed(results, id)) else Err(thrown)
  }

  /** What leaves the guarded part of the run, before its `finally`. */
  function Leaves(end: LoopEnd, x: Setting): Result<Summary, Thrown> {
    match end
    case Interrupted(results, thrown) => Caught(thrown, results, x.identity)
    case Finished(s) =>
      if !Encodable(Dict(Encode(s))) then Err(OtherError)
      else if x.link.save.Stored? then Ok(s)
      else Ok(FailedClosed(s.steps, x.identity))
  }

  /** What the events around the release raise. */
  function ClosingThrows(x: Setting): Option<Thrown> {
    if !x.link.release.Answers? then x.events.releaseFailed
    else if x.lockLater == Some(x.token) then None
    else if x.events.releaseRefused == Some(OperationsUnavailable) then x.events.releaseFailed
    else x.events.releaseRefused
  }

  /** What a run does to Redis and how it ends, by whether it enters its guarded part. */
  ghost predicate Meets(before: GuardState, after: GuardState, r: Result<Summary, Thrown>, end: LoopEnd,
                        attempts: seq<Attempt>, x: Setting) {
    && after.releases == before.releases + (if Enters(before, x) then [x.token] else [])
    && if Enters(before, x) then
         && Ran(end, attempts, x.identity)
         && after.lock == (if !x.link.release.Unreached? && x.lockLater == Some(x.token) then None else x.lockLater)
         && after.status == (if Saves(end, x.link.save) then Some(Encode(end.summary)) else before.status)
         && r == match ClosingThrows(x) case Some(t) => Err(t) case None => Leaves(end, x)
       else
         && after.lock == (if !x.link.acquire.Unreached? && before.lock.None? then Some(x.token) else before.lock)
         && after.status == before.status
         && r == if !x.link.acquire.Answers? then Err(OperationsUnavailable)
                 else if before.lock.None? then Err(x.events.started.value)
                 else match x.events.refused case Some(t) => Err(t) case None => Ok(AlreadyRunning(x.identity))
  }

  /** The guarded part: the loop, the saving, and the handler that fails closed. */
  method Operate(guard: DailyOperationsGuard, metrics: OperationMetrics, attempts: seq<Attempt>, x: Setting)
    returns (r: Result<Summary, Thrown>, ghost end: LoopEnd)
    requires metrics.AsDict() == NOTHING_YET
    modifies metrics, guard`status
    ensures Ran(end, attempts, x.identity) && r == Leaves(end, x)
    ensures guard.status == if Saves(end, x.link.save) then Some(Encode(end.summary)) else old(guard.status)
  {
    hide ResultOf, Recorded, Follows, StatusFits, Tally, Interrupts, AllQuiet, Encodable, Encode;
    var stepResults, finalStatus, finalErrorCode, thrown := RunSteps(metrics, attempts);
    if thrown.None? {
      var summary := Summary(finalStatus, x.identity, finalErrorCode, stepResults, metrics.AsDict());
      end := Finished(summary);
      var saved := guard.SaveStatus(summary, x.link.save);
      if saved.Ok? {
        return Ok(summary), end;
      }
      thrown := Some(saved.error);
    } else {
      end := Interrupted(stepResults, thrown.value);
    }
    if thrown.value.OtherError? {
      return Err(OtherError), end;
    }
    metrics.Bump(REDIS_FAIL_CLOSED_COUNT, 1);
    r := Ok(Summary(FailedText, x.identity, Some(FAIL_CLOSED), stepResults, metrics.AsDict()));
  }

  /**
   A refused lock ends the run at once; no answer on acquire ends it with an error, and may leave a lock nobody
   releases, as does a started event that raises. Every other path comes to the release, whatever escapes before it.
   */
  method Run(guard: DailyOperationsGuard, attempts: seq<Attempt>, x: Setting)
    returns (r: Result<Summary, Thrown>, ghost end: LoopEnd)
    modifies guard
    ensures Meets(old(guard.State()), guard.State(), r, end, attempts, x)
  {
    hide Ran, Leaves, Saves, Encode, Tally, Recorded, CounterNames, FailedClosed;
    CountersAreNamed();
    end := Interrupted([], OtherError);
    var metrics := new OperationMetrics();
    var acquired := guard.Acquire(x.token, x.link.acquire);
    if acquired.Err? {
      return Err(acquired.error), end;
    }
    if !acquired.value {
      metrics.counters := metrics.counters[REDIS_FAIL_CLOSED_COUNT := 1];
      var refusal := Summary(FailedText, x.identity, Some(ALREADY_RUNNING), [], metrics.AsDict());
      return if x.events.refused.Some? then Err(x.events.refused.value) else Ok(refusal), end;
    }
    if x.events.started.Some? {
      return Err(x.events.started.value), end;
    }
    r, end := Operate(guard, metrics, attempts, x);
    guard.Interfere(x.lockLater);
    var released := guard.Release(x.token, x.link.release);
    var thrown: Option<Thrown> := None;
    if released.Ok? && !released.value {
      thrown := x.events.releaseRefused;
    }
    if released.Err? || thrown == Some(OperationsUnavailable) {
      thrown := x.events.releaseFailed;
    }
    if thrown.Some? {
      r := Err(thrown.value);
    }
  }

  // ---------------------------------------------------------------------------------------------
  // What a run guarantees
  // ---------------------------------------------------------------------------------------------

  /**
   Exactly one release, with the run's own token, is attempted if and only if the acquire answered true and the started
   event did not raise. Otherwise none is; and a lock taken all the same stays held.
   */
  lemma OneReleaseExactly(before: GuardState, after: GuardState, r: Result<Summary, Thrown>, end: LoopEnd,
                          attempts: seq<Attempt>, x: Setting)
    requires Meets(before, after, r, end, attempts, x)
    ensures after.releases == before.releases + [x.token] <==>
              x.link.acquire.Answers? && before.lock.None? && x.events.started.None?
    ensures after.releases == before.releases + [x.token] || after.releases == before.releases
    ensures after.releases == before.releases && before.lock.None? && !x.link.acquire.Unreached? ==>
              after.lock == Some(x.token) && after.status == before.status && r.Err?
  {
    hide Ran, Leaves, Saves, Encode;
    assert |before.releases + [x.token]| == |before.releases| + 1;
    assert before.releases + [] == before.releases;
  }

  /** The failing input: a started event that raises after the lock was taken. This is all such a run does. */
  lemma StartedEventLeavesLock(token: Token, id: Identity, attempts: seq<Attempt>, after: GuardState,
                               r: Result<Summary, Thrown>, end: LoopEnd)
    ensures var events := Events(None, Some(OtherError), None, None);
            var x := Setting(token, id, Link(Answers, Stored, Answers), events, Some(token));
            Meets(GuardState(None, None, []), after, r, end, attempts, x) <==>
            after == GuardState(Some(token), None, []) && r == Err(OtherError)
  {
    hide Ran, Leaves, Saves, Encode;
  }

  /** What escapes from the loop or from the encoding saves nothing, and the lock is still released once. */
  lemma EscapeSavesNothing(before: GuardState, after: GuardState, r: Result<Summary, Thrown>, end: LoopEnd,
                           attempts: seq<Attempt>, x: Setting)
    requires Meets(before, after, r, end, attempts, x) && Enters(before, x)
    requires end.Interrupted? || exists i :: 0 <= i < |end.summary.steps| && end.summary.steps[i].Completed?
                                             && !Encodable(Dict(end.summary.steps[i].metrics))
    ensures after.status == before.status && after.releases == before.releases + [x.token]
    ensures end.Finished? || end.thrown.OtherError? ==> r.Err?
  {
    hide Ran, Encode, Encodable, Tally;
    if end.Finished? { EncodableExactly(end.summary); }
  }

  /** A run ends without an exception exactly in these cases. */
  lemma ReturnsExactly(before: GuardState, after: GuardState, r: Result<Summary, Thrown>, end: LoopEnd,
                       attempts: seq<Attempt>, x: Setting)
    requires Meets(before, after, r, end, attempts, x)
    ensures r.Ok? <==>
            if Enters(before, x) then
              && ClosingThrows(x).None?
              && match end
                 case Interrupted(_, thrown) => thrown.OperationsUnavailable?
                 case Finished(s) =>
                   forall i :: 0 <= i < |s.steps| && s.steps[i].Completed? ==> Encodable(Dict(s.steps[i].metrics))
            else x.link.acquire.Answers? && before.lock.Some? && x.events.refused.None?
    ensures r.Ok? && Enters(before, x) && r.value.errorCode != Some(FAIL_CLOSED) ==>
              after.status == Some(Encode(r.value)) && SavedBy(r.value, attempts, x.identity)
  {
    hide Encode, Encodable, Tally, Interrupts, SavedBy;
    if end.Finished? { EncodableExactly(end.summary); }
  }

  // ---------------------------------------------------------------------------------------------
  // What a run reports
  // ---------------------------------------------------------------------------------------------

  /** No step contributes to the fail-closed counter. */
  lemma {:induction false} StepsNeverFailClosed(results: seq<StepResult>)
    ensures Sum(results, REDIS_FAIL_CLOSED_COUNT) == 0
  {
    hide Spelling, Number;
    if results != [] { StepsNeverFailClosed(results[..|results| - 1]); }
  }

  lemma {:induction false} TallyNeverFailsClosed(results: seq<StepResult>)
    ensures REDIS_FAIL_CLOSED_COUNT in CounterNames() && Tally(results).counters[REDIS_FAIL_CLOSED_COUNT] == 0
  {
    hide CounterNames, Sum, Tally;
    CountersAreNamed();
    TallyMeans(results);
    StepsNeverFailClosed(results);
  }

  /** The tally of the steps, and one more failure to be on the safe side. */
  ghost predicate TallyAndOne(m: MetricsRecord, steps: seq<StepResult>) {
    var t := Tally(steps);
    && (forall k :: k in CounterNames() ==>
          m.counters[k] == if k == REDIS_FAIL_CLOSED_COUNT then 1 else t.counters[k])
    && m.quotaRemainingDaily == t.quotaRemainingDaily && m.quotaRemainingMinute == t.quotaRemainingMinute
    && m.retentionFunnel == t.retentionFunnel && m.stepDurationMs == t.stepDurationMs
  }

  lemma {:induction false} FailClosedAddsOne(steps: seq<StepResult>)
    ensures TallyAndOne(FailClosed(Tally(steps)), steps)
  {
    hide Tally;
    TallyNeverFailsClosed(steps);
  }

  /** The run's own loop came to this summary and Redis said that it took it. */
  ghost predicate SavedAsItIs(before: GuardState, s: Summary, end: LoopEnd, x: Setting) {
    && before.lock.None? && x.link.acquire.Answers? && x.events.started.None?
    && end == Finished(s) && x.link.save.Stored?
  }

  /** Whether a step that must not fail did. */
  ghost predicate CriticalFailure(steps: seq<StepResult>) {
    exists i :: 0 <= i < |steps| && steps[i].Failed? && steps[i].critical
  }

  lemma StatusOfSaved(s: Summary, attempts: seq<Attempt>, id: Identity)
    requires SavedBy(s, attempts, id)
    ensures s.identity == id
    ensures s.status == CompletedText || s.status == DegradedText ==>
              !CriticalFailure(s.steps) && s.errorCode == None
    ensures s.status != CompletedText && s.status != DegradedText ==> s.status == FailedText && s.errorCode.Some?
  {
    hide Tally, ResultOf;
    if CriticalFailure(s.steps) {
      var i :| 0 <= i < |s.steps| && s.steps[i].Failed? && s.steps[i].critical;
      assert Stops(s.steps[i]);
    }
  }

  /**
   What a returned summary tells. Completed and degraded are reported only of a run that found the lock free, finished
   its steps without a critical failure, and had exactly this summary saved. Any other summary is a failure with a code.
   */
  lemma SuccessIsEarned(before: GuardState, after: GuardState, r: Result<Summary, Thrown>, end: LoopEnd,
                        attempts: seq<Attempt>, x: Setting)
    requires Meets(before, after, r, end, attempts, x) && r.Ok?
    ensures r.value.identity == x.identity
    ensures r.value.status == CompletedText || r.value.status == DegradedText ==>
              && SavedAsItIs(before, r.value, end, x) && after.status == Some(Encode(r.value))
              && !CriticalFailure(r.value.steps) && r.value.errorCode == None
    ensures r.value.status != CompletedText && r.value.status != DegradedText ==>
              r.value.status == FailedText && r.value.errorCode.Some?
  {
    hide Encode, Encodable, Tally, Interrupts, SavedBy, StatusFits, CriticalFailure, FailClosed;
    if SavedAsItIs(before, r.value, end, x) { StatusOfSaved(r.value, attempts, x.identity); }
  }

  /** A summary that was not saved as it is tells why: the lock was held, or Redis could not be relied on. */
  lemma UnsavedIsAccountedFor(before: GuardState, after: GuardState, r: Result<Summary, Thrown>, end: LoopEnd,
                              attempts: seq<Attempt>, x: Setting)
    requires Meets(before, after, r, end, attempts, x) && r.Ok? && !SavedAsItIs(before, r.value, end, x)
    ensures r.value.status == FailedText && r.value.errorCode.Some? && TallyAndOne(r.value.metrics, r.value.steps)
    ensures var code := Spelling(r.value.errorCode.value);
            if before.lock.Some?
            then code == "daily_operations_already_running" && r.value.steps == []
            else code == "daily_operations_redis_fail_closed" && r.value.steps == ResultsOf(end)
  {
    hide Encode, Encodable, Tally, Interrupts, FailClosed, SavedBy, Spelling, TallyAndOne;
    NothingTallied();
    FailClosedAddsOne(r.value.steps);
    CodesAreSpelled();
    assert r.value ==
           if before.lock.Some? then AlreadyRunning(x.identity) else FailedClosed(ResultsOf(end), x.identity);
  }

  lemma CodesAreSpelled()
    ensures Spelling(ALREADY_RUNNING) == "daily_operations_already_running"
    ensures Spelling(FAIL_CLOSED) == "daily_operations_redis_fail_closed"
  {
  }

  /** A run whose events raise nothing closes without raising anything, whatever became of its lock. */
  lemma QuietEventsCloseQuietly(before: GuardState, after: GuardState, r: Result<Summary, Thrown>, end: LoopEnd,
                                attempts: seq<Attempt>, x: Setting)
    requires Meets(before, after, r, end, attempts, x) && Enters(before, x)
    requires x.events.releaseRefused.None? && x.events.releaseFailed.None?
    ensures end.Interrupted? ==> (r.Err? <==> end.thrown == OtherError)
    ensures end.Finished? ==> (r.Err? <==> !Encodable(Dict(Encode(end.summary))))
    ensures end.Finished? && r.Ok? && x.link.save.Stored? ==> r.value == end.summary
  {
    hide Encode, Encodable, Tally, Ran, FailClosed;
  }

  const FOREIGN_ATTEMPT :=
    Attempt(OperationStep(ResolveStep, false, 0), Returned(map[RECEIVED := Foreign(0)]), 0, Quiet)

  /** An input on which the encoding escapes: a resolution that returns a value JSON has no form for. */
  lemma EncodingCanEscape(token: Token, id: Identity, r: Result<Summary, Thrown>, after: GuardState, end: LoopEnd)
    requires var x := Setting(token, id, Link(Answers, Stored, Answers), Events(None, None, None, None), Some(token));
             Meets(GuardState(None, None, []), after, r, end, [FOREIGN_ATTEMPT], x)
    ensures r == Err(OtherError) && after == GuardState(None, None, [token])
  {
    hide Encode, Encodable, Tally, Ran, FailedClosed;
    ForeignRunCannotBeWritten(end, id);
  }

  lemma ForeignRunCannotBeWritten(end: LoopEnd, id: Identity)
    requires Ran(end, [FOREIGN_ATTEMPT], id)
    ensures end.Finished? && !Encodable(Dict(Encode(end.summary)))
  {
    hide Encode, Encodable, Tally, StatusFits, ResultOf;
    assert AllQuiet([FOREIGN_ATTEMPT], 1);
    QuietRunFinishes(end, [FOREIGN_ATTEMPT], id);
    ForeignStandsInTheWay();
    var steps := end.summary.steps;
    assert |steps| == 1 && steps[0] == ResultOf(FOREIGN_ATTEMPT);
    EncodableExactly(end.summary);
  }

  lemma ForeignStandsInTheWay()
    ensures ResultOf(FOREIGN_ATTEMPT).Completed? && !Encodable(Dict(ResultOf(FOREIGN_ATTEMPT).metrics))
  {
    var m := Pick(map[RECEIVED := Foreign(0)], RESOLVE_KEYS);
    assert RECEIVED in m && !Encodable(m[RECEIVED]);
  }
}
