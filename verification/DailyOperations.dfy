/** What the steps of the daily operations leave behind, the metrics accumulated over them, and the summary of a run. */
module DailyOperations {
  import opened Wrappers
  import opened OperationsTimeouts
  import opened OperationsValues

  // ---------------------------------------------------------------------------------------------
  // Step results
  // ---------------------------------------------------------------------------------------------

  datatype OperationStep = OperationStep(name: Word, critical: bool, timeoutMs: nat)

  const DEFAULT_STEPS: seq<OperationStep> := [
    OperationStep(DailyDiscovery, true, STEP_TIMEOUTS_MS[0]),
    OperationStep(DailyRefresh, false, STEP_TIMEOUTS_MS[1]),
    OperationStep(SnapshotStep, true, STEP_TIMEOUTS_MS[2]),
    OperationStep(ResolveStep, false, STEP_TIMEOUTS_MS[3]),
    OperationStep(ReportStep, false, STEP_TIMEOUTS_MS[4])
  ]

  /** The exceptions a step can end with, as far as the code tells them apart. */
  datatype Failure = FunnelInvalid | TimedOut | ProviderFailure | DatabaseFailure | AnyOther

  datatype Outcome = Returned(result: Fields) | Raised(failure: Failure)

  /** What escapes a call, as far as the run tells it apart: `DailyOperationsUnavailable`, or anything else. */
  datatype Thrown = OperationsUnavailable | OtherError

  /**
   What goes wrong around a step outside its runner. `BeforeResult`: its started event or the clock raises, or the run
   is cancelled, and nothing is recorded. `AfterResult`: the event that reports the recorded result raises.
   */
  datatype Trouble = Quiet | BeforeResult(thrown: Thrown) | AfterResult(thrown: Thrown)

  /** A step as a run meets it. */
  datatype Attempt = Attempt(step: OperationStep, outcome: Outcome, elapsedMs: int, trouble: Trouble)

  predicate Tries(attempts: seq<Attempt>, steps: seq<OperationStep>) {
    |attempts| == |steps| && forall i :: 0 <= i < |attempts| ==> attempts[i].step == steps[i]
  }

  predicate TriesDefaultSteps(attempts: seq<Attempt>) { Tries(attempts, DEFAULT_STEPS) }

  predicate IsStepErrorCode(code: Word) {
    || code == FunnelInvalidCode || code == StepTimeoutCode || code == ProviderUnavailableCode
    || code == PostgresqlErrorCode || code == InternalErrorCode
  }

  function PublicStepError(step: Word, failure: Failure): (code: Word)
    ensures IsStepErrorCode(code)
  {
    match failure
    case FunnelInvalid => FunnelInvalidCode
    case TimedOut => StepTimeoutCode
    case ProviderFailure => ProviderUnavailableCode
    case DatabaseFailure => PostgresqlErrorCode
    case AnyOther =>
      if step == SnapshotStep || step == ResolveStep || step == ReportStep
      then PostgresqlErrorCode else InternalErrorCode
  }

  datatype StepResult =
    | Completed(name: Word, critical: bool, durationMs: nat, metrics: Fields)
    | Failed(name: Word, critical: bool, durationMs: nat, errorCode: Word)

  function Duration(a: Attempt): nat { if a.elapsedMs < 0 then 0 else a.elapsedMs }

  /** What a step leaves behind: a return value is kept only if its metrics can be sanitised. */
  function ResultOf(a: Attempt): StepResult {
    match a.outcome
    case Raised(failure) => Failed(a.step.name, a.step.critical, Duration(a), PublicStepError(a.step.name, failure))
    case Returned(result) =>
      match SafeStepMetrics(a.step.name, result)
      case Some(m) => Completed(a.step.name, a.step.critical, Duration(a), m)
      case None => Failed(a.step.name, a.step.critical, Duration(a), FunnelInvalidCode)
  }

  lemma ResultByCases(a: Attempt)
    ensures var safe := if a.outcome.Returned? then SafeStepMetrics(a.step.name, a.outcome.result) else None;
            ResultOf(a) ==
            if safe.Some? then Completed(a.step.name, a.step.critical, Duration(a), safe.value)
            else Failed(a.step.name, a.step.critical, Duration(a),
                        PublicStepError(a.step.name, if a.outcome.Raised? then a.outcome.failure else FunnelInvalid))
  {
    hide SafeStepMetrics;
  }

  predicate Stops(r: StepResult) { r.Failed? && r.critical }

  /** The results are those of the attempts in order, up to and including the first critical failure. */
  predicate Follows(results: seq<StepResult>, attempts: seq<Attempt>) {
    && |results| <= |attempts|
    && (forall i :: 0 <= i < |results| ==> results[i] == ResultOf(attempts[i]))
    && (forall i :: 0 <= i < |results| - 1 ==> !Stops(results[i]))
    && (|results| < |attempts| ==> CriticalEnd(results))
  }

  predicate CriticalEnd(results: seq<StepResult>) {
    results != [] && Stops(results[|results| - 1])
  }

  /** failed: the last step is a failed critical one; degraded: only others failed; completed: none failed. */
  predicate StatusFits(status: Word, errorCode: Option<Word>, results: seq<StepResult>) {
    && (status == FailedText || status == DegradedText || status == CompletedText)
    && (status == FailedText <==> CriticalEnd(results))
    && (status == DegradedText <==> !CriticalEnd(results) && exists i :: 0 <= i < |results| && results[i].Failed?)
    && (status == CompletedText <==> forall i :: 0 <= i < |results| ==> results[i].Completed?)
    && errorCode == if CriticalEnd(results) then Some(results[|results| - 1].errorCode) else None
  }

  // ---------------------------------------------------------------------------------------------
  // Metrics, and what they count
  // ---------------------------------------------------------------------------------------------

  /** The integer fields of the metrics, by name. */
  function CounterNames(): set<Key> {
    {
      SYNCHRONIZATION_SUCCEEDED, SYNCHRONIZATION_FAILED, FIXTURES_RECEIVED, FIXTURES_RETAINED, MATCHES_EVALUATED,
      SNAPSHOTS_CREATED, RESOLUTIONS_CREATED, OPPORTUNITIES_GENERATED, NO_BET_COUNT, INSUFFICIENT_DATA_COUNT,
      PROVIDER_ERROR_COUNT, REDIS_FAIL_CLOSED_COUNT, POSTGRESQL_ERROR_COUNT
    }
  }

  type Counters = m: map<Key, nat> | m.Keys == CounterNames() witness (map k | k in CounterNames() :: 0)

  datatype MetricsRecord = MetricsRecord(
    counters: Counters,
    quotaRemainingDaily: Option<nat>,
    quotaRemainingMinute: Option<nat>,
    retentionFunnel: Funnel,
    stepDurationMs: map<Word, nat>)

  lemma CountersAreNamed()
    ensures {SYNCHRONIZATION_SUCCEEDED, SYNCHRONIZATION_FAILED, FIXTURES_RECEIVED, FIXTURES_RETAINED,
             MATCHES_EVALUATED, SNAPSHOTS_CREATED, RESOLUTIONS_CREATED,
             OPPORTUNITIES_GENERATED, NO_BET_COUNT, INSUFFICIENT_DATA_COUNT,
             PROVIDER_ERROR_COUNT, REDIS_FAIL_CLOSED_COUNT, POSTGRESQL_ERROR_COUNT} <= CounterNames()
  {
  }

  function Add(m: Counters, k: Key, n: nat): Counters
    requires k in CounterNames()
  {
    m[k := m[k] + n]
  }

  /** What one step adds to one counter. */
  function Contribution(r: StepResult, k: Key): nat {
    match r
    case Completed(name, _, _, values) =>
      if IsSync(name) then
        if k == SYNCHRONIZATION_SUCCEEDED then 1
        else if k == FIXTURES_RECEIVED || k == FIXTURES_RETAINED then Number(values, k)
        else 0
      else if name == SnapshotStep then
        if k in {MATCHES_EVALUATED, SNAPSHOTS_CREATED, OPPORTUNITIES_GENERATED, NO_BET_COUNT, INSUFFICIENT_DATA_COUNT}
        then Number(values, k) else 0
      else if name == ResolveStep then
        if k == RESOLUTIONS_CREATED then Number(values, INSERTED) else 0
      else 0
    case Failed(name, _, _, code) =>
      if k == SYNCHRONIZATION_FAILED then (if IsSync(name) then 1 else 0)
      else if k == PROVIDER_ERROR_COUNT then (if "provider_" <= Spelling(code) then 1 else 0)
      else if k == POSTGRESQL_ERROR_COUNT then (if code == PostgresqlErrorCode then 1 else 0)
      else 0
  }

  /** The contributions of all steps to one counter. */
  function Sum(results: seq<StepResult>, k: Key): nat {
    if results == [] then 0 else Sum(results[..|results| - 1], k) + Contribution(results[|results| - 1], k)
  }

  predicate CompletedSync(r: StepResult) { r.Completed? && IsSync(r.name) }

  function FunnelOf(r: StepResult): Funnel {
    if CompletedSync(r) then CarriedFunnel(r.metrics) else NO_FIXTURES
  }

  /** The pointwise sum of the funnels of the completed synchronisations. */
  function FunnelSum(results: seq<StepResult>): Funnel {
    if results == [] then NO_FIXTURES
    else Plus(FunnelSum(results[..|results| - 1]), FunnelOf(results[|results| - 1]))
  }

  /** The quota the last completed synchronisation reported. */
  function LastQuota(results: seq<StepResult>, k: Key): Option<nat> {
    if results == [] then None
    else
      var r := results[|results| - 1];
      if CompletedSync(r) then OptionalNumber(r.metrics, k) else LastQuota(results[..|results| - 1], k)
  }

  function Durations(results: seq<StepResult>): map<Word, nat> {
    if results == [] then map[]
    else Durations(results[..|results| - 1])[results[|results| - 1].name := results[|results| - 1].durationMs]
  }

  function Advanced(c: Counters, r: StepResult): Counters {
    map k | k in CounterNames() :: c[k] + Contribution(r, k)
  }

  /** The metrics after one more step, apart from its duration. */
  function Recorded(m: MetricsRecord, r: StepResult): MetricsRecord {
    MetricsRecord(
      Advanced(m.counters, r),
      if CompletedSync(r) then OptionalNumber(r.metrics, QUOTA_REMAINING_DAILY) else m.quotaRemainingDaily,
      if CompletedSync(r) then OptionalNumber(r.metrics, QUOTA_REMAINING_MINUTE) else m.quotaRemainingMinute,
      Plus(m.retentionFunnel, FunnelOf(r)),
      m.stepDurationMs)
  }

  function Timed(m: MetricsRecord, r: StepResult): MetricsRecord {
    m.(stepDurationMs := m.stepDurationMs[r.name := r.durationMs])
  }

  const NOTHING_YET := MetricsRecord(map k | k in CounterNames() :: 0, None, None, NO_FIXTURES, map[])

  /** The metrics a run holds once these steps are done. */
  function Tally(results: seq<StepResult>): MetricsRecord {
    if results == [] then NOTHING_YET
    else
      var r := results[|results| - 1];
      Recorded(Timed(Tally(results[..|results| - 1]), r), r)
  }

  /** What the accumulated metrics say about the steps, each entry by its own sum. */
  lemma {:induction false} TallyMeans(results: seq<StepResult>)
    ensures var m := Tally(results);
            && (forall k :: k in CounterNames() ==> m.counters[k] == Sum(results, k))
            && m.retentionFunnel == FunnelSum(results)
            && m.quotaRemainingDaily == LastQuota(results, QUOTA_REMAINING_DAILY)
            && m.quotaRemainingMinute == LastQuota(results, QUOTA_REMAINING_MINUTE)
            && m.stepDurationMs == Durations(results)
  {
    if results != [] { TallyMeans(results[..|results| - 1]); }
  }

  /**
   A failure carries a public code. The metrics of a completed step are already sanitised: sanitising them
   again keeps them, or, for a report, reduces them to the no-sample pair.
   */
  predicate Sound(r: StepResult) {
    if r.Failed? then IsStepErrorCode(r.errorCode)
    else SafeStepMetrics(r.name, r.metrics) == Some(if IsReport(r.name) then NO_SAMPLE else r.metrics)
  }

  predicate IsReport(name: Word) { !IsSync(name) && name != SnapshotStep && name != ResolveStep }

  lemma ResultsAreSound(a: Attempt)
    ensures Sound(ResultOf(a))
  {
    if a.outcome.Returned? && SafeStepMetrics(a.step.name, a.outcome.result).Some? {
      ResanitisingStands(a.step.name, a.outcome.result);
    }
  }

  /** The funnel that coherent metrics carry agrees with their two counts. */
  lemma CarriedFunnelAgrees(metrics: Fields)
    requires SyncCoherent(metrics)
    ensures var f := CarriedFunnel(metrics);
            && Balanced(f)
            && f[FIXTURES_RECEIVED] == Number(metrics, FIXTURES_RECEIVED)
            && f[RETAINED] == Number(metrics, FIXTURES_RETAINED)
            && f[RETAINED] <= f[FIXTURES_RECEIVED]
  {
    hide SafeRetentionFunnel, Balanced;
    OnlyFunnelsAccepted(Get(metrics, RETENTION_FUNNEL));
  }

  lemma NoFixturesAgree()
    ensures Balanced(NO_FIXTURES)
  {
    NothingRejected(FUNNEL_FIELDS);
  }

  lemma SoundSyncIsCoherent(r: StepResult)
    requires Sound(r) && CompletedSync(r)
    ensures SyncCoherent(r.metrics)
  {
    hide SyncCoherent;
  }

  lemma FunnelOfSound(r: StepResult)
    requires Sound(r)
    ensures var f := FunnelOf(r);
            && Balanced(f)
            && f[FIXTURES_RECEIVED] == Contribution(r, FIXTURES_RECEIVED)
            && f[RETAINED] == Contribution(r, FIXTURES_RETAINED)
            && f[RETAINED] <= f[FIXTURES_RECEIVED]
  {
    hide Balanced, SyncCoherent, CarriedFunnel, Number, Sound;
    if CompletedSync(r) {
      SoundSyncIsCoherent(r);
      CarriedFunnelAgrees(r.metrics);
    } else {
      NoFixturesAgree();
    }
  }

  /** The synchronisation steps that ran. */
  function SyncResults(results: seq<StepResult>): seq<StepResult> {
    if results == [] then []
    else
      var r := results[|results| - 1];
      SyncResults(results[..|results| - 1]) + if IsSync(r.name) then [r] else []
  }

  lemma {:induction false} FunnelSumConserves(results: seq<StepResult>)
    requires forall r :: r in results ==> Sound(r)
    ensures var f := FunnelSum(results);
            && Balanced(f)
            && f[FIXTURES_RECEIVED] == Sum(results, FIXTURES_RECEIVED)
            && f[RETAINED] == Sum(results, FIXTURES_RETAINED)
            && f[RETAINED] <= f[FIXTURES_RECEIVED]
  {
    if results == [] {
      NothingRejected(FUNNEL_FIELDS);
    } else {
      var (rest, r) := (results[..|results| - 1], results[|results| - 1]);
      FunnelSumConserves(rest);
      assert r in results && Sound(r);
      FunnelOfSound(r);
      PlusKeepsBalance(FunnelSum(rest), FunnelOf(r));
    }
  }

  lemma {:induction false} EverySyncCountedOnce(results: seq<StepResult>)
    ensures Sum(results, SYNCHRONIZATION_SUCCEEDED) + Sum(results, SYNCHRONIZATION_FAILED) == |SyncResults(results)|
  {
    if results != [] { EverySyncCountedOnce(results[..|results| - 1]); }
  }

  /**
   Conservation over any list of step results: the aggregate funnel balances, agrees with the two fixture
   counters, and every synchronisation that ran is counted once, as succeeded or as failed.
   */
  lemma {:induction false} TallyConserves(results: seq<StepResult>)
    requires forall r :: r in results ==> Sound(r)
    ensures var m := Tally(results);
            && Balanced(m.retentionFunnel)
            && m.retentionFunnel[FIXTURES_RECEIVED] == m.counters[FIXTURES_RECEIVED]
            && m.retentionFunnel[RETAINED] == m.counters[FIXTURES_RETAINED]
            && m.counters[FIXTURES_RETAINED] <= m.counters[FIXTURES_RECEIVED]
            && m.counters[SYNCHRONIZATION_SUCCEEDED] + m.counters[SYNCHRONIZATION_FAILED] == |SyncResults(results)|
  {
    TallyMeans(results);
    FunnelSumConserves(results);
    EverySyncCountedOnce(results);
  }

  lemma AddNothing(f: Funnel)
    ensures Plus(f, NO_FIXTURES) == f
  {
  }

  /** The sum of two maps over some fields, the first map alone on the others. */
  function SumOn(all: set<Key>, f: map<Key, nat>, g: map<Key, nat>, fields: seq<Key>): map<Key, nat>
    requires f.Keys == g.Keys == all
  {
    map k | k in all :: f[k] + if k in fields then g[k] else 0
  }

  lemma SumOneField(all: set<Key>, f: map<Key, nat>, g: map<Key, nat>, fields: seq<Key>, k: Key)
    requires f.Keys == g.Keys == all && k in all && k !in fields
    ensures var a := SumOn(all, f, g, fields);
            k in a && a[k := a[k] + g[k]] == SumOn(all, f, g, fields + [k])
  {
    assert forall j :: j in fields + [k] <==> j in fields || j == k;
  }

  function PlusOn(f: Funnel, g: Funnel, fields: seq<Key>): Funnel { SumOn(FIELD_SET, f, g, fields) }

  function PlusUpTo(f: Funnel, g: Funnel, n: nat): Funnel
    requires n <= |FUNNEL_FIELDS|
  {
    PlusOn(f, g, FUNNEL_FIELDS[..n])
  }

  lemma PlusUpToEnds(f: Funnel, g: Funnel)
    ensures PlusUpTo(f, g, 0) == f && PlusUpTo(f, g, |FUNNEL_FIELDS|) == Plus(f, g)
  {
    hide PlusOn, Plus;
    assert FUNNEL_FIELDS[..|FUNNEL_FIELDS|] == FUNNEL_FIELDS;
    PlusOnNone(f, g);
    PlusOnAll(f, g, FUNNEL_FIELDS);
  }

  lemma PlusOnNone(f: Funnel, g: Funnel)
    ensures PlusOn(f, g, []) == f
  {
  }

  lemma PlusOnAll(f: Funnel, g: Funnel, fields: seq<Key>)
    requires forall k :: k in FIELD_SET ==> k in fields
    ensures PlusOn(f, g, fields) == Plus(f, g)
  {
  }

  lemma PlusOneField(f: Funnel, g: Funnel, fields: seq<Key>, k: Key)
    requires k in FIELD_SET && k !in fields
    ensures PlusOn(f, g, fields)[k := PlusOn(f, g, fields)[k] + g[k]] == PlusOn(f, g, fields + [k])
  {
    hide SumOn;
    SumOneField(FIELD_SET, f, g, fields, k);
  }

  /** No field is listed twice. */
  lemma FieldsAreDistinct(i: nat, j: nat)
    requires i < j < |FUNNEL_FIELDS|
    ensures FUNNEL_FIELDS[i] != FUNNEL_FIELDS[j]
  {
  }

  lemma PlusUpToStep(f: Funnel, g: Funnel, n: nat)
    requires n < |FUNNEL_FIELDS|
    ensures var k := FUNNEL_FIELDS[n];
            k in FIELD_SET && PlusUpTo(f, g, n)[k := PlusUpTo(f, g, n)[k] + g[k]] == PlusUpTo(f, g, n + 1)
  {
    hide PlusOn;
    var k := FUNNEL_FIELDS[n];
    forall i | 0 <= i < n
      ensures FUNNEL_FIELDS[..n][i] != k
    {
      FieldsAreDistinct(i, n);
    }
    assert k in FUNNEL_FIELDS;
    PlusOneField(f, g, FUNNEL_FIELDS[..n], k);
    assert FUNNEL_FIELDS[..n + 1] == FUNNEL_FIELDS[..n] + [k];
  }

  // ---------------------------------------------------------------------------------------------
  // The mutable metrics
  // ---------------------------------------------------------------------------------------------

  /** `n` for one counter, nothing for the others. */
  function Only(k: Key, n: nat, j: Key): nat { if j == k then n else 0 }

  lemma AddsOnly(m: Counters, k: Key, n: nat, j: Key)
    requires k in CounterNames() && j in CounterNames()
    ensures Add(m, k, n)[j] == m[j] + Only(k, n, j)
  {
  }

  lemma AdvancesBy(c: Counters, r: StepResult, j: Key)
    requires j in CounterNames()
    ensures Advanced(c, r)[j] == c[j] + Contribution(r, j)
  {
  }

  lemma SameCounters(a: Counters, b: Counters)
    requires forall j :: j in CounterNames() ==> a[j] == b[j]
    ensures a == b
  {
  }

  lemma SyncContributes(r: StepResult, j: Key)
    requires CompletedSync(r)
    ensures Contribution(r, j) ==
            Only(SYNCHRONIZATION_SUCCEEDED, 1, j) + Only(FIXTURES_RECEIVED, Number(r.metrics, FIXTURES_RECEIVED), j)
            + Only(FIXTURES_RETAINED, Number(r.metrics, FIXTURES_RETAINED), j)
  {
    hide Number;
  }

  lemma SyncAdds(c: Counters, r: StepResult)
    requires CompletedSync(r)
    ensures SYNCHRONIZATION_SUCCEEDED in CounterNames() && FIXTURES_RECEIVED in CounterNames()
            && FIXTURES_RETAINED in CounterNames()
    ensures Advanced(c, r) ==
            Add(Add(Add(c, SYNCHRONIZATION_SUCCEEDED, 1), FIXTURES_RECEIVED, Number(r.metrics, FIXTURES_RECEIVED)),
                FIXTURES_RETAINED, Number(r.metrics, FIXTURES_RETAINED))
  {
    hide CounterNames, Number, Contribution, Add, Advanced, Only;
    CountersAreNamed();
    var c1 := Add(c, SYNCHRONIZATION_SUCCEEDED, 1);
    var c2 := Add(c1, FIXTURES_RECEIVED, Number(r.metrics, FIXTURES_RECEIVED));
    var c3 := Add(c2, FIXTURES_RETAINED, Number(r.metrics, FIXTURES_RETAINED));
    forall j | j in CounterNames()
      ensures Advanced(c, r)[j] == c3[j]
    {
      AdvancesBy(c, r, j);
      SyncContributes(r, j);
      AddsOnly(c, SYNCHRONIZATION_SUCCEEDED, 1, j);
      AddsOnly(c1, FIXTURES_RECEIVED, Number(r.metrics, FIXTURES_RECEIVED), j);
      AddsOnly(c2, FIXTURES_RETAINED, Number(r.metrics, FIXTURES_RETAINED), j);
    }
    SameCounters(Advanced(c, r), c3);
  }

  lemma SnapshotContributes(r: StepResult, j: Key)
    requires r.Completed? && r.name == SnapshotStep
    ensures Contribution(r, j) ==
            Only(MATCHES_EVALUATED, Number(r.metrics, MATCHES_EVALUATED), j)
            + Only(SNAPSHOTS_CREATED, Number(r.metrics, SNAPSHOTS_CREATED), j)
            + Only(OPPORTUNITIES_GENERATED, Number(r.metrics, OPPORTUNITIES_GENERATED), j)
            + Only(NO_BET_COUNT, Number(r.metrics, NO_BET_COUNT), j)
            + Only(INSUFFICIENT_DATA_COUNT, Number(r.metrics, INSUFFICIENT_DATA_COUNT), j)
  {
    hide Number;
  }

  lemma SnapshotAdds(c: Counters, r: StepResult)
    requires r.Completed? && r.name == SnapshotStep
    ensures Advanced(c, r) ==
            Add(Add(Add(Add(Add(c, MATCHES_EVALUATED, Number(r.metrics, MATCHES_EVALUATED)),
                            SNAPSHOTS_CREATED, Number(r.metrics, SNAPSHOTS_CREATED)),
                        OPPORTUNITIES_GENERATED, Number(r.metrics, OPPORTUNITIES_GENERATED)),
                    NO_BET_COUNT, Number(r.metrics, NO_BET_COUNT)),
                INSUFFICIENT_DATA_COUNT, Number(r.metrics, INSUFFICIENT_DATA_COUNT))
  {
    hide CounterNames, Number, Contribution, Add, Advanced, Only;
    CountersAreNamed();
    var m := r.metrics;
    var c1 := Add(c, MATCHES_EVALUATED, Number(m, MATCHES_EVALUATED));
    var c2 := Add(c1, SNAPSHOTS_CREATED, Number(m, SNAPSHOTS_CREATED));
    var c3 := Add(c2, OPPORTUNITIES_GENERATED, Number(m, OPPORTUNITIES_GENERATED));
    var c4 := Add(c3, NO_BET_COUNT, Number(m, NO_BET_COUNT));
    var c5 := Add(c4, INSUFFICIENT_DATA_COUNT, Number(m, INSUFFICIENT_DATA_COUNT));
    forall j | j in CounterNames()
      ensures Advanced(c, r)[j] == c5[j]
    {
      AdvancesBy(c, r, j);
      SnapshotContributes(r, j);
      AddsOnly(c, MATCHES_EVALUATED, Number(m, MATCHES_EVALUATED), j);
      AddsOnly(c1, SNAPSHOTS_CREATED, Number(m, SNAPSHOTS_CREATED), j);
      AddsOnly(c2, OPPORTUNITIES_GENERATED, Number(m, OPPORTUNITIES_GENERATED), j);
      AddsOnly(c3, NO_BET_COUNT, Number(m, NO_BET_COUNT), j);
      AddsOnly(c4, INSUFFICIENT_DATA_COUNT, Number(m, INSUFFICIENT_DATA_COUNT), j);
    }
    SameCounters(Advanced(c, r), c5);
  }

  lemma OtherStepsAdd(c: Counters, r: StepResult)
    requires r.Completed? && !IsSync(r.name) && r.name != SnapshotStep
    ensures Advanced(c, r) ==
            if r.name == ResolveStep then Add(c, RESOLUTIONS_CREATED, Number(r.metrics, INSERTED)) else c
  {
    hide CounterNames, Number;
    CountersAreNamed();
  }

  function AddIf(c: Counters, b: bool, k: Key): Counters
    requires k in CounterNames()
  {
    if b then Add(c, k, 1) else c
  }

  lemma AddsOnlyIf(c: Counters, b: bool, k: Key, j: Key)
    requires k in CounterNames() && j in CounterNames()
    ensures AddIf(c, b, k)[j] == c[j] + Only(k, if b then 1 else 0, j)
  {
  }

  lemma FailureContributes(r: StepResult, j: Key)
    requires r.Failed?
    ensures Contribution(r, j) ==
            Only(SYNCHRONIZATION_FAILED, if IsSync(r.name) then 1 else 0, j)
            + Only(PROVIDER_ERROR_COUNT, if "provider_" <= Spelling(r.errorCode) then 1 else 0, j)
            + Only(POSTGRESQL_ERROR_COUNT, if r.errorCode == PostgresqlErrorCode then 1 else 0, j)
  {
    hide Spelling;
  }

  lemma FailureAdds(c: Counters, r: StepResult)
    requires r.Failed?
    ensures SYNCHRONIZATION_FAILED in CounterNames() && PROVIDER_ERROR_COUNT in CounterNames()
            && POSTGRESQL_ERROR_COUNT in CounterNames()
    ensures Advanced(c, r) ==
            AddIf(AddIf(AddIf(c, IsSync(r.name), SYNCHRONIZATION_FAILED),
                        "provider_" <= Spelling(r.errorCode), PROVIDER_ERROR_COUNT),
                  r.errorCode == PostgresqlErrorCode, POSTGRESQL_ERROR_COUNT)
  {
    hide CounterNames, Spelling, Contribution, Advanced, AddIf, Only, IsSync;
    CountersAreNamed();
    var provider := "provider_" <= Spelling(r.errorCode);
    var database := r.errorCode == PostgresqlErrorCode;
    var c1 := AddIf(c, IsSync(r.name), SYNCHRONIZATION_FAILED);
    var c2 := AddIf(c1, provider, PROVIDER_ERROR_COUNT);
    var c3 := AddIf(c2, database, POSTGRESQL_ERROR_COUNT);
    forall j | j in CounterNames()
      ensures Advanced(c, r)[j] == c3[j]
    {
      AdvancesBy(c, r, j);
      FailureContributes(r, j);
      AddsOnlyIf(c, IsSync(r.name), SYNCHRONIZATION_FAILED, j);
      AddsOnlyIf(c1, provider, PROVIDER_ERROR_COUNT, j);
      AddsOnlyIf(c2, database, POSTGRESQL_ERROR_COUNT, j);
    }
    SameCounters(Advanced(c, r), c3);
  }

  lemma NoFunnelAdded(f: Funnel, r: StepResult)
    ensures !CompletedSync(r) ==> Plus(f, FunnelOf(r)) == f
  {
    AddNothing(f);
  }

  class OperationMetrics {
    var counters: Counters
    var quotaRemainingDaily: Option<nat>
    var quotaRemainingMinute: Option<nat>
    var retentionFunnel: Funnel
    var stepDurationMs: map<Word, nat>

    constructor ()
      ensures AsDict() == NOTHING_YET
    {
      counters := map k | k in CounterNames() :: 0;
      quotaRemainingDaily, quotaRemainingMinute := None, None;
      retentionFunnel, stepDurationMs := NO_FIXTURES, map[];
    }

    function AsDict(): MetricsRecord
      reads this
    {
      MetricsRecord(counters, quotaRemainingDaily, quotaRemainingMinute, retentionFunnel, stepDurationMs)
    }

    /** Adds a funnel field by field. */
    method AddFunnel(funnel: Funnel)
      modifies this`retentionFunnel
      ensures retentionFunnel == Plus(old(retentionFunnel), funnel)
    {
      ghost var before := retentionFunnel;
      PlusUpToEnds(before, funnel);
      for i := 0 to |FUNNEL_FIELDS|
        invariant retentionFunnel == PlusUpTo(before, funnel, i)
      {
        PlusUpToStep(before, funnel, i);
        var k := FUNNEL_FIELDS[i];
        retentionFunnel := retentionFunnel[k := retentionFunnel[k] + funnel[k]];
      }
    }

    /** Adds the funnel of a completed synchronisation, if it carries a valid one. */
    method AddSafeFunnel(value: Value, ghost r: StepResult)
      requires r.Completed? && IsSync(r.name) && value == Get(r.metrics, RETENTION_FUNNEL)
      modifies this`retentionFunnel
      ensures retentionFunnel == Plus(old(retentionFunnel), FunnelOf(r))
    {
      var funnel := SafeRetentionFunnel(value);
      AddNothing(retentionFunnel);
      if funnel.Some? {
        AddFunnel(funnel.value);
      }
    }

    method Bump(k: Key, n: nat)
      requires k in CounterNames()
      modifies this`counters
      ensures counters == Add(old(counters), k, n)
    {
      counters := counters[k := counters[k] + n];
    }

    /** The counters of a completed snapshot. */
    method RecordSnapshot(values: Fields, ghost r: StepResult)
      requires r.Completed? && r.name == SnapshotStep && r.metrics == values
      modifies this`counters
      ensures counters == Advanced(old(counters), r)
    {
      hide CounterNames, Number, Add, Advanced;
      CountersAreNamed();
      SnapshotAdds(counters, r);
      Bump(MATCHES_EVALUATED, Number(values, MATCHES_EVALUATED));
      Bump(SNAPSHOTS_CREATED, Number(values, SNAPSHOTS_CREATED));
      Bump(OPPORTUNITIES_GENERATED, Number(values, OPPORTUNITIES_GENERATED));
      Bump(NO_BET_COUNT, Number(values, NO_BET_COUNT));
      Bump(INSUFFICIENT_DATA_COUNT, Number(values, INSUFFICIENT_DATA_COUNT));
    }

    method RecordSuccess(step: Word, values: Fields, ghost r: StepResult)
      requires r.Completed? && r.name == step && r.metrics == values
      modifies this
      ensures AsDict() == Recorded(old(AsDict()), r)
    {
      hide CounterNames, Contribution, Number, OptionalNumber, FunnelOf, Plus, Add, Advanced, Get, IsSync;
      CountersAreNamed();
      NoFunnelAdded(retentionFunnel, r);
      if IsSync(step) {
        SyncAdds(counters, r);
        Bump(SYNCHRONIZATION_SUCCEEDED, 1);
        Bump(FIXTURES_RECEIVED, Number(values, FIXTURES_RECEIVED));
        Bump(FIXTURES_RETAINED, Number(values, FIXTURES_RETAINED));
        quotaRemainingDaily := OptionalNumber(values, QUOTA_REMAINING_DAILY);
        quotaRemainingMinute := OptionalNumber(values, QUOTA_REMAINING_MINUTE);
        AddSafeFunnel(Get(values, RETENTION_FUNNEL), r);
      } else if step == SnapshotStep {
        RecordSnapshot(values, r);
      } else {
        OtherStepsAdd(counters, r);
        if step == ResolveStep {
          Bump(RESOLUTIONS_CREATED, Number(values, INSERTED));
        }
      }
    }

    method RecordFailure(step: Word, errorCode: Word, ghost r: StepResult)
      requires r.Failed? && r.name == step && r.errorCode == errorCode
      modifies this
      ensures AsDict() == Recorded(old(AsDict()), r)
    {
      hide CounterNames, Contribution, FunnelOf, Plus, Spelling, Add, Advanced;
      CountersAreNamed();
      FailureAdds(counters, r);
      NoFunnelAdded(retentionFunnel, r);
      if IsSync(step) {
        Bump(SYNCHRONIZATION_FAILED, 1);
      }
      if "provider_" <= Spelling(errorCode) {
        Bump(PROVIDER_ERROR_COUNT, 1);
      }
      if errorCode == PostgresqlErrorCode {
        Bump(POSTGRESQL_ERROR_COUNT, 1);
      }
    }

    /** One step more: its duration, then its counters. */
    method Note(r: StepResult, ghost results: seq<StepResult>)
      requires AsDict() == Tally(results)
      modifies this
      ensures AsDict() == Tally(results + [r])
    {
      stepDurationMs := stepDurationMs[r.name := r.durationMs];
      assert AsDict() == Timed(Tally(results), r);
      TallyGrows(results, r);
      if r.Completed? {
        RecordSuccess(r.name, r.metrics, r);
      } else {
        RecordFailure(r.name, r.errorCode, r);
      }
    }
  }

  lemma NothingTallied()
    ensures Tally([]) == NOTHING_YET
  {
  }

  lemma {:induction false} TallyGrows(results: seq<StepResult>, r: StepResult)
    ensures Tally(results + [r]) == Recorded(Timed(Tally(results), r), r)
  {
    var all := results + [r];
    assert all[..|all| - 1] == results;
  }

  // ---------------------------------------------------------------------------------------------
  // The summary of a run
  // ---------------------------------------------------------------------------------------------

  datatype Identity = Identity(correlationId: Word, targetDate: Word, startedAt: Word, completedAt: Word)

  datatype Summary = Summary(
    status: Word, identity: Identity, errorCode: Option<Word>, steps: seq<StepResult>, metrics: MetricsRecord)

  /** The summary a run hands to `save_status`. */
  predicate SavedBy(s: Summary, attempts: seq<Attempt>, id: Identity) {
    && s.identity == id
    && Follows(s.steps, attempts)
    && StatusFits(s.status, s.errorCode, s.steps)
    && s.metrics == Tally(s.steps)
  }

  /** The attempts leave no choice in the results. */
  lemma FollowsIsUnique(a: seq<StepResult>, b: seq<StepResult>, attempts: seq<Attempt>)
    requires Follows(a, attempts) && Follows(b, attempts)
    ensures a == b
  {
    hide ResultOf;
    assert forall i :: 0 <= i < |a| && i < |b| ==> a[i] == b[i];
  }

  /** Nor in the summary. */
  lemma SavedByIsUnique(s: Summary, s': Summary, attempts: seq<Attempt>, id: Identity)
    requires SavedBy(s, attempts, id) && SavedBy(s', attempts, id)
    ensures s == s'
  {
    hide Follows, Tally;
    FollowsIsUnique(s.steps, s'.steps, attempts);
  }
}
