/** The reader of the saved status, which re-validates everything it finds before showing it. */
module SavedStatus {
  import opened Wrappers
  import opened OperationsValues
  import opened DailyOperations
  import opened StatusEncoding
  import opened OperationsRun

  /** `UnhashableValue` is the TypeError Python raises when a list or mapping is looked up in a set. */
  datatype ReadError = StatusInvalid | UnhashableValue

  predicate Hashable(v: Value) { !v.List? && !v.Dict? }

  predicate IsStepName(w: Word) { w in {DailyDiscovery, DailyRefresh, SnapshotStep, ResolveStep, ReportStep} }

  // ---------------------------------------------------------------------------------------------
  // Reading
  // ---------------------------------------------------------------------------------------------

  /** One saved step, and the funnel it adds if it is a completed synchronisation. */
  function SanitizeStep(raw: Value): Result<(Fields, Funnel), ReadError> {
    if !raw.Dict? then Err(StatusInvalid)
    else
      var name := Get(raw.fields, STEP);
      var status := Get(raw.fields, STATUS);
      if !Hashable(name) then Err(UnhashableValue)
      else if !(name.Text? && IsStepName(name.w)) then Err(StatusInvalid)
      else if !Hashable(status) then Err(UnhashableValue)
      else if status != Text(CompletedText) && status != Text(FailedText) then Err(StatusInvalid)
      else
        var base := map[
          STEP := name, STATUS := status,
          CRITICAL := Bool(Get(raw.fields, CRITICAL) == Bool(true)),
          DURATION_MS := Int(Number(raw.fields, DURATION_MS))];
        var code := Get(raw.fields, ERROR_CODE);
        var coded := if code.Text? && IsStepErrorCode(code.w) then base[ERROR_CODE := code] else base;
        var metrics := Get(raw.fields, METRICS);
        var counts := status == Text(CompletedText) && IsSync(name.w);
        if metrics.Dict? then
          match SafeStepMetrics(name.w, metrics.fields)
          case None => Err(StatusInvalid)
          case Some(m) => Ok((coded[METRICS := Dict(m)], if counts then CarriedFunnel(m) else NO_FIXTURES))
        else if counts then Err(StatusInvalid)
        else Ok((coded, NO_FIXTURES))
  }

  function SanitizeSteps(raws: seq<Value>): Result<(seq<Value>, Funnel), ReadError> {
    if raws == [] then Ok(([], NO_FIXTURES))
    else
      match SanitizeSteps(raws[..|raws| - 1])
      case Err(e) => Err(e)
      case Ok((steps, funnel)) =>
        match SanitizeStep(raws[|raws| - 1])
        case Err(e) => Err(e)
        case Ok((step, f)) => Ok((steps + [Dict(step)], Plus(funnel, f)))
  }

  function DecodeDurations(v: Value): map<Word, nat> {
    if v.Dict? then map k | k in v.fields && k.Other? && IsStepName(k.name) :: k.name := SafeInt(v.fields[k])
    else map[]
  }

  function ReadCounters(raw: Fields): Counters { map k | k in CounterNames() :: Number(raw, k) }

  /** The aggregate metrics, which must agree with the funnels found in the steps. */
  function SanitizeMetrics(raw: Fields, stepFunnel: Funnel): Result<MetricsRecord, ReadError> {
    var counters := ReadCounters(raw);
    match SafeRetentionFunnel(Get(raw, RETENTION_FUNNEL))
    case None => Err(StatusInvalid)
    case Some(funnel) =>
      if funnel[FIXTURES_RECEIVED] != counters[FIXTURES_RECEIVED] || funnel[RETAINED] != counters[FIXTURES_RETAINED]
         || funnel != stepFunnel
      then Err(StatusInvalid)
      else Ok(MetricsRecord(
                counters, OptionalNumber(raw, QUOTA_REMAINING_DAILY), OptionalNumber(raw, QUOTA_REMAINING_MINUTE),
                funnel, DecodeDurations(Get(raw, STEP_DURATION_MS))))
  }

  predicate ShortText(v: Value) {
    v.Text? && 1 <= |Spelling(v.w)| <= 64
  }

  predicate IsAlnum(c: char) { 'a' <= c <= 'z' || 'A' <= c <= 'Z' || '0' <= c <= '9' }

  /** Letters and digits once the underscores are gone, and at least one of them. */
  predicate IsPublicCode(s: string) {
    && |s| <= 80
    && (exists i :: 0 <= i < |s| && IsAlnum(s[i]))
    && (forall i :: 0 <= i < |s| ==> s[i] == '_' || IsAlnum(s[i]))
  }

  function SafeErrorCode(v: Value): Value {
    if v.Text? && IsPublicCode(Spelling(v.w)) then v else Null
  }

  predicate HeaderInvalid(value: Fields) {
    || !ShortText(Get(value, CORRELATION_ID)) || !ShortText(Get(value, TARGET_DATE))
    || !ShortText(Get(value, STARTED_AT)) || !ShortText(Get(value, COMPLETED_AT))
    || !Get(value, STEPS).List? || |Get(value, STEPS).items| > 5 || !Get(value, METRICS).Dict?
  }

  function Sanitize(value: Fields): Result<Fields, ReadError> {
    var status := Get(value, STATUS);
    if !Hashable(status) then Err(UnhashableValue)
    else if status !in {Text(CompletedText), Text(DegradedText), Text(FailedText)} then Err(StatusInvalid)
    else if HeaderInvalid(value) then Err(StatusInvalid)
    else
      match SanitizeSteps(Get(value, STEPS).items)
      case Err(e) => Err(e)
      case Ok((steps, funnel)) =>
        match SanitizeMetrics(Get(value, METRICS).fields, funnel)
        case Err(e) => Err(e)
        case Ok(metrics) =>
          Ok(StatusFields(
               status, Get(value, CORRELATION_ID), Get(value, TARGET_DATE), Get(value, STARTED_AT),
               Get(value, COMPLETED_AT), SafeErrorCode(Get(value, ERROR_CODE)), steps, EncodeMetrics(metrics)))
  }

  // ---------------------------------------------------------------------------------------------
  // What was saved is accepted
  // ---------------------------------------------------------------------------------------------

  /** What a reader is shown of a step: all of it, except that a report's metrics are gone. */
  function Shown(r: StepResult): StepResult {
    if r.Completed? && IsReport(r.name) then r.(metrics := NO_SAMPLE) else r
  }

  function ShownSteps(results: seq<StepResult>): seq<StepResult> {
    seq(|results|, i requires 0 <= i < |results| => Shown(results[i]))
  }

  function ShownSummary(s: Summary): Summary { s.(steps := ShownSteps(s.steps)) }

  lemma StepRoundTrip(r: StepResult)
    requires Sound(r)
    ensures if IsStepName(r.name)
            then SanitizeStep(Dict(EncodeStep(r))) == Ok((EncodeStep(Shown(r)), FunnelOf(r)))
            else SanitizeStep(Dict(EncodeStep(r))).Err?
  {
    hide SafeStepMetrics, SafeRetentionFunnel, IsStepErrorCode;
    var f := EncodeStep(r);
    assert Get(f, STEP) == Text(r.name) && Number(f, DURATION_MS) == r.durationMs;
    assert Get(f, CRITICAL) == Bool(r.critical);
    if r.Completed? {
      assert Get(f, METRICS) == Dict(r.metrics) && Get(f, ERROR_CODE) == Null;
    } else {
      assert Get(f, METRICS) == Null && Get(f, ERROR_CODE) == Text(r.errorCode);
    }
  }

  lemma {:induction false} StepsRoundTrip(results: seq<StepResult>)
    requires forall r :: r in results ==> Sound(r)
    ensures if forall r :: r in results ==> IsStepName(r.name)
            then SanitizeSteps(EncodeSteps(results)) == Ok((EncodeSteps(ShownSteps(results)), FunnelSum(results)))
            else SanitizeSteps(EncodeSteps(results)).Err?
  {
    hide Sound, SanitizeStep, EncodeStep, Shown, FunnelOf, Plus;
    if results == [] {
      assert EncodeSteps(ShownSteps(results)) == [];
    } else {
      var (rest, r) := (results[..|results| - 1], results[|results| - 1]);
      assert results == rest + [r];
      StepsRoundTrip(rest);
      StepRoundTrip(r);
      var raws := EncodeSteps(results);
      assert raws[..|raws| - 1] == EncodeSteps(rest);
      assert EncodeSteps(ShownSteps(results)) == EncodeSteps(ShownSteps(rest)) + [Dict(EncodeStep(Shown(r)))];
    }
  }

  lemma DurationsRoundTrip(d: map<Word, nat>)
    requires forall w :: w in d ==> IsStepName(w)
    ensures DecodeDurations(Dict(EncodeDurations(d))) == d
  {
    hide IsStepName;
    var e := EncodeDurations(d);
    var d' := DecodeDurations(Dict(e));
    forall w ensures w in d' <==> w in d {
      if w in d { assert Other(w) in e; }
    }
    forall w | w in d ensures d'[w] == d[w] {
      assert Other(w) in e && e[Other(w)] == Int(d[w]);
    }
  }

  lemma MetricsEntries(m: MetricsRecord)
    ensures var e := EncodeMetrics(m);
            && (forall k :: k in CounterNames() ==> k in e && e[k] == Int(m.counters[k]))
            && Get(e, QUOTA_REMAINING_DAILY) == OptionalInt(m.quotaRemainingDaily)
            && Get(e, QUOTA_REMAINING_MINUTE) == OptionalInt(m.quotaRemainingMinute)
            && Get(e, RETENTION_FUNNEL) == FunnelValue(m.retentionFunnel)
            && Get(e, STEP_DURATION_MS) == Dict(EncodeDurations(m.stepDurationMs))
  {
    hide CounterNames, FunnelValue, EncodeDurations, OptionalInt;
    NotCounters();
  }

  lemma NotCounters()
    ensures QUOTA_REMAINING_DAILY !in CounterNames() && QUOTA_REMAINING_MINUTE !in CounterNames()
    ensures RETENTION_FUNNEL !in CounterNames() && STEP_DURATION_MS !in CounterNames()
  {
  }

  lemma CountersRoundTrip(e: Fields, counters: Counters)
    requires forall k :: k in CounterNames() ==> k in e && e[k] == Int(counters[k])
    ensures ReadCounters(e) == counters
  {
    hide CounterNames;
  }

  lemma MetricsRoundTrip(m: MetricsRecord)
    requires Balanced(m.retentionFunnel)
    requires m.retentionFunnel[FIXTURES_RECEIVED] == m.counters[FIXTURES_RECEIVED]
    requires m.retentionFunnel[RETAINED] == m.counters[FIXTURES_RETAINED]
    requires forall w :: w in m.stepDurationMs ==> IsStepName(w)
    ensures SanitizeMetrics(EncodeMetrics(m), m.retentionFunnel) == Ok(m)
  {
    hide CounterNames, EncodeMetrics, SafeRetentionFunnel, FunnelValue, Balanced, EncodeDurations, DecodeDurations,
         IsStepName, ReadCounters;
    CountersAreNamed();
    MetricsEntries(m);
    FunnelRoundTrip(m.retentionFunnel);
    DurationsRoundTrip(m.stepDurationMs);
    var e := EncodeMetrics(m);
    CountersRoundTrip(e, m.counters);
    assert OptionalNumber(e, QUOTA_REMAINING_DAILY) == m.quotaRemainingDaily;
    assert OptionalNumber(e, QUOTA_REMAINING_MINUTE) == m.quotaRemainingMinute;
  }

  lemma {:induction false} DurationsOfSteps(results: seq<StepResult>)
    requires forall r :: r in results ==> IsStepName(r.name)
    ensures forall w :: w in Durations(results) ==> IsStepName(w)
  {
    hide IsStepName;
    if results != [] { DurationsOfSteps(results[..|results| - 1]); }
  }

  lemma TimeoutCodeIsPublic()
    ensures IsPublicCode(Spelling(StepTimeoutCode))
  {
    assert IsAlnum(Spelling(StepTimeoutCode)[0]);
  }

  lemma ProviderCodeIsPublic()
    ensures IsPublicCode(Spelling(ProviderUnavailableCode))
  {
    assert IsAlnum(Spelling(ProviderUnavailableCode)[0]);
  }

  lemma PostgresqlCodeIsPublic()
    ensures IsPublicCode(Spelling(PostgresqlErrorCode))
  {
    assert IsAlnum(Spelling(PostgresqlErrorCode)[0]);
  }

  lemma FunnelCodeIsPublic()
    ensures IsPublicCode(Spelling(FunnelInvalidCode))
  {
    assert IsAlnum(Spelling(FunnelInvalidCode)[0]);
  }

  lemma InternalCodeIsPublic()
    ensures IsPublicCode(Spelling(InternalErrorCode))
  {
    assert IsAlnum(Spelling(InternalErrorCode)[0]);
  }

  lemma CodesArePublic(code: Word)
    requires IsStepErrorCode(code)
    ensures IsPublicCode(Spelling(code))
  {
    hide IsPublicCode, Spelling;
    TimeoutCodeIsPublic();
    ProviderCodeIsPublic();
    PostgresqlCodeIsPublic();
    FunnelCodeIsPublic();
    InternalCodeIsPublic();
  }

  predicate ShortIdentity(id: Identity) {
    && 1 <= |Spelling(id.correlationId)| <= 64 && 1 <= |Spelling(id.targetDate)| <= 64
    && 1 <= |Spelling(id.startedAt)| <= 64 && 1 <= |Spelling(id.completedAt)| <= 64
  }

  /** Everything a saved summary satisfies, whatever steps it came from. */
  predicate Coherent(s: Summary) {
    && (forall r :: r in s.steps ==> Sound(r))
    && StatusFits(s.status, s.errorCode, s.steps)
    && s.metrics == Tally(s.steps)
    && ShortIdentity(s.identity)
  }

  /** A saved code passes the reader's test. */
  lemma CodeStands(s: Summary)
    requires Coherent(s)
    ensures var code := match s.errorCode case None => Null case Some(c) => Text(c);
            SafeErrorCode(code) == code
  {
    hide IsPublicCode, Tally, Spelling, ShortIdentity;
    if s.errorCode.Some? {
      var last := s.steps[|s.steps| - 1];
      assert last in s.steps && Sound(last);
      CodesArePublic(last.errorCode);
    }
  }

  lemma EncodedHeader(s: Summary)
    ensures var e := Encode(s);
            && Get(e, STATUS) == Text(s.status)
            && Get(e, CORRELATION_ID) == Text(s.identity.correlationId)
            && Get(e, TARGET_DATE) == Text(s.identity.targetDate)
            && Get(e, STARTED_AT) == Text(s.identity.startedAt)
            && Get(e, COMPLETED_AT) == Text(s.identity.completedAt)
            && Get(e, STEPS) == List(EncodeSteps(s.steps)) && Get(e, METRICS) == Dict(EncodeMetrics(s.metrics))
            && Get(e, ERROR_CODE) == (match s.errorCode case None => Null case Some(code) => Text(code))
  {
    hide EncodeSteps, EncodeMetrics;
  }

  lemma HeaderStands(s: Summary)
    requires Coherent(s)
    ensures var e := Encode(s);
            && Get(e, STATUS) == Text(s.status)
            && Get(e, STATUS) in {Text(CompletedText), Text(DegradedText), Text(FailedText)}
            && Get(e, CORRELATION_ID) == Text(s.identity.correlationId)
            && Get(e, TARGET_DATE) == Text(s.identity.targetDate)
            && Get(e, STARTED_AT) == Text(s.identity.startedAt)
            && Get(e, COMPLETED_AT) == Text(s.identity.completedAt)
            && Get(e, STEPS) == List(EncodeSteps(s.steps)) && Get(e, METRICS) == Dict(EncodeMetrics(s.metrics))
            && SafeErrorCode(Get(e, ERROR_CODE)) == Get(e, ERROR_CODE)
            && Get(e, ERROR_CODE) == (match s.errorCode case None => Null case Some(code) => Text(code))
            && (HeaderInvalid(e) <==> |s.steps| > 5)
  {
    hide Encode, EncodeSteps, EncodeMetrics, SafeErrorCode, Tally, Spelling, Get, Sound;
    EncodedHeader(s);
    CodeStands(s);
    EncodedLength(s.steps);
  }

  lemma EncodedLength(results: seq<StepResult>)
    ensures |EncodeSteps(results)| == |results|
  {
  }

  /** Which summaries the reader accepts, and what it makes of them. */
  lemma SummaryRoundTrip(s: Summary)
    requires Coherent(s)
    ensures Sanitize(Encode(s)).Ok? <==> |s.steps| <= 5 && forall r :: r in s.steps ==> IsStepName(r.name)
    ensures Sanitize(Encode(s)).Ok? ==> Sanitize(Encode(s)) == Ok(Encode(ShownSummary(s)))
  {
    hide EncodeSteps, EncodeMetrics, SanitizeSteps, SanitizeMetrics, HeaderInvalid, SafeErrorCode, Tally, Sound,
         StatusFits, IsStepName, Spelling, Balanced, ShownSteps, ShortIdentity, Get, CounterNames;
    CountersAreNamed();
    HeaderStands(s);
    StepsRoundTrip(s.steps);
    if forall r :: r in s.steps ==> IsStepName(r.name) {
      TallyMeans(s.steps);
      TallyConserves(s.steps);
      DurationsOfSteps(s.steps);
      MetricsRoundTrip(s.metrics);
    }
  }

  lemma RunIsCoherent(s: Summary, attempts: seq<Attempt>, id: Identity)
    requires SavedBy(s, attempts, id)
    ensures forall r :: r in s.steps ==> Sound(r)
    ensures forall r :: r in s.steps ==> exists i :: 0 <= i < |attempts| && attempts[i].step.name == r.name
  {
    hide Sound, Tally, StatusFits, PublicStepError, SafeStepMetrics;
    forall r | r in s.steps ensures Sound(r) && exists i :: 0 <= i < |attempts| && attempts[i].step.name == r.name {
      var i :| 0 <= i < |s.steps| && s.steps[i] == r;
      ResultsAreSound(attempts[i]);
      assert attempts[i].step.name == r.name;
    }
  }

  /**
   Whatever the steps return, raise or exceed, the summary a run over the default steps saves is accepted by
   the reader and shown as it was saved, apart from one entry: the metrics of a completed report, which become
   the no-sample pair, and differ exactly when the report returned a performance.
   */
  lemma DefaultRunIsReadable(s: Summary, attempts: seq<Attempt>, id: Identity)
    requires TriesDefaultSteps(attempts) && SavedBy(s, attempts, id) && ShortIdentity(id)
    ensures Sanitize(Encode(s)) == Ok(Encode(ShownSummary(s)))
    ensures forall i :: 0 <= i < |s.steps| ==>
              (ShownSteps(s.steps)[i] != s.steps[i] <==>
                 i == 4 && attempts[i].outcome.Returned? && Get(attempts[i].outcome.result, PERFORMANCE).Dict?)
  {
    hide Sound, Tally, StatusFits, Sanitize, Encode, IsStepName, Spelling, Shown, ResultOf, IsReport, SafeStepMetrics;
    RunIsCoherent(s, attempts, id);
    DefaultNames();
    SummaryRoundTrip(s);
    forall i | 0 <= i < |s.steps|
      ensures ShownSteps(s.steps)[i] != s.steps[i] <==>
              i == 4 && attempts[i].outcome.Returned? && Get(attempts[i].outcome.result, PERFORMANCE).Dict?
    {
      ReportAloneChanges(attempts[i]);
    }
  }

  lemma DefaultNames()
    ensures |DEFAULT_STEPS| == 5
    ensures forall i :: 0 <= i < 5 ==> IsStepName(DEFAULT_STEPS[i].name)
    ensures forall i :: 0 <= i < 5 ==> (IsReport(DEFAULT_STEPS[i].name) <==> i == 4)
  {
  }

  lemma ReportAloneChanges(a: Attempt)
    ensures var r := ResultOf(a);
            Shown(r) != r <==> IsReport(a.step.name) && a.outcome.Returned? && Get(a.outcome.result, PERFORMANCE).Dict?
  {
    if a.outcome.Returned? && IsReport(a.step.name) {
      ResanitisingStands(a.step.name, a.outcome.result);
    }
  }

  // ---------------------------------------------------------------------------------------------
  // The reader, step by step
  // ---------------------------------------------------------------------------------------------

  lemma {:induction false} FirstErrorStands(raws: seq<Value>, n: nat)
    requires n <= |raws| && SanitizeSteps(raws[..n]).Err?
    ensures SanitizeSteps(raws) == Err(SanitizeSteps(raws[..n]).error)
    decreases |raws|
  {
    if n == |raws| {
      assert raws[..n] == raws;
    } else {
      assert raws[..|raws| - 1][..n] == raws[..n];
      FirstErrorStands(raws[..|raws| - 1], n);
    }
  }

  /** The loop that adds one funnel to another, field by field. */
  method AddFields(f: Funnel, g: Funnel) returns (sum: Funnel)
    ensures sum == Plus(f, g)
  {
    PlusUpToEnds(f, g);
    sum := f;
    for i := 0 to |FUNNEL_FIELDS|
      invariant sum == PlusUpTo(f, g, i)
    {
      PlusUpToStep(f, g, i);
      var k := FUNNEL_FIELDS[i];
      sum := sum[k := sum[k] + g[k]];
    }
  }

  const COUNTERS: seq<Key> := [
    SYNCHRONIZATION_SUCCEEDED, SYNCHRONIZATION_FAILED, FIXTURES_RECEIVED, FIXTURES_RETAINED, MATCHES_EVALUATED,
    SNAPSHOTS_CREATED, RESOLUTIONS_CREATED, OPPORTUNITIES_GENERATED, NO_BET_COUNT, INSUFFICIENT_DATA_COUNT,
    PROVIDER_ERROR_COUNT, REDIS_FAIL_CLOSED_COUNT, POSTGRESQL_ERROR_COUNT
  ]

  lemma CountersListed()
    ensures forall k :: k in COUNTERS <==> k in CounterNames()
  {
  }

  /** The loop that reads the counters into fresh metrics, one field at a time. */
  method CollectFields(raw: Fields, names: seq<Key>) returns (counters: Counters)
    requires forall k :: k in names <==> k in CounterNames()
    ensures counters == ReadCounters(raw)
  {
    hide CounterNames;
    counters := map k | k in CounterNames() :: 0;
    for i := 0 to |names|
      invariant forall k :: k in names[..i] ==> k in CounterNames() && counters[k] == Number(raw, k)
    {
      assert names[i] in names;
      counters := counters[names[i] := Number(raw, names[i])];
    }
    assert names[..|names|] == names;
  }

  method CollectCounters(raw: Fields) returns (counters: Counters)
    ensures counters == ReadCounters(raw)
  {
    hide CounterNames, ReadCounters;
    CountersListed();
    counters := CollectFields(raw, COUNTERS);
  }

  /** `_sanitize_saved_status`: the loops over the steps, over the fields of their funnels, and over the counters. */
  method SanitizeSavedStatus(value: Fields) returns (r: Result<Fields, ReadError>)
    ensures r == Sanitize(value)
  {
    hide SanitizeStep, ReadCounters, EncodeMetrics, StatusFields, HeaderInvalid, SafeErrorCode, DecodeDurations,
         SafeRetentionFunnel;
    var status := Get(value, STATUS);
    if !Hashable(status) {
      return Err(UnhashableValue);
    }
    if status !in {Text(CompletedText), Text(DegradedText), Text(FailedText)} {
      return Err(StatusInvalid);
    }
    ListsInHeader(value);
    if HeaderInvalid(value) {
      return Err(StatusInvalid);
    }
    var rawSteps, rawMetrics := Get(value, STEPS).items, Get(value, METRICS).fields;
    var steps: seq<Value> := [];
    var stepFunnel := NO_FIXTURES;
    var i := 0;
    while i < |rawSteps|
      invariant i <= |rawSteps|
      invariant SanitizeSteps(rawSteps[..i]) == Ok((steps, stepFunnel))
    {
      ghost var upTo := rawSteps[..i + 1];
      assert upTo[..|upTo| - 1] == rawSteps[..i];
      var step := SanitizeStep(rawSteps[i]);
      if step.Err? {
        FirstErrorStands(rawSteps, i + 1);
        return Err(step.error);
      }
      steps := steps + [Dict(step.value.0)];
      stepFunnel := AddFields(stepFunnel, step.value.1);
      i := i + 1;
    }
    assert rawSteps[..i] == rawSteps;
    var counters := CollectCounters(rawMetrics);
    var funnel := SafeRetentionFunnel(Get(rawMetrics, RETENTION_FUNNEL));
    CountersAreNamed();
    if funnel.None? || funnel.value[FIXTURES_RECEIVED] != counters[FIXTURES_RECEIVED]
       || funnel.value[RETAINED] != counters[FIXTURES_RETAINED] || funnel.value != stepFunnel {
      return Err(StatusInvalid);
    }
    var metrics := MetricsRecord(
      counters, OptionalNumber(rawMetrics, QUOTA_REMAINING_DAILY), OptionalNumber(rawMetrics, QUOTA_REMAINING_MINUTE),
      funnel.value, DecodeDurations(Get(rawMetrics, STEP_DURATION_MS)));
    r := Ok(StatusFields(
              status, Get(value, CORRELATION_ID), Get(value, TARGET_DATE), Get(value, STARTED_AT),
              Get(value, COMPLETED_AT), SafeErrorCode(Get(value, ERROR_CODE)), steps, EncodeMetrics(metrics)));
  }

  lemma ListsInHeader(value: Fields)
    ensures !HeaderInvalid(value) ==> Get(value, STEPS).List? && Get(value, METRICS).Dict?
  {
  }

  // ---------------------------------------------------------------------------------------------
  // From a run to its reader
  // ---------------------------------------------------------------------------------------------

  const MAX_STATUS_LENGTH: nat := 50_000

  /** `None` is an unreachable Redis. */
  type StatusError = Option<ReadError>

  /** What `read_status` makes of the stored fields; `length` is that of the text they are stored as. */
  function ReadResult(stored: Option<Fields>, up: bool, length: Fields -> nat): Result<Option<Fields>, StatusError> {
    if !up then Err(None)
    else
      match stored
      case None => Ok(None)
      case Some(fields) =>
        if length(fields) > MAX_STATUS_LENGTH then Err(Some(StatusInvalid))
        else
          match Sanitize(fields)
          case Err(e) => Err(Some(e))
          case Ok(shown) => Ok(Some(shown))
  }

  /**
   From a run over the default steps to a reader that comes next: once the run has saved, the reader is shown the saved
   summary, its report metrics apart, if and only if Redis answers and the text has at most 50000 characters; a longer
   text is refused.
   */
  lemma SavedRunIsReadBack(before: GuardState, after: GuardState, r: Result<Summary, Thrown>, end: LoopEnd,
                           attempts: seq<Attempt>, x: Setting, up: bool, length: Fields -> nat)
    requires Meets(before, after, r, end, attempts, x) && TriesDefaultSteps(attempts) && ShortIdentity(x.identity)
    requires Enters(before, x) && Saves(end, x.link.save)
    ensures var saved := Encode(end.summary);
            && after.status == Some(saved) && SavedBy(end.summary, attempts, x.identity)
            && (ReadResult(after.status, up, length) == Ok(Some(Encode(ShownSummary(end.summary)))) <==>
                  up && length(saved) <= 50_000)
            && (up && length(saved) > 50_000 ==>
                  ReadResult(after.status, up, length) == Err(Some(StatusInvalid)))
  {
    hide Sanitize, Encode, SavedBy, AllQuiet, Saves, ShownSummary, Leaves, TriesDefaultSteps, ShortIdentity;
    assert end.Finished? by { SavesMeansFinished(end, x.link.save); }
    DefaultRunIsReadable(end.summary, attempts, x.identity);
  }

  lemma SavesMeansFinished(end: LoopEnd, reply: SaveReply)
    requires Saves(end, reply)
    ensures end.Finished?
  {
  }

  /** A text is at least as long as each text kept in the metrics of a step. */
  ghost predicate CountsKeptTexts(length: Fields -> nat) {
    forall s: Summary, i, k ::
      0 <= i < |s.steps| && s.steps[i].Completed? && k in s.steps[i].metrics && s.steps[i].metrics[k].Text? ==>
        length(Encode(s)) >= |Spelling(s.steps[i].metrics[k].w)|
  }

  /** Such a discovery is kept whole, however long its status. */
  function Verbose(status: Word): Fields {
    map[STATUS := Text(status), FIXTURES_RECEIVED := Int(0), FIXTURES_RETAINED := Int(0),
        RETENTION_FUNNEL := FunnelValue(NO_FIXTURES)]
  }

  lemma VerboseIsCoherent(status: Word)
    ensures SyncCoherent(Verbose(status))
  {
    hide SafeRetentionFunnel, FunnelValue, Balanced;
    NoFixturesAgree();
    FunnelRoundTrip(NO_FIXTURES);
  }

  lemma VerboseIsKept(status: Word)
    ensures SafeStepMetrics(DailyDiscovery, Verbose(status)) == Some(Verbose(status))
    ensures Encodable(Dict(Verbose(status)))
  {
    hide SafeRetentionFunnel, FunnelValue, Balanced, SyncCoherent;
    FunnelIsEncodable(NO_FIXTURES);
    VerboseIsCoherent(status);
    var v := Verbose(status);
    SyncMetricsKeepEntries(v);
    assert SyncMetrics(v) == v by { VerboseIsFixed(status); }
  }

  lemma VerboseIsFixed(status: Word)
    requires SyncCoherent(Verbose(status))
    ensures SyncMetrics(Verbose(status)) == Verbose(status)
  {
    hide SafeRetentionFunnel, FunnelValue, Balanced, SyncCoherent, SyncMetrics;
    var v := Verbose(status);
    SyncMetricsKeepEntries(v);
    assert SyncMetrics(v).Keys == v.Keys;
  }

  /** A run over the default steps whose discovery reports the status `long` and whose other steps all fail. */
  function VerboseAttempts(long: Word): (attempts: seq<Attempt>)
    ensures |attempts| == 5
  {
    seq(5, i requires 0 <= i < 5 =>
      Attempt(DEFAULT_STEPS[i], if i == 0 then Returned(Verbose(long)) else Raised(AnyOther), 0, Quiet))
  }

  lemma VerboseResults(long: Word)
    ensures var attempts := VerboseAttempts(long);
            && ResultOf(attempts[0]) == Completed(DailyDiscovery, true, 0, Verbose(long))
            && ResultOf(attempts[1]).Failed? && !ResultOf(attempts[1]).critical && Stops(ResultOf(attempts[2]))
  {
    hide Verbose, SafeStepMetrics;
    VerboseIsKept(long);
  }

  lemma VerboseTriesDefaultSteps(long: Word)
    ensures TriesDefaultSteps(VerboseAttempts(long))
  {
    hide Verbose;
  }

  /** A run that ends with its third step. */
  lemma ThreeStepsFollow(attempts: seq<Attempt>, a: StepResult, b: StepResult, c: StepResult)
    requires |attempts| == 5 && a == ResultOf(attempts[0]) && b == ResultOf(attempts[1]) && c == ResultOf(attempts[2])
    requires a.Completed? && !Stops(b) && Stops(c)
    ensures Follows([a, b, c], attempts) && StatusFits(FailedText, Some(c.errorCode), [a, b, c])
  {
    hide ResultOf;
    assert [a, b, c][2].Failed?;
  }

  function VerboseSummary(long: Word, id: Identity): Summary {
    var attempts := VerboseAttempts(long);
    var (a, b, c) := (ResultOf(attempts[0]), ResultOf(attempts[1]), ResultOf(attempts[2]));
    Summary(FailedText, id, if c.Failed? then Some(c.errorCode) else None, [a, b, c], Tally([a, b, c]))
  }

  lemma VerboseRunSaves(long: Word, id: Identity)
    ensures SavedBy(VerboseSummary(long, id), VerboseAttempts(long), id)
  {
    hide Verbose, VerboseAttempts, ResultOf, Tally, Follows, StatusFits;
    VerboseResults(long);
    var attempts := VerboseAttempts(long);
    ThreeStepsFollow(attempts, ResultOf(attempts[0]), ResultOf(attempts[1]), ResultOf(attempts[2]));
  }

  lemma ThreeStepsEncodable(s: Summary, a: StepResult, b: StepResult, c: StepResult)
    requires s.steps == [a, b, c] && a.Completed? && Encodable(Dict(a.metrics)) && b.Failed? && c.Failed?
    ensures Encodable(Dict(Encode(s)))
  {
    hide Encode, Encodable;
    EncodableExactly(s);
  }

  lemma VerboseRunIsEncodable(long: Word, id: Identity)
    ensures var s := VerboseSummary(long, id);
            && Encodable(Dict(Encode(s)))
            && |s.steps| > 0 && s.steps[0].Completed? && s.steps[0].metrics == Verbose(long)
  {
    hide Encode, Encodable, Verbose, VerboseAttempts, ResultOf, Tally, SafeStepMetrics;
    VerboseIsKept(long);
    VerboseResults(long);
    var attempts := VerboseAttempts(long);
    var (a, b, c) := (ResultOf(attempts[0]), ResultOf(attempts[1]), ResultOf(attempts[2]));
    var s := VerboseSummary(long, id);
    assert s.steps == [a, b, c];
    ThreeStepsEncodable(s, a, b, c);
  }

  /**
   The condition is needed: nothing bounds what a step's metrics keep, so some run over steps like the default ones,
   whatever their runners, saves a status that its reader refuses.
   */
  lemma SomeSavedRunIsRefused(id: Identity, length: Fields -> nat)
    requires CountsKeptTexts(length)
    ensures exists s, attempts ::
              && TriesDefaultSteps(attempts) && SavedBy(s, attempts, id) && Encodable(Dict(Encode(s)))
              && ReadResult(Some(Encode(s)), true, length) == Err(Some(StatusInvalid))
  {
    hide Encode, Encodable, Sanitize, Verbose, SavedBy, TriesDefaultSteps, VerboseAttempts, VerboseSummary;
    var long := Plain(LongText());
    var s := VerboseSummary(long, id);
    VerboseTriesDefaultSteps(long);
    VerboseRunSaves(long, id);
    VerboseRunIsEncodable(long, id);
    VerboseKeepsStatus(long);
    assert length(Encode(s)) >= |Spelling(s.steps[0].metrics[STATUS].w)|;
  }

  function LongText(): (s: OtherText)
    ensures |s| == MAX_STATUS_LENGTH + 1
  {
    seq(MAX_STATUS_LENGTH + 1, _ => 'x')
  }

  lemma VerboseKeepsStatus(status: Word)
    ensures STATUS in Verbose(status) && Verbose(status)[STATUS] == Text(status)
  {
  }

  /** A run that saves nothing leaves the reader what it would have been shown before. */
  lemma UnsavedRunShowsNothingNew(before: GuardState, after: GuardState, r: Result<Summary, Thrown>, end: LoopEnd,
                                  attempts: seq<Attempt>, x: Setting, up: bool, length: Fields -> nat)
    requires Meets(before, after, r, end, attempts, x) && !(Enters(before, x) && Saves(end, x.link.save))
    ensures ReadResult(after.status, up, length) == ReadResult(before.status, up, length)
  {
    hide Ran, Leaves, Saves, Encode, Sanitize;
  }

  /** `read_status` on whatever is stored, with what it shows after a default run made explicit. */
  method ReadStatus(guard: DailyOperationsGuard, up: bool, length: Fields -> nat)
    returns (r: Result<Option<Fields>, StatusError>)
    ensures r == ReadResult(guard.status, up, length)
    ensures forall s, attempts, id ::
              && guard.status == Some(Encode(s)) && ShortIdentity(id)
              && TriesDefaultSteps(attempts) && SavedBy(s, attempts, id) ==>
                (r == Ok(Some(Encode(ShownSummary(s)))) <==> up && length(Encode(s)) <= 50_000)
  {
    hide Sanitize, Encode, TriesDefaultSteps, SavedBy, ShortIdentity, ShownSummary;
    forall s, attempts, id | TriesDefaultSteps(attempts) && SavedBy(s, attempts, id) && ShortIdentity(id)
      ensures Sanitize(Encode(s)) == Ok(Encode(ShownSummary(s)))
    {
      DefaultRunIsReadable(s, attempts, id);
    }
    if !up { return Err(None); }
    if guard.status.None? { return Ok(None); }
    if length(guard.status.value) > MAX_STATUS_LENGTH { return Err(Some(StatusInvalid)); }
    var shown := SanitizeSavedStatus(guard.status.value);
    match shown {
      case Err(e) => r := Err(Some(e));
      case Ok(fields) => r := Ok(Some(fields));
    }
  }
}
