/** What a reader of the saved status can rely on, whatever was stored: every law is about what `Sanitize` shows. */
module StatusReading {
  import opened Wrappers
  import opened OperationsValues
  import opened DailyOperations
  import opened StatusEncoding
  import opened SavedStatus

  /** The funnel a shown step carries, if it is a completed synchronisation. */
  function ShownFunnel(step: Value): Funnel {
    if step.Dict? && Get(step.fields, STATUS) == Text(CompletedText)
       && Get(step.fields, STEP) in {Text(DailyDiscovery), Text(DailyRefresh)} && Get(step.fields, METRICS).Dict?
    then CarriedFunnel(Get(step.fields, METRICS).fields)
    else NO_FIXTURES
  }

  /** What the shown steps count in one field of their funnels. */
  function ShownCount(steps: seq<Value>, k: Key): nat
    requires k in FIELD_SET
  {
    if steps == [] then 0 else ShownCount(steps[..|steps| - 1], k) + ShownFunnel(steps[|steps| - 1])[k]
  }

  /** A shown step: a known name, one of two statuses, a public code or none, and a funnel if it synchronised. */
  predicate ShownStep(step: Value) {
    && step.Dict?
    && Get(step.fields, STEP).Text? && IsStepName(Get(step.fields, STEP).w)
    && Get(step.fields, STATUS) in {Text(CompletedText), Text(FailedText)}
    && Get(step.fields, CRITICAL).Bool? && Get(step.fields, DURATION_MS).Int? && Get(step.fields, DURATION_MS).i >= 0
    && (ERROR_CODE in step.fields ==> step.fields[ERROR_CODE].Text? && IsStepErrorCode(step.fields[ERROR_CODE].w))
    && (METRICS in step.fields ==> step.fields[METRICS].Dict?)
    && (Get(step.fields, STATUS) == Text(CompletedText) && IsSync(Get(step.fields, STEP).w) ==>
          METRICS in step.fields && SyncCoherent(step.fields[METRICS].fields))
  }

  lemma StepsAreChecked(raw: Value)
    requires SanitizeStep(raw).Ok?
    ensures var (step, funnel) := SanitizeStep(raw).value;
            ShownStep(Dict(step)) && ShownFunnel(Dict(step)) == funnel
  {
    hide SanitizeStep, IsStepErrorCode, CarriedFunnel, SafeStepMetrics, SyncCoherent, Number;
    StepEntries(raw);
    StepAccepted(raw);
    if Get(raw.fields, METRICS).Dict? { SyncKeptIsCoherent(Get(raw.fields, STEP).w, Get(raw.fields, METRICS).fields); }
  }

  lemma SyncKeptIsCoherent(name: Word, result: Fields)
    requires SafeStepMetrics(name, result).Some?
    ensures IsSync(name) ==> SyncCoherent(SafeStepMetrics(name, result).value)
  {
    hide SyncCoherent, SyncMetrics;
    if IsSync(name) { SyncMetricsCoherent(result); }
  }

  lemma {:induction false} StepsAddUp(raws: seq<Value>)
    requires SanitizeSteps(raws).Ok?
    ensures var (steps, funnel) := SanitizeSteps(raws).value;
            && |steps| == |raws|
            && (forall i :: 0 <= i < |steps| ==> ShownStep(steps[i]))
            && (forall k :: k in FIELD_SET ==> funnel[k] == ShownCount(steps, k))
  {
    hide ShownStep, ShownFunnel, SanitizeStep;
    if raws != [] {
      StepsAddUp(raws[..|raws| - 1]);
      StepsAreChecked(raws[|raws| - 1]);
      var (steps, funnel) := SanitizeSteps(raws).value;
      assert steps[..|steps| - 1] == SanitizeSteps(raws[..|raws| - 1]).value.0;
    }
  }

  /** The flags that say that no bet is ever placed. */
  const FLAGS: set<Key> := {BOOKMAKER_CALLS, ODDS_USED, BETTING_ACTIONS, AUTOMATIC_EXECUTION}

  /** The entries a shown status always has, in the form its readers expect. */
  ghost predicate WellFormed(shown: Fields) {
    && Get(shown, STATUS) in {Text(CompletedText), Text(DegradedText), Text(FailedText)}
    && (forall k :: k in {CORRELATION_ID, TARGET_DATE, STARTED_AT, COMPLETED_AT} ==>
          Get(shown, k).Text? && 1 <= |Spelling(Get(shown, k).w)| <= 64)
    && (forall k :: k in FLAGS ==> Get(shown, k) == Bool(false))
    && Get(shown, STEPS).List? && |Get(shown, STEPS).items| <= 5
    && (forall step :: step in Get(shown, STEPS).items ==> ShownStep(step))
    && (Get(shown, ERROR_CODE) != Null ==>
          && Get(shown, ERROR_CODE).Text?
          && var code := Spelling(Get(shown, ERROR_CODE).w);
          1 <= |code| <= 80 && forall c :: c in code ==> c == '_' || IsAlnum(c))
  }

  /**
   The aggregate funnel balances, each of its fields is the sum over the shown synchronisations, and the two fixture
   counters are those of the funnel.
   */
  ghost predicate AddsUp(shown: Fields) {
    && Get(shown, METRICS).Dict? && Get(shown, STEPS).List?
    && var metrics := Get(shown, METRICS).fields;
    && exists f: Funnel ::
      && Balanced(f) && Get(metrics, RETENTION_FUNNEL) == FunnelValue(f)
      && Get(metrics, FIXTURES_RECEIVED) == Int(f[FIXTURES_RECEIVED])
      && Get(metrics, FIXTURES_RETAINED) == Int(f[RETAINED])
      && forall k :: k in FIELD_SET ==> f[k] == ShownCount(Get(shown, STEPS).items, k)
  }

  /** Whatever was stored, a status that is shown keeps to its form, says that no bet was placed, and adds up. */
  lemma ShownIsConsistent(value: Fields)
    requires Sanitize(value).Ok?
    ensures WellFormed(Sanitize(value).value) && AddsUp(Sanitize(value).value)
  {
    hide Sanitize, SanitizeSteps, SanitizeMetrics, EncodeMetrics, SafeErrorCode, Balanced, CounterNames, Get,
         WellFormed, AddsUp, StatusFields, HeaderInvalid, ShownStep, ShownCount;
    ShownParts(value);
    StepsAddUp(Get(value, STEPS).items);
    var (steps, funnel) := SanitizeSteps(Get(value, STEPS).items).value;
    var metrics := SanitizeMetrics(Get(value, METRICS).fields, funnel).value;
    MetricsAreChecked(Get(value, METRICS).fields, funnel);
    var shown := Sanitize(value).value;
    ShownEntries(Get(value, STATUS), Get(value, CORRELATION_ID), Get(value, TARGET_DATE), Get(value, STARTED_AT),
                 Get(value, COMPLETED_AT), SafeErrorCode(Get(value, ERROR_CODE)), steps, EncodeMetrics(metrics));
    HeaderIsWellFormed(value, shown);
    MetricsAddUp(metrics, shown);
  }

  lemma HeaderIsWellFormed(value: Fields, shown: Fields)
    requires !HeaderInvalid(value)
    requires Get(value, STATUS) in {Text(CompletedText), Text(DegradedText), Text(FailedText)}
    requires forall k :: k in {STATUS, CORRELATION_ID, TARGET_DATE, STARTED_AT, COMPLETED_AT} ==>
               Get(shown, k) == Get(value, k)
    requires forall k :: k in FLAGS ==> Get(shown, k) == Bool(false)
    requires Get(value, STEPS).List? && Get(shown, STEPS).List?
    requires |Get(shown, STEPS).items| == |Get(value, STEPS).items|
    requires forall i :: 0 <= i < |Get(shown, STEPS).items| ==> ShownStep(Get(shown, STEPS).items[i])
    requires Get(shown, ERROR_CODE) == SafeErrorCode(Get(value, ERROR_CODE))
    ensures WellFormed(shown)
  {
    hide Get, Spelling, ShownStep, IsAlnum;
  }

  lemma MetricsAddUp(m: MetricsRecord, shown: Fields)
    requires Get(shown, METRICS) == Dict(EncodeMetrics(m)) && Get(shown, STEPS).List?
    requires Balanced(m.retentionFunnel)
    requires FIXTURES_RECEIVED in CounterNames() && FIXTURES_RETAINED in CounterNames()
    requires m.counters[FIXTURES_RECEIVED] == m.retentionFunnel[FIXTURES_RECEIVED]
    requires m.counters[FIXTURES_RETAINED] == m.retentionFunnel[RETAINED]
    requires forall k :: k in FIELD_SET ==> m.retentionFunnel[k] == ShownCount(Get(shown, STEPS).items, k)
    ensures AddsUp(shown)
  {
    hide Get, Balanced, FunnelValue, CounterNames, EncodeMetrics, ShownCount;
    ShownMetrics(m);
  }

  lemma ShownMetrics(m: MetricsRecord)
    ensures var e := EncodeMetrics(m);
            && FIXTURES_RECEIVED in CounterNames() && FIXTURES_RETAINED in CounterNames()
            && Get(e, RETENTION_FUNNEL) == FunnelValue(m.retentionFunnel)
            && Get(e, FIXTURES_RECEIVED) == Int(m.counters[FIXTURES_RECEIVED])
            && Get(e, FIXTURES_RETAINED) == Int(m.counters[FIXTURES_RETAINED])
  {
    hide EncodeMetrics, CounterNames, FunnelValue, EncodeDurations, OptionalInt;
    CountersAreNamed();
    MetricsEntries(m);
  }

  /** A shown status, entry by entry. */
  lemma ShownParts(value: Fields)
    requires Sanitize(value).Ok?
    ensures !HeaderInvalid(value) && Get(value, STEPS).List? && Get(value, METRICS).Dict?
    ensures var steps := SanitizeSteps(Get(value, STEPS).items);
            && steps.Ok? && SanitizeMetrics(Get(value, METRICS).fields, steps.value.1).Ok?
            && Sanitize(value).value ==
               StatusFields(
                 Get(value, STATUS), Get(value, CORRELATION_ID), Get(value, TARGET_DATE), Get(value, STARTED_AT),
                 Get(value, COMPLETED_AT), SafeErrorCode(Get(value, ERROR_CODE)), steps.value.0,
                 EncodeMetrics(SanitizeMetrics(Get(value, METRICS).fields, steps.value.1).value))
    ensures Get(value, STATUS) in {Text(CompletedText), Text(DegradedText), Text(FailedText)}
  {
    hide SanitizeSteps, SanitizeMetrics, EncodeMetrics, SafeErrorCode, StatusFields, HeaderInvalid, Get;
    ListsInHeader(value);
  }

  lemma ShownEntries(status: Value, correlationId: Value, targetDate: Value, startedAt: Value, completedAt: Value,
                     errorCode: Value, steps: seq<Value>, metrics: Fields)
    ensures var shown := StatusFields(status, correlationId, targetDate, startedAt, completedAt, errorCode, steps,
                                      metrics);
            && (forall k :: k in FLAGS ==> Get(shown, k) == Bool(false))
            && Get(shown, STATUS) == status && Get(shown, ERROR_CODE) == errorCode
            && Get(shown, CORRELATION_ID) == correlationId && Get(shown, TARGET_DATE) == targetDate
            && Get(shown, STARTED_AT) == startedAt && Get(shown, COMPLETED_AT) == completedAt
            && Get(shown, STEPS) == List(steps) && Get(shown, METRICS) == Dict(metrics)
  {
  }

  lemma MetricsAreChecked(raw: Fields, stepFunnel: Funnel)
    requires SanitizeMetrics(raw, stepFunnel).Ok?
    ensures var m := SanitizeMetrics(raw, stepFunnel).value;
            && m.retentionFunnel == stepFunnel && Balanced(stepFunnel)
            && FIXTURES_RECEIVED in CounterNames() && FIXTURES_RETAINED in CounterNames()
            && m.counters[FIXTURES_RECEIVED] == stepFunnel[FIXTURES_RECEIVED]
            && m.counters[FIXTURES_RETAINED] == stepFunnel[RETAINED]
            && forall w :: w in m.stepDurationMs ==> IsStepName(w)
  {
    hide CounterNames, Balanced, ReadCounters, SafeRetentionFunnel;
    CountersAreNamed();
    OnlyFunnelsAccepted(Get(raw, RETENTION_FUNNEL));
  }

  // ---------------------------------------------------------------------------------------------
  // Reading what was read
  // ---------------------------------------------------------------------------------------------

  /** A shown step without the metrics of a report, which one more reading loses. */
  function Reread(step: Value): Value {
    if step.Dict? && Get(step.fields, STEP) == Text(ReportStep) && METRICS in step.fields
    then Dict(step.fields[METRICS := Dict(NO_SAMPLE)])
    else step
  }

  function RereadAll(steps: seq<Value>): seq<Value> {
    seq(|steps|, i requires 0 <= i < |steps| => Reread(steps[i]))
  }

  /** What the reader makes of one step, entry by entry. */
  lemma StepEntries(raw: Value)
    requires SanitizeStep(raw).Ok?
    ensures raw.Dict?
    ensures var (step, name, code) := (SanitizeStep(raw).value.0, Get(raw.fields, STEP), Get(raw.fields, ERROR_CODE));
            && step.Keys == {STEP, STATUS, CRITICAL, DURATION_MS}
                            + (if code.Text? && IsStepErrorCode(code.w) then {ERROR_CODE} else {})
                            + (if Get(raw.fields, METRICS).Dict? then {METRICS} else {})
            && step[STEP] == name && name.Text? && IsStepName(name.w)
            && step[STATUS] == Get(raw.fields, STATUS) && step[STATUS] in {Text(CompletedText), Text(FailedText)}
            && step[CRITICAL] == Bool(Get(raw.fields, CRITICAL) == Bool(true))
            && step[DURATION_MS] == Int(Number(raw.fields, DURATION_MS))
            && (ERROR_CODE in step ==> step[ERROR_CODE] == code)
  {
    hide IsStepName, IsStepErrorCode, CarriedFunnel, SafeStepMetrics, Number;
  }

  /** When a step is accepted, and what it then carries. */
  lemma StepAccepted(raw: Value)
    requires raw.Dict? && Get(raw.fields, STEP).Text? && IsStepName(Get(raw.fields, STEP).w)
    requires Get(raw.fields, STATUS) in {Text(CompletedText), Text(FailedText)}
    ensures var (name, metrics) := (Get(raw.fields, STEP).w, Get(raw.fields, METRICS));
            var counts := Get(raw.fields, STATUS) == Text(CompletedText) && IsSync(name);
            var kept := if metrics.Dict? then SafeStepMetrics(name, metrics.fields) else None;
            && (SanitizeStep(raw).Ok? <==> if metrics.Dict? then kept.Some? else !counts)
            && (SanitizeStep(raw).Ok? ==>
                  var (step, funnel) := SanitizeStep(raw).value;
                  && (kept.Some? ==> METRICS in step && step[METRICS] == Dict(kept.value))
                  && funnel == if counts && kept.Some? then CarriedFunnel(kept.value) else NO_FIXTURES)
  {
    hide IsStepName, IsStepErrorCode, CarriedFunnel, SafeStepMetrics, Number;
  }

  lemma StepReadAgain(raw: Value)
    requires SanitizeStep(raw).Ok?
    ensures var (step, funnel) := SanitizeStep(raw).value;
            && Reread(Dict(step)).Dict?
            && SanitizeStep(Dict(step)) == Ok((Reread(Dict(step)).fields, funnel))
  {
    hide SanitizeStep, IsStepName, IsStepErrorCode, CarriedFunnel, SafeStepMetrics, Reread;
    StepEntries(raw);
    StepAccepted(raw);
    var (step, funnel) := SanitizeStep(raw).value;
    var (name, metrics) := (Get(raw.fields, STEP).w, Get(raw.fields, METRICS));
    if metrics.Dict? { KeptAgain(name, metrics.fields); }
    StepAcceptedAgain(step, funnel);
    StepEntries(Dict(step));
    SameEntries(step, SanitizeStep(Dict(step)).value.0);
  }

  /** Metrics that stand are accepted again, and carry the same funnel. */
  lemma StepAcceptedAgain(step: Fields, funnel: Funnel)
    requires Get(step, STEP).Text? && IsStepName(Get(step, STEP).w)
    requires Get(step, STATUS) in {Text(CompletedText), Text(FailedText)}
    requires METRICS in step ==>
               && step[METRICS].Dict?
               && SafeStepMetrics(Get(step, STEP).w, step[METRICS].fields) ==
                  Some(if step[STEP] == Text(ReportStep) then NO_SAMPLE else step[METRICS].fields)
    requires var counts := Get(step, STATUS) == Text(CompletedText) && IsSync(Get(step, STEP).w);
             && (counts ==> METRICS in step)
             && funnel == if counts then CarriedFunnel(step[METRICS].fields) else NO_FIXTURES
    ensures SanitizeStep(Dict(step)).Ok? && SanitizeStep(Dict(step)).value.1 == funnel
    ensures METRICS in step ==>
              && METRICS in SanitizeStep(Dict(step)).value.0
              && SanitizeStep(Dict(step)).value.0[METRICS] ==
                 if step[STEP] == Text(ReportStep) then Dict(NO_SAMPLE) else step[METRICS]
  {
    hide SanitizeStep, IsStepName, CarriedFunnel, SafeStepMetrics;
    StepAccepted(Dict(step));
  }

  lemma SameEntries(step: Fields, again: Fields)
    requires {STEP, STATUS, CRITICAL, DURATION_MS} <= step.Keys
             <= {STEP, STATUS, CRITICAL, DURATION_MS, ERROR_CODE, METRICS}
    requires again.Keys == step.Keys
    requires forall k :: k in step && k != METRICS ==> again[k] == step[k]
    requires METRICS in step ==>
               again[METRICS] == if step[STEP] == Text(ReportStep) then Dict(NO_SAMPLE) else step[METRICS]
    ensures Reread(Dict(step)) == Dict(again)
  {
    assert Reread(Dict(step)).fields == again;
  }

  lemma KeptAgain(name: Word, result: Fields)
    requires SafeStepMetrics(name, result).Some? && IsStepName(name)
    ensures var m := SafeStepMetrics(name, result).value;
            SafeStepMetrics(name, m) == Some(if name == ReportStep then NO_SAMPLE else m)
  {
    hide SafeStepMetrics;
    ResanitisingStands(name, result);
  }

  lemma {:induction false} StepsReadAgain(raws: seq<Value>)
    requires SanitizeSteps(raws).Ok?
    ensures var (steps, funnel) := SanitizeSteps(raws).value;
            SanitizeSteps(steps) == Ok((RereadAll(steps), funnel))
  {
    hide SanitizeStep, Reread, Plus;
    if raws != [] {
      var (rest, raw) := (raws[..|raws| - 1], raws[|raws| - 1]);
      StepsReadAgain(rest);
      StepReadAgain(raw);
      var (steps, shown) := (SanitizeSteps(raws).value.0, SanitizeSteps(rest).value.0);
      var last := Dict(SanitizeStep(raw).value.0);
      assert steps == shown + [last] && steps[..|steps| - 1] == shown;
      assert RereadAll(steps) == RereadAll(shown) + [Reread(last)];
    } else {
      assert RereadAll([]) == [];
    }
  }

  lemma MetricsReadAgain(raw: Fields, funnel: Funnel)
    requires SanitizeMetrics(raw, funnel).Ok?
    ensures SanitizeMetrics(EncodeMetrics(SanitizeMetrics(raw, funnel).value), funnel) == SanitizeMetrics(raw, funnel)
  {
    hide SanitizeMetrics, EncodeMetrics, Balanced, CounterNames, IsStepName;
    MetricsAreChecked(raw, funnel);
    MetricsRoundTrip(SanitizeMetrics(raw, funnel).value);
  }

  lemma HeaderReadAgain(value: Fields, shown: Fields)
    requires !HeaderInvalid(value)
    requires forall k :: k in {CORRELATION_ID, TARGET_DATE, STARTED_AT, COMPLETED_AT} ==> Get(shown, k) == Get(value, k)
    requires Get(value, STEPS).List? && Get(shown, STEPS).List? && Get(shown, METRICS).Dict?
    requires |Get(shown, STEPS).items| == |Get(value, STEPS).items|
    ensures !HeaderInvalid(shown)
  {
    hide Get, ShortText;
  }

  lemma CodeReadAgain(v: Value)
    ensures SafeErrorCode(SafeErrorCode(v)) == SafeErrorCode(v)
  {
    hide IsPublicCode, Spelling;
  }

  /**
   Reading is stable: what a reader is shown would be accepted if it were stored, and shown again as it is, apart from
   the metrics of a report.
   */
  lemma ReadingAgain(value: Fields)
    requires Sanitize(value).Ok?
    ensures var shown := Sanitize(value).value;
            && Get(shown, STEPS).List?
            && Sanitize(shown) == Ok(shown[STEPS := List(RereadAll(Get(shown, STEPS).items))])
  {
    hide Sanitize, SanitizeSteps, SanitizeMetrics, EncodeMetrics, SafeErrorCode, Get, StatusFields, HeaderInvalid,
         Reread, RereadAll;
    ShownParts(value);
    var (steps, funnel) := SanitizeSteps(Get(value, STEPS).items).value;
    var raw := Get(value, METRICS).fields;
    var metrics := EncodeMetrics(SanitizeMetrics(raw, funnel).value);
    var shown := Sanitize(value).value;
    ShownEntries(Get(value, STATUS), Get(value, CORRELATION_ID), Get(value, TARGET_DATE), Get(value, STARTED_AT),
                 Get(value, COMPLETED_AT), SafeErrorCode(Get(value, ERROR_CODE)), steps, metrics);
    StepsReadAgain(Get(value, STEPS).items);
    StepsAddUp(Get(value, STEPS).items);
    MetricsReadAgain(raw, funnel);
    CodeReadAgain(Get(value, ERROR_CODE));
    HeaderReadAgain(value, shown);
    AcceptedWith(shown, RereadAll(steps), funnel, SanitizeMetrics(raw, funnel).value);
    OtherSteps(Get(value, STATUS), Get(value, CORRELATION_ID), Get(value, TARGET_DATE), Get(value, STARTED_AT),
               Get(value, COMPLETED_AT), SafeErrorCode(Get(value, ERROR_CODE)), steps, metrics, RereadAll(steps));
  }

  lemma OtherSteps(status: Value, correlationId: Value, targetDate: Value, startedAt: Value, completedAt: Value,
                   errorCode: Value, steps: seq<Value>, metrics: Fields, steps': seq<Value>)
    ensures StatusFields(status, correlationId, targetDate, startedAt, completedAt, errorCode, steps', metrics) ==
            StatusFields(status, correlationId, targetDate, startedAt, completedAt, errorCode, steps, metrics)
            [STEPS := List(steps')]
  {
  }

  lemma AcceptedWith(value: Fields, steps: seq<Value>, funnel: Funnel, m: MetricsRecord)
    requires Get(value, STATUS) in {Text(CompletedText), Text(DegradedText), Text(FailedText)}
    requires !HeaderInvalid(value) && Get(value, STEPS).List? && Get(value, METRICS).Dict?
    requires SanitizeSteps(Get(value, STEPS).items) == Ok((steps, funnel))
    requires SanitizeMetrics(Get(value, METRICS).fields, funnel) == Ok(m)
    ensures Sanitize(value) ==
            Ok(StatusFields(
                 Get(value, STATUS), Get(value, CORRELATION_ID), Get(value, TARGET_DATE), Get(value, STARTED_AT),
                 Get(value, COMPLETED_AT), SafeErrorCode(Get(value, ERROR_CODE)), steps, EncodeMetrics(m)))
  {
    hide SanitizeSteps, SanitizeMetrics, EncodeMetrics, SafeErrorCode, StatusFields, HeaderInvalid, Get;
  }

  /** After a second reading nothing changes any more. */
  lemma TwoReadingsSuffice(value: Fields)
    requires Sanitize(value).Ok?
    ensures Sanitize(Sanitize(value).value).Ok?
    ensures var again := Sanitize(Sanitize(value).value).value;
            Sanitize(again) == Ok(again)
  {
    hide Sanitize, Reread, RereadAll;
    ReadingAgain(value);
    var shown := Sanitize(value).value;
    ReadingAgain(shown);
    RereadTwice(Get(shown, STEPS).items);
    var again := Sanitize(shown).value;
    assert again[STEPS := again[STEPS]] == again;
  }

  lemma RereadTwice(steps: seq<Value>)
    ensures RereadAll(RereadAll(steps)) == RereadAll(steps)
  {
    hide Reread;
    forall i | 0 <= i < |steps|
      ensures Reread(Reread(steps[i])) == Reread(steps[i])
    {
      OneStepRereadTwice(steps[i]);
    }
  }

  lemma OneStepRereadTwice(step: Value)
    ensures Reread(Reread(step)) == Reread(step)
  {
  }
}
