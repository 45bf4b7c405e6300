/** How the summary of a run is turned into the fields that are saved, and when they can be written as JSON. */
module StatusEncoding {
  import opened Wrappers
  import opened OperationsValues
  import opened DailyOperations

  function OptionalInt(n: Option<nat>): Value {
    match n
    case None => Null
    case Some(i) => Int(i)
  }

  function EncodeStep(r: StepResult): Fields {
    match r
    case Completed(name, critical, duration, metrics) =>
      map[STEP := Text(name), STATUS := Text(CompletedText), CRITICAL := Bool(critical), DURATION_MS := Int(duration),
          METRICS := Dict(metrics)]
    case Failed(name, critical, duration, code) =>
      map[STEP := Text(name), STATUS := Text(FailedText), CRITICAL := Bool(critical), DURATION_MS := Int(duration),
          ERROR_CODE := Text(code)]
  }

  function EncodeSteps(results: seq<StepResult>): seq<Value> {
    seq(|results|, i requires 0 <= i < |results| => Dict(EncodeStep(results[i])))
  }

  function EncodeDurations(d: map<Word, nat>): Fields {
    map w | w in d :: Other(w) := Int(d[w])
  }

  function EncodeMetrics(m: MetricsRecord): Fields {
    (map k | k in CounterNames() :: Int(m.counters[k]))
    + map[QUOTA_REMAINING_DAILY := OptionalInt(m.quotaRemainingDaily),
          QUOTA_REMAINING_MINUTE := OptionalInt(m.quotaRemainingMinute),
          RETENTION_FUNNEL := FunnelValue(m.retentionFunnel),
          STEP_DURATION_MS := Dict(EncodeDurations(m.stepDurationMs))]
  }

  function StatusFields(status: Value, correlationId: Value, targetDate: Value, startedAt: Value, completedAt: Value,
                        errorCode: Value, steps: seq<Value>, metrics: Fields): Fields {
    map[STATUS := status, CORRELATION_ID := correlationId, TARGET_DATE := targetDate,
        STARTED_AT := startedAt, COMPLETED_AT := completedAt, ERROR_CODE := errorCode,
        STEPS := List(steps), METRICS := Dict(metrics),
        BOOKMAKER_CALLS := Bool(false), ODDS_USED := Bool(false),
        BETTING_ACTIONS := Bool(false), AUTOMATIC_EXECUTION := Bool(false)]
  }

  function Encode(s: Summary): Fields {
    StatusFields(
      Text(s.status), Text(s.identity.correlationId), Text(s.identity.targetDate),
      Text(s.identity.startedAt), Text(s.identity.completedAt),
      match s.errorCode case None => Null case Some(code) => Text(code),
      EncodeSteps(s.steps), EncodeMetrics(s.metrics))
  }

  // ---------------------------------------------------------------------------------------------
  // What can be written
  // ---------------------------------------------------------------------------------------------

  lemma StepIsEncodable(r: StepResult)
    ensures Encodable(Dict(EncodeStep(r))) <==> r.Completed? ==> Encodable(Dict(r.metrics))
  {
    var e := EncodeStep(r);
    if r.Completed? {
      assert METRICS in e && e[METRICS] == Dict(r.metrics);
      assert forall k :: k in e ==> k == METRICS || Encodable(e[k]);
    }
  }

  lemma FunnelIsEncodable(f: Funnel)
    ensures Encodable(FunnelValue(f))
  {
  }

  lemma DurationsAreEncodable(d: map<Word, nat>)
    ensures Encodable(Dict(EncodeDurations(d)))
  {
  }

  lemma MetricsAreEncodable(m: MetricsRecord)
    ensures Encodable(Dict(EncodeMetrics(m)))
  {
    hide CounterNames, FunnelValue, EncodeDurations;
    FunnelIsEncodable(m.retentionFunnel);
    DurationsAreEncodable(m.stepDurationMs);
    var e := EncodeMetrics(m);
    forall k | k in e
      ensures Encodable(e[k])
    {
      if k !in {QUOTA_REMAINING_DAILY, QUOTA_REMAINING_MINUTE, RETENTION_FUNNEL, STEP_DURATION_MS} {
        assert e[k] == Int(m.counters[k]);
      }
    }
  }

  /** Only the metrics kept of a completed step can stand in the way. */
  lemma EncodableExactly(s: Summary)
    ensures Encodable(Dict(Encode(s))) <==>
            forall i :: 0 <= i < |s.steps| && s.steps[i].Completed? ==> Encodable(Dict(s.steps[i].metrics))
  {
    hide EncodeStep, EncodeMetrics;
    var e := Encode(s);
    var steps := EncodeSteps(s.steps);
    MetricsAreEncodable(s.metrics);
    forall i | 0 <= i < |s.steps|
      ensures Encodable(steps[i]) <==> s.steps[i].Completed? ==> Encodable(Dict(s.steps[i].metrics))
    {
      StepIsEncodable(s.steps[i]);
    }
    assert STEPS in e && e[STEPS] == List(steps);
    assert forall k :: k in e ==> k == STEPS || Encodable(e[k]);
  }
}
