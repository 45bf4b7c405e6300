/**
 The untyped values the daily operations read and write: step results, the saved summary, and the
 functions that reduce them to what may be kept. The field names the code mentions are constants
 of `Key` and the strings it compares with are constructors of `Word`; every other one is `Other` or `Plain`.
 A value JSON has no form for is `Foreign`.
 */
module OperationsValues {
  import opened Wrappers

  datatype Reason =
    | Competition | Season | WrongStatus | KickoffWindow
    | MissingTeams | InsufficientCoverage | DuplicateFixture | OtherReason

  datatype Key =
    | Named(id: nat)
    | Rejected(reason: Reason)
    | Other(name: Word)

  const STATUS := Named(0)
  const CORRELATION_ID := Named(1)
  const TARGET_DATE := Named(2)
  const STARTED_AT := Named(3)
  const COMPLETED_AT := Named(4)
  const ERROR_CODE := Named(5)
  const STEPS := Named(6)
  const METRICS := Named(7)
  const BOOKMAKER_CALLS := Named(8)
  const ODDS_USED := Named(9)
  const BETTING_ACTIONS := Named(10)
  const AUTOMATIC_EXECUTION := Named(11)
  const STEP := Named(12)
  const CRITICAL := Named(13)
  const DURATION_MS := Named(14)
  const REQUEST_COUNT := Named(15)
  const FIXTURES_RECEIVED := Named(16)
  const FIXTURES_RETAINED := Named(17)
  const FIXTURES_IGNORED := Named(18)
  const TARGET_MATCHES_ADDED := Named(19)
  const MATCH_DUPLICATES := Named(20)
  const QUOTA_REMAINING_DAILY := Named(21)
  const QUOTA_REMAINING_MINUTE := Named(22)
  const PUBLIC_ERROR_CODE := Named(23)
  const RETENTION_FUNNEL := Named(24)
  const MATCHES_EVALUATED := Named(25)
  const MATCHES_BLOCKED := Named(26)
  const OPPORTUNITIES_GENERATED := Named(27)
  const NO_BET_COUNT := Named(28)
  const INSUFFICIENT_DATA_COUNT := Named(29)
  const STALE_DATA_COUNT := Named(30)
  const SNAPSHOTS_CREATED := Named(31)
  const RECEIVED := Named(32)
  const INSERTED := Named(33)
  const DUPLICATE := Named(34)
  const PERFORMANCE := Named(35)
  const TOTAL_SNAPSHOTS := Named(36)
  const RESOLVED := Named(37)
  const UNRESOLVED := Named(38)
  const VOID := Named(39)
  const RESOLVED_SAMPLE_SIZE := Named(40)
  const SAMPLE_STATUS := Named(41)
  const SYNCHRONIZATION_SUCCEEDED := Named(42)
  const SYNCHRONIZATION_FAILED := Named(43)
  const RESOLUTIONS_CREATED := Named(44)
  const PROVIDER_ERROR_COUNT := Named(45)
  const REDIS_FAIL_CLOSED_COUNT := Named(46)
  const POSTGRESQL_ERROR_COUNT := Named(47)
  const STEP_DURATION_MS := Named(48)
  const RETAINED := Named(49)

  datatype Word =
    | DailyDiscovery | DailyRefresh | SnapshotStep | ResolveStep | ReportStep
    | CompletedText | DegradedText | FailedText | NoSampleText
    | FunnelInvalidCode | StepTimeoutCode | ProviderUnavailableCode | PostgresqlErrorCode | InternalErrorCode
    | Plain(s: OtherText)

  /** The strings the code compares with. */
  predicate Known(s: string) {
    || s == "daily_discovery" || s == "daily_refresh" || s == "snapshot" || s == "resolve" || s == "report"
    || s == "completed" || s == "degraded" || s == "failed" || s == "no_sample"
    || s == "retention_funnel_invalid" || s == "step_timeout" || s == "provider_unavailable"
    || s == "postgresql_error" || s == "daily_operations_internal_error"
  }

  type OtherText = s: string | !Known(s)

  function Spelling(w: Word): string {
    match w
    case DailyDiscovery => "daily_discovery"
    case DailyRefresh => "daily_refresh"
    case SnapshotStep => "snapshot"
    case ResolveStep => "resolve"
    case ReportStep => "report"
    case CompletedText => "completed"
    case DegradedText => "degraded"
    case FailedText => "failed"
    case NoSampleText => "no_sample"
    case FunnelInvalidCode => "retention_funnel_invalid"
    case StepTimeoutCode => "step_timeout"
    case ProviderUnavailableCode => "provider_unavailable"
    case PostgresqlErrorCode => "postgresql_error"
    case InternalErrorCode => "daily_operations_internal_error"
    case Plain(s) => s
  }

  /** The word a string is. */
  function WordOf(s: string): Word {
    if s == "daily_discovery" then DailyDiscovery
    else if s == "daily_refresh" then DailyRefresh
    else if s == "snapshot" then SnapshotStep
    else if s == "resolve" then ResolveStep
    else if s == "report" then ReportStep
    else if s == "completed" then CompletedText
    else if s == "degraded" then DegradedText
    else if s == "failed" then FailedText
    else if s == "no_sample" then NoSampleText
    else if s == "retention_funnel_invalid" then FunnelInvalidCode
    else if s == "step_timeout" then StepTimeoutCode
    else if s == "provider_unavailable" then ProviderUnavailableCode
    else if s == "postgresql_error" then PostgresqlErrorCode
    else if s == "daily_operations_internal_error" then InternalErrorCode
    else Plain(s)
  }

  /** Words are strings, one for one. */
  lemma WordsAreStrings(w: Word, s: string)
    ensures Spelling(WordOf(s)) == s && WordOf(Spelling(w)) == w
  {
    EveryStringIsAWord(s);
    EveryWordIsAString(w);
  }

  lemma EveryStringIsAWord(s: string)
    ensures Spelling(WordOf(s)) == s
  {
    hide Known;
    var w := WordOf(s);
    match w
    case Plain(_) =>
    case _ =>
  }

  lemma EveryWordIsAString(w: Word)
    ensures WordOf(Spelling(w)) == w
  {
    hide Known, WordOf, Spelling;
    match w
    case DailyDiscovery | DailyRefresh | SnapshotStep | ResolveStep | ReportStep => StepNamesAreStrings(w);
    case CompletedText | DegradedText | FailedText | NoSampleText => StatusesAreStrings(w);
    case Plain(s) => OtherTextsAreStrings(s);
    case _ => CodesAreStrings(w);
  }

  lemma StepNamesAreStrings(w: Word)
    requires w.DailyDiscovery? || w.DailyRefresh? || w.SnapshotStep? || w.ResolveStep? || w.ReportStep?
    ensures WordOf(Spelling(w)) == w
  {
    hide Known;
  }

  lemma StatusesAreStrings(w: Word)
    requires w.CompletedText? || w.DegradedText? || w.FailedText? || w.NoSampleText?
    ensures WordOf(Spelling(w)) == w
  {
    hide Known;
    assert "snapshot"[0] == 's' && "degraded"[0] == 'd' && "report"[0] == 'r' && "failed"[0] == 'f';
    assert "completed"[0] == 'c' && "no_sample"[0] == 'n';
  }

  lemma CodesAreStrings(w: Word)
    requires w.FunnelInvalidCode? || w.StepTimeoutCode? || w.ProviderUnavailableCode? || w.PostgresqlErrorCode?
             || w.InternalErrorCode?
    ensures WordOf(Spelling(w)) == w
  {
    hide Known;
  }

  lemma OtherTextsAreStrings(s: OtherText)
    ensures WordOf(Spelling(Plain(s))) == Plain(s)
  {
  }

  datatype Value =
    | Null
    | Bool(b: bool)
    | Int(i: int)
    | Float(r: real)
    | Text(w: Word)
    | List(items: seq<Value>)
    | Dict(fields: Fields)
    | Foreign(id: nat)

  type Fields = map<Key, Value>

  function Get(fields: Fields, k: Key): Value {
    if k in fields then fields[k] else Null
  }

  /** The entries of a mapping under the allowed keys, present ones only. */
  function Pick(fields: Fields, allowed: set<Key>): Fields {
    map k | k in fields && k in allowed :: fields[k]
  }

  function SafeInt(v: Value): nat {
    if v.Int? && v.i >= 0 then v.i else 0
  }

  /** `SafeInt` of an entry that may be missing. */
  function Number(fields: Fields, k: Key): nat { SafeInt(Get(fields, k)) }

  /** As `Number`, but a missing or null entry stays missing. */
  function OptionalNumber(fields: Fields, k: Key): Option<nat> {
    if Get(fields, k).Null? then None else Some(Number(fields, k))
  }

  function StrictNonnegativeInt(v: Value): Option<nat> {
    if v.Int? && v.i >= 0 then Some(v.i) else None
  }

  /** `json.dumps` succeeds. */
  predicate Encodable(v: Value) {
    match v
    case Foreign(_) => false
    case List(items) => forall i :: 0 <= i < |items| ==> Encodable(items[i])
    case Dict(fields) => forall k :: k in fields ==> Encodable(fields[k])
    case _ => true
  }

  // ---------------------------------------------------------------------------------------------
  // The retention funnel
  // ---------------------------------------------------------------------------------------------

  const FUNNEL_FIELDS: seq<Key> := [
    FIXTURES_RECEIVED, RETAINED,
    Rejected(Competition), Rejected(Season), Rejected(WrongStatus), Rejected(KickoffWindow),
    Rejected(MissingTeams), Rejected(InsufficientCoverage), Rejected(DuplicateFixture), Rejected(OtherReason)
  ]

  const FIELD_SET: set<Key> := set k | k in FUNNEL_FIELDS

  /** One count per funnel field. */
  type Funnel = f: map<Key, nat> | f.Keys == FIELD_SET witness (map k | k in FIELD_SET :: 0)

  const NO_FIXTURES: Funnel := map k | k in FIELD_SET :: 0

  function RejectedIn(f: Funnel, fields: seq<Key>): nat
    requires forall k :: k in fields ==> k in FIELD_SET
  {
    if fields == [] then 0
    else (if fields[0].Rejected? then f[fields[0]] else 0) + RejectedIn(f, fields[1..])
  }

  /** Everything received is retained or rejected for one reason. */
  predicate Balanced(f: Funnel) {
    f[FIXTURES_RECEIVED] == f[RETAINED] + RejectedIn(f, FUNNEL_FIELDS)
  }

  function Plus(f: Funnel, g: Funnel): Funnel {
    map k | k in FIELD_SET :: f[k] + g[k]
  }

  lemma {:induction false} RejectedAdds(f: Funnel, g: Funnel, fields: seq<Key>)
    requires forall k :: k in fields ==> k in FIELD_SET
    ensures RejectedIn(Plus(f, g), fields) == RejectedIn(f, fields) + RejectedIn(g, fields)
  {
    if fields != [] {
      assert fields[0] in fields;
      RejectedAdds(f, g, fields[1..]);
    }
  }

  /** Conservation: adding two balanced funnels field by field gives a balanced funnel. */
  lemma PlusKeepsBalance(f: Funnel, g: Funnel)
    requires Balanced(f) && Balanced(g)
    ensures Balanced(Plus(f, g))
  {
    RejectedAdds(f, g, FUNNEL_FIELDS);
  }

  lemma {:induction false} NothingRejected(fields: seq<Key>)
    requires forall k :: k in fields ==> k in FIELD_SET
    ensures RejectedIn(NO_FIXTURES, fields) == 0
  {
    if fields != [] {
      assert fields[0] in fields;
      NothingRejected(fields[1..]);
    }
  }

  /** None unless the value is a mapping of exactly the funnel fields to non-negative integers that balance. */
  function SafeRetentionFunnel(v: Value): Option<Funnel> {
    if !v.Dict? || v.fields.Keys != FIELD_SET then None
    else if exists k :: k in FIELD_SET && !(v.fields[k].Int? && v.fields[k].i >= 0) then None
    else
      var safe: Funnel := map k | k in FIELD_SET :: SafeInt(v.fields[k]);
      if Balanced(safe) then Some(safe) else None
  }

  /** The funnel that metrics carry, if it is one. */
  function CarriedFunnel(metrics: Fields): Funnel {
    match SafeRetentionFunnel(Get(metrics, RETENTION_FUNNEL))
    case Some(f) => f
    case None => NO_FIXTURES
  }

  function FunnelValue(f: Funnel): Value {
    Dict(map k | k in FIELD_SET :: Int(f[k]))
  }

  /** What was written is what is read back; nothing else is accepted. */
  lemma FunnelRoundTrip(f: Funnel)
    ensures SafeRetentionFunnel(FunnelValue(f)) == if Balanced(f) then Some(f) else None
  {
    hide Balanced;
    var v := FunnelValue(f);
    var safe: Funnel := map k | k in FIELD_SET :: SafeInt(v.fields[k]);
    assert safe == f;
  }

  lemma OnlyFunnelsAccepted(v: Value)
    ensures SafeRetentionFunnel(v).Some? ==>
              Balanced(SafeRetentionFunnel(v).value) && v == FunnelValue(SafeRetentionFunnel(v).value)
  {
    hide Balanced;
    if SafeRetentionFunnel(v).Some? {
      var f := SafeRetentionFunnel(v).value;
      assert v.fields == FunnelValue(f).fields;
    }
  }

  // ---------------------------------------------------------------------------------------------
  // Step metrics
  // ---------------------------------------------------------------------------------------------

  predicate IsSync(step: Word) { step == DailyDiscovery || step == DailyRefresh }

  const SYNC_KEYS: set<Key> := {
    STATUS, REQUEST_COUNT, FIXTURES_RECEIVED, FIXTURES_RETAINED, FIXTURES_IGNORED,
    TARGET_MATCHES_ADDED, MATCH_DUPLICATES, QUOTA_REMAINING_DAILY, QUOTA_REMAINING_MINUTE, PUBLIC_ERROR_CODE
  }

  const SNAPSHOT_KEYS: set<Key> := {
    MATCHES_EVALUATED, MATCHES_BLOCKED, OPPORTUNITIES_GENERATED, NO_BET_COUNT, INSUFFICIENT_DATA_COUNT,
    STALE_DATA_COUNT, SNAPSHOTS_CREATED, RECEIVED, INSERTED, DUPLICATE
  }

  const RESOLVE_KEYS: set<Key> := {RECEIVED, INSERTED, DUPLICATE}

  const PERFORMANCE_KEYS: set<Key> := {TOTAL_SNAPSHOTS, RESOLVED, UNRESOLVED, VOID, RESOLVED_SAMPLE_SIZE, SAMPLE_STATUS}

  const NO_SAMPLE: Fields := map[RESOLVED_SAMPLE_SIZE := Int(0), SAMPLE_STATUS := Text(NoSampleText)]

  /** A synchronisation's counts are present, ordered, and told again by its funnel. */
  predicate SyncCoherent(result: Fields) {
    var received := StrictNonnegativeInt(Get(result, FIXTURES_RECEIVED));
    var retained := StrictNonnegativeInt(Get(result, FIXTURES_RETAINED));
    var funnel := SafeRetentionFunnel(Get(result, RETENTION_FUNNEL));
    var ignored := Get(result, FIXTURES_IGNORED);
    && received.Some? && retained.Some? && retained.value <= received.value && funnel.Some?
    && funnel.value[FIXTURES_RECEIVED] == received.value && funnel.value[RETAINED] == retained.value
    && (!ignored.Null? ==> StrictNonnegativeInt(ignored) == Some(received.value - retained.value))
  }

  /** The sanitised form of a coherent synchronisation result. */
  function SyncMetrics(result: Fields): Fields
    requires SyncCoherent(result)
  {
    Pick(result, SYNC_KEYS)[FIXTURES_RECEIVED := Int(Number(result, FIXTURES_RECEIVED))]
    [FIXTURES_RETAINED := Int(Number(result, FIXTURES_RETAINED))]
    [RETENTION_FUNNEL := FunnelValue(SafeRetentionFunnel(Get(result, RETENTION_FUNNEL)).value)]
  }

  /** None when the code raises the retention-funnel error. */
  function SafeStepMetrics(step: Word, result: Fields): Option<Fields> {
    if IsSync(step) then
      if SyncCoherent(result) then Some(SyncMetrics(result)) else None
    else if step == SnapshotStep then Some(Pick(result, SNAPSHOT_KEYS))
    else if step == ResolveStep then Some(Pick(result, RESOLVE_KEYS))
    else
      var performance := Get(result, PERFORMANCE);
      if !performance.Dict? then Some(NO_SAMPLE)
      else Some(map k | k in PERFORMANCE_KEYS :: Get(performance.fields, k))
  }

  lemma SyncMetricsKeepEntries(result: Fields)
    requires SyncCoherent(result)
    ensures var m := SyncMetrics(result);
            && m.Keys == (result.Keys * SYNC_KEYS) + {FIXTURES_RECEIVED, FIXTURES_RETAINED, RETENTION_FUNNEL}
            && forall k :: k in m ==> k in result && m[k] == result[k]
  {
    hide SafeRetentionFunnel, Balanced;
    OnlyFunnelsAccepted(Get(result, RETENTION_FUNNEL));
  }

  lemma CoherenceReadsFourEntries(a: Fields, b: Fields)
    requires SyncCoherent(a)
    requires Get(a, FIXTURES_RECEIVED) == Get(b, FIXTURES_RECEIVED)
    requires Get(a, FIXTURES_RETAINED) == Get(b, FIXTURES_RETAINED)
    requires Get(a, FIXTURES_IGNORED) == Get(b, FIXTURES_IGNORED)
    requires Get(a, RETENTION_FUNNEL) == Get(b, RETENTION_FUNNEL)
    ensures SyncCoherent(b)
  {
    hide Get, StrictNonnegativeInt, SafeRetentionFunnel, Balanced;
  }

  lemma SyncMetricsCoherent(result: Fields)
    requires SyncCoherent(result)
    ensures SyncCoherent(SyncMetrics(result))
  {
    hide SafeRetentionFunnel, FunnelValue, Balanced;
    SyncMetricsKeepEntries(result);
    var m := SyncMetrics(result);
    assert FIXTURES_RECEIVED in m && FIXTURES_RETAINED in m && RETENTION_FUNNEL in m;
    assert FIXTURES_RECEIVED in result && FIXTURES_RETAINED in result && RETENTION_FUNNEL in result;
    assert FIXTURES_IGNORED in m <==> FIXTURES_IGNORED in result;
    CoherenceReadsFourEntries(result, m);
  }

  /** A sanitised synchronisation result passes its own check again and is left as it is. */
  lemma SyncMetricsStand(result: Fields)
    requires SyncCoherent(result)
    ensures SyncCoherent(SyncMetrics(result)) && SyncMetrics(SyncMetrics(result)) == SyncMetrics(result)
  {
    var m := SyncMetrics(result);
    SyncMetricsCoherent(result);
    SyncMetricsKeepEntries(result);
    var m' := SyncMetrics(m);
    SyncMetricsKeepEntries(m);
    assert m'.Keys == m.Keys;
  }

  /**
   Sanitising again changes nothing, except for a report: its nested `performance` is gone after the first
   pass, so a second pass always gives the no-sample pair, and differs exactly when there was a performance.
   */
  lemma ResanitisingStands(step: Word, result: Fields)
    requires SafeStepMetrics(step, result).Some?
    ensures var m := SafeStepMetrics(step, result).value;
            if IsSync(step) || step == SnapshotStep || step == ResolveStep then SafeStepMetrics(step, m) == Some(m)
            else && SafeStepMetrics(step, m) == Some(NO_SAMPLE)
                 && (m != NO_SAMPLE <==> Get(result, PERFORMANCE).Dict?)
  {
    var m := SafeStepMetrics(step, result).value;
    if IsSync(step) {
      SyncMetricsStand(result);
    } else if step == SnapshotStep {
      assert Pick(m, SNAPSHOT_KEYS) == m;
    } else if step == ResolveStep {
      assert Pick(m, RESOLVE_KEYS) == m;
    } else {
      assert PERFORMANCE !in m;
      if Get(result, PERFORMANCE).Dict? {
        assert TOTAL_SNAPSHOTS in m && TOTAL_SNAPSHOTS !in NO_SAMPLE;
      }
    }
  }
}
