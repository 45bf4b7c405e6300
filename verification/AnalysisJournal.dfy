/**
 The append-only journal of analyses and the table of their resolutions. Both are written with statements that
 do nothing on conflict; resolutions are selected in bounded batches from what was known at an instant, and a
 trigger checks each of them.
 */
module AnalysisJournal {
  import opened Wrappers
  import opened MarketOutcome
  import opened MatchObservations

  const RESOLUTION_LIMIT: nat := 200

  // ---------------------------------------------------------------------------------------------
  // Tables and insertion
  // ---------------------------------------------------------------------------------------------

  /** A row of either table: both have a unique analysis id and a unique immutable hash. */
  datatype Entry<T> = Entry(analysisId: nat, immutableHash: nat, content: T)

  predicate Conflicts<T>(table: seq<Entry<T>>, e: Entry<T>) {
    exists i :: 0 <= i < |table| && (table[i].analysisId == e.analysisId || table[i].immutableHash == e.immutableHash)
  }

  /** INSERT ... ON CONFLICT DO NOTHING, row after row. */
  function InsertAll<T>(table: seq<Entry<T>>, values: seq<Entry<T>>): seq<Entry<T>>
    decreases |values|
  {
    if values == [] then table
    else InsertAll(if Conflicts(table, values[0]) then table else table + [values[0]], values[1..])
  }

  predicate UniqueRows<T>(table: seq<Entry<T>>) {
    forall i, j :: 0 <= i < j < |table| ==>
      table[i].analysisId != table[j].analysisId && table[i].immutableHash != table[j].immutableHash
  }

  function Ids<T>(table: seq<Entry<T>>): set<nat> {
    set i | 0 <= i < |table| :: table[i].analysisId
  }

  /** Insertion only appends, keeps the rows unique, and takes its new rows from the values. */
  lemma {:induction false} InsertAppends<T>(table: seq<Entry<T>>, values: seq<Entry<T>>)
    requires UniqueRows(table)
    ensures table <= InsertAll(table, values) && UniqueRows(InsertAll(table, values))
    ensures |InsertAll(table, values)| <= |table| + |values|
    ensures forall e :: e in InsertAll(table, values) ==> e in table || e in values
    decreases |values|
  {
    if values != [] {
      InsertAppends(if Conflicts(table, values[0]) then table else table + [values[0]], values[1..]);
    }
  }

  /** Values that clash with nothing, not even each other, are all appended in order. */
  lemma {:induction false} InsertFresh<T>(table: seq<Entry<T>>, values: seq<Entry<T>>)
    requires UniqueRows(table + values)
    ensures InsertAll(table, values) == table + values
    decreases |values|
  {
    if values == [] {
      assert table + values == table;
    } else {
      assert !Conflicts(table, values[0]) by {
        forall i | 0 <= i < |table|
          ensures table[i].analysisId != values[0].analysisId && table[i].immutableHash != values[0].immutableHash {
          assert (table + values)[i] == table[i] && (table + values)[|table|] == values[0];
        }
      }
      assert table + values == (table + [values[0]]) + values[1..];
      InsertFresh(table + [values[0]], values[1..]);
    }
  }

  datatype WriteSummary = WriteSummary(received: nat, inserted: nat, duplicate: nat)

  const NOTHING_WRITTEN := WriteSummary(0, 0, 0)

  /** The insertion loop of one statement. */
  method InsertRows<T(==)>(table: seq<Entry<T>>, values: seq<Entry<T>>) returns (table': seq<Entry<T>>, inserted: nat)
    requires UniqueRows(table)
    ensures table' == InsertAll(table, values)
    ensures |table'| == |table| + inserted && inserted <= |values|
  {
    table', inserted := table, 0;
    assert values[0..] == values;
    for i := 0 to |values|
      invariant InsertAll(table', values[i..]) == InsertAll(table, values)
      invariant |table'| == |table| + inserted && inserted <= i
    {
      assert values[i..][0] == values[i] && values[i..][1..] == values[i + 1..];
      if !Conflicts(table', values[i]) {
        table' := table' + [values[i]];
        inserted := inserted + 1;
      }
    }
    assert values[|values|..] == [];
  }

  // ---------------------------------------------------------------------------------------------
  // Snapshots
  // ---------------------------------------------------------------------------------------------

  datatype Snapshot = Snapshot(
    matchId: int, kickoffAt: int, analysisTime: int, market: Market, analysisHash: nat, payload: nat, createdAt: int)

  datatype Candidate = Candidate(market: Market, analysisHash: nat, payload: nat)

  datatype Opportunity = Opportunity(
    matchId: int, kickoffAt: int, allowed: bool, primary: Option<Candidate>, alternatives: seq<Candidate>)

  datatype JournalError = NotPreMatch | ConstraintViolated | NaiveTime | LimitOutOfRange

  /** A datetime: only one with a time zone can be compared. */
  datatype Instant = Aware(at: int) | Naive

  /** What a resolution keeps of the match, and what its hash covers beside the identity and the outcome. */
  datatype Payload = Payload(matchKickoffAt: int, scores: Scores, status: string, temporalMismatch: bool)

  /** Identifiers and digests: UUIDs and SHA-256 values as uninterpreted functions. */
  datatype Identifiers = Identifiers(
    analysisId: (int, Market, nat) -> nat,
    snapshotHash: (nat, int, int, nat) -> nat,
    resolutionHash: (nat, Outcome, int, Payload, nat) -> nat)

  function Candidates(o: Opportunity): seq<Candidate> {
    (match o.primary case Some(c) => [c] case None => []) + o.alternatives
  }

  function JournalValue(o: Opportunity, c: Candidate, analysisTime: int, now: int, ids: Identifiers): Entry<Snapshot> {
    var id := ids.analysisId(o.matchId, c.market, c.analysisHash);
    Entry(id, ids.snapshotHash(id, analysisTime, o.kickoffAt, c.payload),
          Snapshot(o.matchId, o.kickoffAt, analysisTime, c.market, c.analysisHash, c.payload, now))
  }

  function JournalValues(o: Opportunity, analysisTime: int, now: int, ids: Identifiers): seq<Entry<Snapshot>> {
    var candidates := Candidates(o);
    seq(|candidates|, i requires 0 <= i < |candidates| => JournalValue(o, candidates[i], analysisTime, now, ids))
  }

  /** The table's checks: written before kickoff, at or after the analysis, for one of the nine markets. */
  predicate SnapshotAllowed(s: Snapshot) {
    s.analysisTime <= s.createdAt < s.kickoffAt && !s.market.UnknownMarket?
  }

  // ---------------------------------------------------------------------------------------------
  // Resolutions
  // ---------------------------------------------------------------------------------------------

  datatype Resolution = Resolution(
    matchId: int, market: Market, outcome: Outcome, availableAt: int, resolvedAt: int, rawHash: nat, payload: Payload)

  function Stamp(id: nat, r: Resolution, ids: Identifiers): nat {
    ids.resolutionHash(id, r.outcome, r.availableAt, r.payload, r.rawHash)
  }

  function ResolutionValue(row: Entry<Snapshot>, o: Observation, asOf: int, ids: Identifiers): Entry<Resolution> {
    var s := row.content;
    var mismatch := o.kickoffAt <= s.analysisTime || o.availableAt < s.kickoffAt;
    var outcome := if mismatch then Unsettled else EvaluateMarketOutcome(s.market, o.scores);
    var r := Resolution(s.matchId, s.market, outcome, o.availableAt, asOf, o.rawHash,
                        Payload(o.kickoffAt, o.scores, o.status, mismatch));
    Entry(row.analysisId, Stamp(row.analysisId, r, ids), r)
  }

  /** The integrity trigger and the table's time check, on a row written at `now`. */
  predicate ResolutionAllowed(journal: seq<Entry<Snapshot>>, e: Entry<Resolution>, now: int) {
    var r := e.content;
    && r.availableAt <= r.resolvedAt <= now
    && exists i :: 0 <= i < |journal| && journal[i].analysisId == e.analysisId && TriggerAccepts(journal[i].content, r)
  }

  predicate TriggerAccepts(s: Snapshot, r: Resolution) {
    && r.matchId == s.matchId && r.market == s.market
    && s.kickoffAt < r.resolvedAt
    && (r.outcome != Unsettled ==>
          && s.kickoffAt <= r.availableAt
          && TriggerExpects(r.market, r.payload.scores) == Some(r.outcome))
  }

  /** What a batch asks for: an instant and an optional window of kickoffs. */
  datatype Query = Query(asOf: int, startsAt: Option<int>, endsAt: Option<int>)

  predicate Wanted(s: Snapshot, table: seq<Observation>, q: Query) {
    && s.kickoffAt < q.asOf
    && (q.startsAt.Some? ==> q.startsAt.value <= s.kickoffAt)
    && (q.endsAt.Some? ==> s.kickoffAt < q.endsAt.value)
    && LatestAsOf(table, s.matchId, q.asOf).Some? && Completed(LatestAsOf(table, s.matchId, q.asOf).value)
  }

  predicate Before(a: Entry<Snapshot>, b: Entry<Snapshot>) {
    || a.content.kickoffAt < b.content.kickoffAt
    || (a.content.kickoffAt == b.content.kickoffAt && a.analysisId <= b.analysisId)
  }

  function Placed(e: Entry<Snapshot>, rows: seq<Entry<Snapshot>>): seq<Entry<Snapshot>> {
    if rows == [] || Before(e, rows[0]) then [e] + rows else [rows[0]] + Placed(e, rows[1..])
  }

  /** ORDER BY kickoff_at, analysis_id. */
  function Ordered(rows: seq<Entry<Snapshot>>): seq<Entry<Snapshot>> {
    if rows == [] then [] else Placed(rows[0], Ordered(rows[1..]))
  }

  function Open(rows: seq<Entry<Snapshot>>, resolved: set<nat>, table: seq<Observation>,
                q: Query): seq<Entry<Snapshot>> {
    if rows == [] then []
    else
      (if rows[0].analysisId !in resolved && Wanted(rows[0].content, table, q) then [rows[0]] else [])
      + Open(rows[1..], resolved, table, q)
  }

  datatype Database = Database(journal: seq<Entry<Snapshot>>, resolutions: seq<Entry<Resolution>>)

  /** The unresolved analyses a query finds, in order. */
  function Pending(db: Database, table: seq<Observation>, q: Query): seq<Entry<Snapshot>> {
    Open(Ordered(db.journal), Ids(db.resolutions), table, q)
  }

  function Take<T>(s: seq<T>, n: nat): seq<T> {
    if n < |s| then s[..n] else s
  }

  /** The row built for one selected analysis; a wanted analysis has a latest observation. */
  function ValueOf(row: Entry<Snapshot>, table: seq<Observation>, q: Query, ids: Identifiers): Entry<Resolution>
    requires Wanted(row.content, table, q)
  {
    ResolutionValue(row, LatestAsOf(table, row.content.matchId, q.asOf).value, q.asOf, ids)
  }

  predicate AllWanted(rows: seq<Entry<Snapshot>>, table: seq<Observation>, q: Query) {
    forall i :: 0 <= i < |rows| ==> Wanted(rows[i].content, table, q)
  }

  function Values(rows: seq<Entry<Snapshot>>, table: seq<Observation>, q: Query,
                  ids: Identifiers): (values: seq<Entry<Resolution>>)
    requires AllWanted(rows, table, q)
    ensures |values| == |rows|
  {
    seq(|rows|, i requires 0 <= i < |rows| && AllWanted(rows, table, q) => ValueOf(rows[i], table, q, ids))
  }

  lemma {:induction false} OpenIsWanted(rows: seq<Entry<Snapshot>>, resolved: set<nat>, table: seq<Observation>,
                                        q: Query)
    ensures var open := Open(rows, resolved, table, q);
            && AllWanted(open, table, q)
            && forall r :: r in open <==> r in rows && r.analysisId !in resolved && Wanted(r.content, table, q)
  {
    hide Wanted;
    if rows != [] { OpenIsWanted(rows[1..], resolved, table, q); }
  }

  /** The rows one call builds: the first pending analyses, at most `limit` of them. */
  function Batch(db: Database, table: seq<Observation>, q: Query, limit: nat,
                 ids: Identifiers): seq<Entry<Resolution>> {
    OpenIsWanted(Ordered(db.journal), Ids(db.resolutions), table, q);
    Values(Take(Pending(db, table, q), limit), table, q, ids)
  }

  // ---------------------------------------------------------------------------------------------
  // The two operations
  // ---------------------------------------------------------------------------------------------

  datatype Reply = Reply(db: Database, result: Result<WriteSummary, JournalError>)

  function Summarise(received: nat, inserted: nat): WriteSummary
    requires inserted <= received
  {
    WriteSummary(received, inserted, received - inserted)
  }

  /** One INSERT of snapshots: a row the checks refuse aborts the statement. */
  function InsertSnapshots(db: Database, values: seq<Entry<Snapshot>>): Reply
    requires UniqueRows(db.journal)
  {
    InsertAppends(db.journal, values);
    if exists v :: v in values && !SnapshotAllowed(v.content) then Reply(db, Err(ConstraintViolated))
    else
      var journal := InsertAll(db.journal, values);
      Reply(db.(journal := journal), Ok(Summarise(|values|, |journal| - |db.journal|)))
  }

  /** One INSERT of resolutions: a row the checks or the trigger refuse aborts the statement. */
  function InsertResolutions(db: Database, values: seq<Entry<Resolution>>, now: int): Reply
    requires UniqueRows(db.resolutions)
  {
    InsertAppends(db.resolutions, values);
    if exists v :: v in values && !ResolutionAllowed(db.journal, v, now) then Reply(db, Err(ConstraintViolated))
    else
      var resolutions := InsertAll(db.resolutions, values);
      Reply(db.(resolutions := resolutions), Ok(Summarise(|values|, |resolutions| - |db.resolutions|)))
  }

  /** `append_opportunity`. */
  function AppendOpportunity(db: Database, o: Opportunity, analysisTime: Instant, now: int, ids: Identifiers): Reply
    requires UniqueRows(db.journal)
  {
    if !o.allowed then Reply(db, Ok(NOTHING_WRITTEN))
    else if analysisTime.Naive? || analysisTime.at >= o.kickoffAt then Reply(db, Err(NotPreMatch))
    else if Candidates(o) == [] then Reply(db, Ok(NOTHING_WRITTEN))
    else InsertSnapshots(db, JournalValues(o, analysisTime.at, now, ids))
  }

  /** `resolve_completed`. */
  function ResolveCompleted(db: Database, table: seq<Observation>, asOf: Instant, startsAt: Option<int>,
                            endsAt: Option<int>, limit: int, now: int, ids: Identifiers): Reply
    requires UniqueRows(db.resolutions)
  {
    if asOf.Naive? then Reply(db, Err(NaiveTime))
    else if limit < 1 || limit > RESOLUTION_LIMIT then Reply(db, Err(LimitOutOfRange))
    else
      var values := Batch(db, table, Query(asOf.at, startsAt, endsAt), limit, ids);
      if values == [] then Reply(db, Ok(NOTHING_WRITTEN)) else InsertResolutions(db, values, now)
  }
}
