/** Resolving in bounded batches: what one call resolves, what a run of calls leaves, and what the database accepts. */
module JournalBatches {
  import opened Wrappers
  import opened MarketOutcome
  import opened MatchObservations
  import opened AnalysisJournal

  // ---------------------------------------------------------------------------------------------
  // The order of a batch
  // ---------------------------------------------------------------------------------------------

  ghost predicate Sorted(rows: seq<Entry<Snapshot>>) {
    forall i, j :: 0 <= i < j < |rows| ==> Before(rows[i], rows[j])
  }

  ghost predicate DistinctIds<T>(rows: seq<Entry<T>>) {
    forall i, j :: 0 <= i < j < |rows| ==> rows[i].analysisId != rows[j].analysisId
  }

  lemma {:induction false} PlacedHolds(e: Entry<Snapshot>, rows: seq<Entry<Snapshot>>)
    ensures multiset(Placed(e, rows)) == multiset(rows) + multiset{e}
    ensures forall r :: r in Placed(e, rows) <==> r == e || r in rows
  {
    hide Before;
    if rows == [] || Before(e, rows[0]) {
    } else {
      PlacedHolds(e, rows[1..]);
      assert rows == [rows[0]] + rows[1..];
    }
  }

  lemma {:induction false} PlacedKeepsOrder(e: Entry<Snapshot>, rows: seq<Entry<Snapshot>>)
    requires Sorted(rows)
    ensures Sorted(Placed(e, rows))
  {
    if rows == [] || Before(e, rows[0]) {
    } else {
      PlacedKeepsOrder(e, rows[1..]);
      PlacedHolds(e, rows[1..]);
      assert forall r :: r in Placed(e, rows[1..]) ==> Before(rows[0], r);
    }
  }

  lemma {:induction false} PlacedKeepsDistinct(e: Entry<Snapshot>, rows: seq<Entry<Snapshot>>)
    requires DistinctIds(rows) && forall r :: r in rows ==> r.analysisId != e.analysisId
    ensures DistinctIds(Placed(e, rows))
  {
    if rows == [] || Before(e, rows[0]) {
    } else {
      PlacedKeepsDistinct(e, rows[1..]);
      PlacedHolds(e, rows[1..]);
      assert forall r :: r in Placed(e, rows[1..]) ==> r.analysisId != rows[0].analysisId;
    }
  }

  /** Ordering sorts by kickoff and then id, and neither loses nor repeats a row. */
  lemma {:induction false} OrderedIsSorted(rows: seq<Entry<Snapshot>>)
    ensures Sorted(Ordered(rows)) && multiset(Ordered(rows)) == multiset(rows)
    ensures forall r :: r in Ordered(rows) <==> r in rows
    ensures DistinctIds(rows) ==> DistinctIds(Ordered(rows))
  {
    hide Before, Placed;
    if rows != [] {
      OrderedIsSorted(rows[1..]);
      assert rows == [rows[0]] + rows[1..];
      PlacedKeepsOrder(rows[0], Ordered(rows[1..]));
      PlacedHolds(rows[0], Ordered(rows[1..]));
      if DistinctIds(rows) { PlacedKeepsDistinct(rows[0], Ordered(rows[1..])); }
    }
  }

  /** The open rows keep the order of the rows they come from. */
  lemma {:induction false} OpenKeepsOrder(rows: seq<Entry<Snapshot>>, resolved: set<nat>,
                                          table: seq<Observation>, q: Query)
    ensures Sorted(rows) ==> Sorted(Open(rows, resolved, table, q))
    ensures DistinctIds(rows) ==> DistinctIds(Open(rows, resolved, table, q))
  {
    hide Wanted, Before;
    if rows != [] {
      OpenKeepsOrder(rows[1..], resolved, table, q);
      OpenIsWanted(rows[1..], resolved, table, q);
    }
  }

  /**
   What a query finds: exactly the journalled, unresolved, wanted analyses, each once, by kickoff and then id.
   */
  lemma PendingIsExact(db: Database, table: seq<Observation>, q: Query)
    requires UniqueRows(db.journal)
    ensures var pending := Pending(db, table, q);
            && Sorted(pending) && DistinctIds(pending)
            && forall r :: r in pending <==>
                 r in db.journal && r.analysisId !in Ids(db.resolutions) && Wanted(r.content, table, q)
  {
    hide Wanted, Before;
    OrderedIsSorted(db.journal);
    OpenKeepsOrder(Ordered(db.journal), Ids(db.resolutions), table, q);
    OpenIsWanted(Ordered(db.journal), Ids(db.resolutions), table, q);
  }

  // ---------------------------------------------------------------------------------------------
  // Resolving a prefix of the open rows
  // ---------------------------------------------------------------------------------------------

  lemma {:induction false} OpenAgrees(rows: seq<Entry<Snapshot>>, a: set<nat>, b: set<nat>,
                                      table: seq<Observation>, q: Query)
    requires forall r :: r in rows ==> (r.analysisId in a <==> r.analysisId in b)
    ensures Open(rows, a, table, q) == Open(rows, b, table, q)
  {
    hide Wanted;
    if rows != [] {
      assert rows[0] in rows && forall r :: r in rows[1..] ==> r in rows;
      OpenAgrees(rows[1..], a, b, table, q);
    }
  }

  predicate IsOpen(row: Entry<Snapshot>, resolved: set<nat>, table: seq<Observation>, q: Query) {
    row.analysisId !in resolved && Wanted(row.content, table, q)
  }

  lemma {:induction false} OpenHead(rows: seq<Entry<Snapshot>>, resolved: set<nat>, table: seq<Observation>, q: Query)
    requires rows != []
    ensures Open(rows, resolved, table, q) ==
            (if IsOpen(rows[0], resolved, table, q) then [rows[0]] else []) + Open(rows[1..], resolved, table, q)
  {
    hide Wanted;
  }

  lemma {:induction false} IdsOfPrefix(row: Entry<Snapshot>, rest: seq<Entry<Snapshot>>, n: nat)
    requires 0 < n <= |rest| + 1
    ensures Ids(([row] + rest)[..n]) == {row.analysisId} + Ids(rest[..n - 1])
  {
    assert ([row] + rest)[..n] == [row] + rest[..n - 1];
    IdsAppend([row], rest[..n - 1]);
    assert Ids([row]) == {row.analysisId} by { assert [row][0] == row; }
  }

  /** Once the first n open rows are resolved, the others are what is open, in the same order. */
  lemma {:induction false} OpenAfterPrefix(
    rows: seq<Entry<Snapshot>>, resolved: set<nat>, table: seq<Observation>, q: Query, n: nat)
    requires DistinctIds(rows) && n <= |Open(rows, resolved, table, q)|
    ensures var open := Open(rows, resolved, table, q);
            Open(rows, resolved + Ids(open[..n]), table, q) == open[n..]
    decreases rows, 1
  {
    hide Wanted, Open, Ids;
    var open := Open(rows, resolved, table, q);
    if n == 0 {
      assert Ids(open[..0]) == {} by { NoIds(open[..0]); }
      assert resolved + {} == resolved;
    } else if rows != [] {
      OpenHead(rows, resolved, table, q);
      if IsOpen(rows[0], resolved, table, q) {
        ResolvedHead(rows, resolved, table, q, n);
      } else {
        var done := resolved + Ids(open[..n]);
        assert open == Open(rows[1..], resolved, table, q);
        OpenAfterPrefix(rows[1..], resolved, table, q, n);
        OpenHead(rows, done, table, q);
      }
    } else {
      NothingOpen(resolved, table, q);
    }
  }

  lemma {:induction false} NothingOpen(resolved: set<nat>, table: seq<Observation>, q: Query)
    ensures Open([], resolved, table, q) == []
  {
  }

  lemma NoIds<T>(rows: seq<Entry<T>>)
    requires rows == []
    ensures Ids(rows) == {}
  {
  }

  /** The case of an open first row, which is the first to be resolved. */
  lemma {:induction false} ResolvedHead(
    rows: seq<Entry<Snapshot>>, resolved: set<nat>, table: seq<Observation>, q: Query, n: nat)
    requires DistinctIds(rows) && rows != [] && IsOpen(rows[0], resolved, table, q)
    requires 0 < n <= |Open(rows, resolved, table, q)|
    ensures var open := Open(rows, resolved, table, q);
            Open(rows, resolved + Ids(open[..n]), table, q) == open[n..]
    decreases rows, 0
  {
    hide Wanted, Open, Ids;
    OpenHead(rows, resolved, table, q);
    var rest := Open(rows[1..], resolved, table, q);
    var done := resolved + Ids(([rows[0]] + rest)[..n]);
    IdsOfPrefix(rows[0], rest, n);
    OpenAfterPrefix(rows[1..], resolved, table, q, n - 1);
    OpenAgrees(rows[1..], done, resolved + Ids(rest[..n - 1]), table, q);
    OpenHead(rows, done, table, q);
    assert ([rows[0]] + rest)[n..] == rest[n - 1..];
  }

  lemma IdsAppend<T>(a: seq<Entry<T>>, b: seq<Entry<T>>)
    ensures Ids(a + b) == Ids(a) + Ids(b)
  {
    forall id | id in Ids(a) + Ids(b)
      ensures id in Ids(a + b)
    {
      if id in Ids(a) {
        var i :| 0 <= i < |a| && a[i].analysisId == id;
        assert (a + b)[i] == a[i];
      } else {
        var i :| 0 <= i < |b| && b[i].analysisId == id;
        assert (a + b)[|a| + i] == b[i];
      }
    }
  }

  // ---------------------------------------------------------------------------------------------
  // What the database accepts
  // ---------------------------------------------------------------------------------------------

  /**
   Every row built from a selected analysis passes the trigger and the time check, provided only that the instant
   asked for is not in the future when the row is written.
   */
  lemma BuiltRowsAreAccepted(journal: seq<Entry<Snapshot>>, row: Entry<Snapshot>, table: seq<Observation>,
                             q: Query, ids: Identifiers, now: int)
    requires row in journal && Wanted(row.content, table, q)
    ensures ResolutionAllowed(journal, ValueOf(row, table, q, ids), now) <==> q.asOf <= now
  {
    hide EvaluateMarketOutcome, TriggerExpects, InRange, OutOfRange, Completed, NotAfter;
    var e := ValueOf(row, table, q, ids);
    LatestIsNewest(table, row.content.matchId, q.asOf);
    SettledIsExpected(row.content.market, e.content.payload.scores);
    var i :| 0 <= i < |journal| && journal[i] == row;
    assert TriggerAccepts(row.content, e.content);
  }

  /**
   Whoever writes it, a settled resolution that the database admits rests on an analysis of the journal, came after its
   kickoff, and has the outcome the code would give, or one the code would void for its half-time scores alone.
   */
  lemma AdmittedOutcomesAreTrue(journal: seq<Entry<Snapshot>>, e: Entry<Resolution>, now: int)
    requires ResolutionAllowed(journal, e, now) && e.content.outcome != Unsettled
    ensures exists row ::
              && row in journal && row.analysisId == e.analysisId
              && row.content.matchId == e.content.matchId && row.content.market == e.content.market
              && row.content.kickoffAt <= e.content.availableAt <= e.content.resolvedAt <= now
              && row.content.kickoffAt < e.content.resolvedAt
    ensures var (outcome, scores) := (EvaluateMarketOutcome(e.content.market, e.content.payload.scores),
                                      e.content.payload.scores);
            || outcome == e.content.outcome
            || (&& outcome == Unsettled && IsDoubleChance(e.content.market)
                && (OutOfRange(scores.halfHome) || OutOfRange(scores.halfAway)))
  {
    hide EvaluateMarketOutcome, TriggerExpects, InRange, OutOfRange;
    var r := e.content;
    var i :| 0 <= i < |journal| && journal[i].analysisId == e.analysisId && TriggerAccepts(journal[i].content, r);
    assert journal[i] in journal;
    DisagreementIsExact(r.market, r.payload.scores);
    if EvaluateMarketOutcome(r.market, r.payload.scores) != r.outcome {
      ImplausibleHalfIsVoid(r.market, r.payload.scores);
    }
  }

  lemma ImplausibleHalfIsVoid(m: Market, s: Scores)
    requires OutOfRange(s.halfHome) || OutOfRange(s.halfAway)
    ensures EvaluateMarketOutcome(m, s) == Unsettled
  {
  }

  /**
   The outcome is decided by one observation, the latest one known at the instant: settled by its scores when it was
   published at or after the journalled kickoff and its match follows the analysis, void otherwise. The row repeats what
   was journalled and what was observed.
   */
  lemma NewestObservationDecides(row: Entry<Snapshot>, table: seq<Observation>, q: Query, ids: Identifiers)
    requires Wanted(row.content, table, q)
    ensures var (s, e) := (row.content, ValueOf(row, table, q, ids));
            var r := e.content;
            exists o ::
              && IsLatest(o, table, s.matchId, q.asOf) && o.status in {"FT", "AET", "PEN"}
              && r.availableAt == o.availableAt && r.rawHash == o.rawHash
              && r.outcome == (if s.kickoffAt <= o.availableAt && s.analysisTime < o.kickoffAt
                               then EvaluateMarketOutcome(s.market, o.scores) else Unsettled)
              && e.analysisId == row.analysisId && r.matchId == s.matchId && r.market == s.market
              && r.resolvedAt == q.asOf && r.payload.matchKickoffAt == o.kickoffAt && r.payload.scores == o.scores
              && r.payload.status == o.status
              && (r.payload.temporalMismatch <==> o.availableAt < s.kickoffAt || o.kickoffAt <= s.analysisTime)
  {
    hide EvaluateMarketOutcome, OutOfRange, IsLatest, LatestAsOf;
    LatestIsNewest(table, row.content.matchId, q.asOf);
  }

  /**
   What a batch asks for, on the fields: a kickoff before the instant and in the window, and a match whose latest
   observation known at the instant is over.
   */
  lemma WantedExactly(s: Snapshot, table: seq<Observation>, q: Query)
    requires DistinctTimes(table)
    ensures Wanted(s, table, q) <==>
            && s.kickoffAt < q.asOf
            && (q.startsAt.Some? ==> q.startsAt.value <= s.kickoffAt)
            && (q.endsAt.Some? ==> s.kickoffAt < q.endsAt.value)
            && exists o :: IsLatest(o, table, s.matchId, q.asOf) && o.status in {"FT", "AET", "PEN"}
  {
    hide IsLatest, LatestAsOf, DistinctTimes;
    LatestIsNewest(table, s.matchId, q.asOf);
    if o :| IsLatest(o, table, s.matchId, q.asOf) && o.status in {"FT", "AET", "PEN"} {
      LatestExactly(table, s.matchId, q.asOf, o);
    }
  }

  /** The order of a batch, on the fields: by kickoff, and by analysis id among equal kickoffs. */
  lemma PendingIsOrdered(db: Database, table: seq<Observation>, q: Query, i: nat, j: nat)
    requires UniqueRows(db.journal) && i < j < |Pending(db, table, q)|
    ensures var (a, b) := (Pending(db, table, q)[i], Pending(db, table, q)[j]);
            || a.content.kickoffAt < b.content.kickoffAt
            || (a.content.kickoffAt == b.content.kickoffAt && a.analysisId < b.analysisId)
  {
    hide Pending;
    PendingIsExact(db, table, q);
  }

  /** Whatever is stored later changes no batch: only rows known at the instant asked for matter. */
  lemma BatchLooksBackOnly(db: Database, a: seq<Observation>, b: seq<Observation>, q: Query, limit: nat,
                           ids: Identifiers)
    requires DistinctTimes(a) && SameKnown(a, b, q.asOf)
    ensures Batch(db, a, q, limit, ids) == Batch(db, b, q, limit, ids)
  {
    forall s
      ensures Wanted(s, a, q) <==> Wanted(s, b, q)
      ensures LatestAsOf(a, s.matchId, q.asOf) == LatestAsOf(b, s.matchId, q.asOf)
    {
      NoLookAhead(a, b, s.matchId, q.asOf);
    }
    OpenSame(Ordered(db.journal), Ids(db.resolutions), a, b, q);
    OpenIsWanted(Ordered(db.journal), Ids(db.resolutions), a, q);
  }

  lemma {:induction false} OpenSame(rows: seq<Entry<Snapshot>>, resolved: set<nat>, a: seq<Observation>,
                                    b: seq<Observation>, q: Query)
    requires forall s :: Wanted(s, a, q) <==> Wanted(s, b, q)
    ensures Open(rows, resolved, a, q) == Open(rows, resolved, b, q)
  {
    hide Wanted;
    if rows != [] { OpenSame(rows[1..], resolved, a, b, q); }
  }

  // ---------------------------------------------------------------------------------------------
  // One batch, and any run of batches
  // ---------------------------------------------------------------------------------------------

  /** Distinct analyses never share a resolution hash. */
  ghost predicate CollisionFree(ids: Identifiers) {
    forall a: nat, o, t, p, h: nat, a': nat, o', t', p', h': nat ::
      ids.resolutionHash(a, o, t, p, h) == ids.resolutionHash(a', o', t', p', h') ==> a == a'
  }

  ghost predicate Stamped(e: Entry<Resolution>, ids: Identifiers) {
    e.immutableHash == Stamp(e.analysisId, e.content, ids)
  }

  /** As every run leaves the tables: unique rows, each resolution of a journalled analysis and with its own hash. */
  ghost predicate Sane(db: Database, ids: Identifiers) {
    && UniqueRows(db.journal) && UniqueRows(db.resolutions)
    && Ids(db.resolutions) <= Ids(db.journal)
    && forall e :: e in db.resolutions ==> Stamped(e, ids)
  }

  lemma StampsDiffer(a: Entry<Resolution>, b: Entry<Resolution>, ids: Identifiers)
    requires CollisionFree(ids) && Stamped(a, ids) && Stamped(b, ids) && a.analysisId != b.analysisId
    ensures a.immutableHash != b.immutableHash
  {
  }

  lemma StampedAreUnique(rows: seq<Entry<Resolution>>, ids: Identifiers)
    requires CollisionFree(ids) && DistinctIds(rows) && forall e :: e in rows ==> Stamped(e, ids)
    ensures UniqueRows(rows)
  {
    hide CollisionFree, Stamped;
    forall i, j | 0 <= i < j < |rows|
      ensures rows[i].immutableHash != rows[j].immutableHash
    {
      StampsDiffer(rows[i], rows[j], ids);
    }
  }

  lemma ValuesKeepIds(rows: seq<Entry<Snapshot>>, table: seq<Observation>, q: Query, ids: Identifiers)
    requires AllWanted(rows, table, q)
    ensures Ids(Values(rows, table, q, ids)) == Ids(rows)
    ensures forall v :: v in Values(rows, table, q, ids) ==> Stamped(v, ids)
    ensures DistinctIds(rows) ==> DistinctIds(Values(rows, table, q, ids))
  {
    hide Wanted, EvaluateMarketOutcome;
    var values := Values(rows, table, q, ids);
    assert forall i :: 0 <= i < |rows| ==>
      values[i] == ValueOf(rows[i], table, q, ids) && values[i].analysisId == rows[i].analysisId;
    forall id
      ensures id in Ids(values) <==> id in Ids(rows)
    {
      if id in Ids(rows) {
        var i :| 0 <= i < |rows| && rows[i].analysisId == id;
        assert values[i].analysisId == id;
      }
    }
  }

  ghost predicate Served(db: Database, table: seq<Observation>, q: Query, n: nat, ids: Identifiers, db': Database)
    requires AllWanted(Pending(db, table, q), table, q)
  {
    && db'.journal == db.journal
    && db'.resolutions == db.resolutions + Values(Take(Pending(db, table, q), n), table, q, ids)
  }

  lemma BatchIsAccepted(
    db: Database, rows: seq<Entry<Snapshot>>, table: seq<Observation>, q: Query, now: int, ids: Identifiers)
    requires AllWanted(rows, table, q) && q.asOf <= now && forall r :: r in rows ==> r in db.journal
    ensures forall v :: v in Values(rows, table, q, ids) ==> ResolutionAllowed(db.journal, v, now)
  {
    hide Wanted, ResolutionAllowed, ValueOf;
    var values := Values(rows, table, q, ids);
    forall v | v in values
      ensures ResolutionAllowed(db.journal, v, now)
    {
      var i :| 0 <= i < |values| && values[i] == v;
      assert rows[i] in rows;
      BuiltRowsAreAccepted(db.journal, rows[i], table, q, ids, now);
    }
  }

  /** The rows of a batch clash with nothing, are all accepted, and leave the tables sane. */
  lemma BatchIsInserted(db: Database, rows: seq<Entry<Snapshot>>, table: seq<Observation>, q: Query, now: int,
                        ids: Identifiers)
    requires Sane(db, ids) && CollisionFree(ids) && q.asOf <= now && AllWanted(rows, table, q) && DistinctIds(rows)
    requires forall r :: r in rows ==> r in db.journal && r.analysisId !in Ids(db.resolutions)
    ensures var values := Values(rows, table, q, ids);
            && InsertResolutions(db, values, now)
               == Reply(db.(resolutions := db.resolutions + values), Ok(WriteSummary(|values|, |values|, 0)))
            && Sane(db.(resolutions := db.resolutions + values), ids)
  {
    hide Wanted, AllWanted, CollisionFree, ResolutionAllowed, Values, Stamped, DistinctIds, UniqueRows, InsertAll, Ids;
    var values := Values(rows, table, q, ids);
    ValuesKeepIds(rows, table, q, ids);
    BatchIsAccepted(db, rows, table, q, now, ids);
    IdsAppend(db.resolutions, values);
    UniqueHaveDistinctIds(db.resolutions);
    FreshIdsStayDistinct(db.resolutions, rows, values);
    StampedAreUnique(db.resolutions + values, ids);
    InsertFresh(db.resolutions, values);
    IdsWithin(rows, db.journal);
  }

  lemma UniqueHaveDistinctIds<T>(rows: seq<Entry<T>>)
    requires UniqueRows(rows)
    ensures DistinctIds(rows)
  {
  }

  lemma IdsWithin<T>(a: seq<Entry<T>>, b: seq<Entry<T>>)
    requires forall r :: r in a ==> r in b
    ensures Ids(a) <= Ids(b)
  {
    forall id | id in Ids(a)
      ensures id in Ids(b)
    {
      var i :| 0 <= i < |a| && a[i].analysisId == id;
      assert a[i] in a;
    }
  }

  lemma FreshIdsStayDistinct(old': seq<Entry<Resolution>>, rows: seq<Entry<Snapshot>>, values: seq<Entry<Resolution>>)
    requires DistinctIds(old') && DistinctIds(values) && Ids(values) == Ids(rows)
    requires forall r :: r in rows ==> r.analysisId !in Ids(old')
    ensures DistinctIds(old' + values)
  {
    forall i, j | 0 <= i < |old'| && 0 <= j < |values|
      ensures old'[i].analysisId != values[j].analysisId
    {
      assert values[j].analysisId in Ids(rows);
      var k :| 0 <= k < |rows| && rows[k].analysisId == values[j].analysisId;
      assert rows[k] in rows && old'[i].analysisId in Ids(old');
    }
  }

  /**
   One call resolves exactly min(limit, pending) analyses, the first in order, and leaves exactly the others pending.
   */
  lemma BatchTakesPrefix(db: Database, table: seq<Observation>, q: Query, limit: int, now: int, ids: Identifiers)
    requires Sane(db, ids) && CollisionFree(ids) && q.asOf <= now && 1 <= limit <= RESOLUTION_LIMIT
    ensures AllWanted(Pending(db, table, q), table, q)
    ensures var reply := ResolveCompleted(db, table, Aware(q.asOf), q.startsAt, q.endsAt, limit, now, ids);
            var pending := Pending(db, table, q);
            var n := if limit < |pending| then limit else |pending|;
            && Served(db, table, q, n, ids, reply.db) && Sane(reply.db, ids)
            && reply.result == Ok(WriteSummary(n, n, 0))
            && Pending(reply.db, table, q) == pending[n..]
  {
    hide Wanted, AllWanted, CollisionFree, Sane, Values, Pending, UniqueRows;
    SaneHasUniqueRows(db, ids);
    OpenIsWantedIn(db, table, q);
    var pending := Pending(db, table, q);
    var n := if limit < |pending| then limit else |pending|;
    assert Take(pending, limit) == Take(pending, n) == pending[..n];
    PrefixIsWanted(pending, n, table, q);
    BatchReplies(db, table, q, limit, now, ids);
    PendingAfterBatch(db, table, q, n, ids);
  }

  lemma OpenIsWantedIn(db: Database, table: seq<Observation>, q: Query)
    ensures AllWanted(Pending(db, table, q), table, q)
  {
    OpenIsWanted(Ordered(db.journal), Ids(db.resolutions), table, q);
  }

  lemma PrefixIsWanted(rows: seq<Entry<Snapshot>>, n: nat, table: seq<Observation>, q: Query)
    requires AllWanted(rows, table, q) && n <= |rows|
    ensures AllWanted(rows[..n], table, q)
  {
    hide Wanted;
  }

  /** The reply to one call: its rows are all inserted. */
  lemma BatchReplies(db: Database, table: seq<Observation>, q: Query, limit: int, now: int, ids: Identifiers)
    requires Sane(db, ids) && CollisionFree(ids) && q.asOf <= now && 1 <= limit <= RESOLUTION_LIMIT
    requires AllWanted(Take(Pending(db, table, q), limit), table, q)
    ensures UniqueRows(db.resolutions)
    ensures var values := Values(Take(Pending(db, table, q), limit), table, q, ids);
            var db' := db.(resolutions := db.resolutions + values);
            && ResolveCompleted(db, table, Aware(q.asOf), q.startsAt, q.endsAt, limit, now, ids)
               == Reply(db', Ok(WriteSummary(|values|, |values|, 0)))
            && Sane(db', ids)
  {
    hide Wanted, AllWanted, Before, CollisionFree, Sane, InsertResolutions, Values, Pending, Sorted, UniqueRows;
    SaneHasUniqueRows(db, ids);
    PendingIsExact(db, table, q);
    var rows := Take(Pending(db, table, q), limit);
    var values := Values(rows, table, q, ids);
    BatchIsInserted(db, rows, table, q, now, ids);
    assert Batch(db, table, q, limit, ids) == values;
    if values == [] {
      assert db.resolutions + values == db.resolutions;
    }
  }

  /** What is pending once the first n pending analyses are resolved. */
  lemma PendingAfterBatch(db: Database, table: seq<Observation>, q: Query, n: nat, ids: Identifiers)
    requires UniqueRows(db.journal) && n <= |Pending(db, table, q)|
    requires AllWanted(Pending(db, table, q)[..n], table, q)
    ensures var pending := Pending(db, table, q);
            var values := Values(pending[..n], table, q, ids);
            Pending(db.(resolutions := db.resolutions + values), table, q) == pending[n..]
  {
    hide Wanted, AllWanted, Before, Values, Open, Ordered, Ids, Sorted;
    OrderedIsSorted(db.journal);
    UniqueHaveDistinctIds(db.journal);
    var rows := Pending(db, table, q)[..n];
    var values := Values(rows, table, q, ids);
    ValuesKeepIds(rows, table, q, ids);
    IdsAppend(db.resolutions, values);
    OpenAfterPrefix(Ordered(db.journal), Ids(db.resolutions), table, q, n);
  }

  lemma SaneHasUniqueRows(db: Database, ids: Identifiers)
    requires Sane(db, ids)
    ensures UniqueRows(db.journal) && UniqueRows(db.resolutions)
  {
  }

  /** What a call refuses: an instant without a zone, and a limit outside 1..200. It then changes nothing. */
  lemma RefusesExactly(db: Database, table: seq<Observation>, asOf: Instant, startsAt: Option<int>, endsAt: Option<int>,
                       limit: int, now: int, ids: Identifiers)
    requires UniqueRows(db.resolutions)
    ensures var reply := ResolveCompleted(db, table, asOf, startsAt, endsAt, limit, now, ids);
            && (reply.result == Err(NaiveTime) <==> asOf.Naive?)
            && (reply.result == Err(LimitOutOfRange) <==> asOf.Aware? && !(1 <= limit <= 200))
            && (reply.result.Err? ==> reply.db == db)
            && reply.db.journal == db.journal && db.resolutions <= reply.db.resolutions
  {
    hide Batch, ResolutionAllowed, InsertAll, UniqueRows;
    if asOf.Aware? && 1 <= limit <= 200 {
      InsertAppends(db.resolutions, Batch(db, table, Query(asOf.at, startsAt, endsAt), limit, ids));
    }
  }

  datatype Call = Call(limit: int, now: int)

  ghost predicate GoodCalls(calls: seq<Call>, q: Query) {
    forall c :: c in calls ==> 1 <= c.limit <= RESOLUTION_LIMIT && q.asOf <= c.now
  }

  /** A run of calls at one instant over one table of observations. */
  ghost function Drain(db: Database, table: seq<Observation>, q: Query, calls: seq<Call>, ids: Identifiers): Database
    requires Sane(db, ids) && CollisionFree(ids) && GoodCalls(calls, q)
    decreases |calls|
  {
    if calls == [] then db
    else
      assert calls[0] in calls;
      BatchTakesPrefix(db, table, q, calls[0].limit, calls[0].now, ids);
      Drain(ResolveCompleted(db, table, Aware(q.asOf), q.startsAt, q.endsAt, calls[0].limit, calls[0].now, ids).db,
            table, q, calls[1..], ids)
  }

  function TotalLimit(calls: seq<Call>): int {
    if calls == [] then 0 else calls[0].limit + TotalLimit(calls[1..])
  }

  /**
   However the work is cut into calls, the table ends with the resolutions one pass over the first `TotalLimit`
   pending analyses would write, in the same order, and the rest stays pending.
   */
  lemma {:induction false} DrainIsOnePass(db: Database, table: seq<Observation>, q: Query, calls: seq<Call>,
                                          ids: Identifiers)
    requires Sane(db, ids) && CollisionFree(ids) && GoodCalls(calls, q)
    ensures TotalLimit(calls) >= |calls| && AllWanted(Pending(db, table, q), table, q)
    ensures var end := Drain(db, table, q, calls, ids);
            var pending := Pending(db, table, q);
            && Served(db, table, q, TotalLimit(calls), ids, end) && Sane(end, ids)
            && Pending(end, table, q) == (if TotalLimit(calls) < |pending| then pending[TotalLimit(calls)..] else [])
    decreases |calls|
  {
    hide Wanted, AllWanted, CollisionFree, Sane, ResolveCompleted, Pending, Values, Served, UniqueRows;
    OpenIsWantedIn(db, table, q);
    if calls == [] {
      ServesNothing(db, table, q, ids);
    } else {
      var (first, rest) := (calls[0], calls[1..]);
      assert first in calls && GoodCalls(rest, q);
      SaneHasUniqueRows(db, ids);
      BatchTakesPrefix(db, table, q, first.limit, first.now, ids);
      var next := ResolveCompleted(db, table, Aware(q.asOf), q.startsAt, q.endsAt, first.limit, first.now, ids).db;
      var pending := Pending(db, table, q);
      var n := if first.limit < |pending| then first.limit else |pending|;
      DrainIsOnePass(next, table, q, rest, ids);
      var end := Drain(next, table, q, rest, ids);
      ServesInTurn(db, table, q, n, next, TotalLimit(rest), end, ids);
      ServesAtMostAll(db, table, q, n + TotalLimit(rest), TotalLimit(calls), end, ids);
    }
  }

  lemma ServesNothing(db: Database, table: seq<Observation>, q: Query, ids: Identifiers)
    requires AllWanted(Pending(db, table, q), table, q)
    ensures Served(db, table, q, 0, ids, db)
  {
    hide Wanted, Pending;
    assert Take(Pending(db, table, q), 0) == [];
    assert db.resolutions + Values(Take(Pending(db, table, q), 0), table, q, ids) == db.resolutions;
  }

  /** Serving n analyses and then m of those left is serving n + m. */
  lemma ServesInTurn(db: Database, table: seq<Observation>, q: Query, n: nat, next: Database, m: nat, end: Database,
                     ids: Identifiers)
    requires AllWanted(Pending(db, table, q), table, q) && AllWanted(Pending(next, table, q), table, q)
    requires n <= |Pending(db, table, q)| && Pending(next, table, q) == Pending(db, table, q)[n..]
    requires Served(db, table, q, n, ids, next) && Served(next, table, q, m, ids, end)
    ensures Served(db, table, q, n + m, ids, end)
  {
    hide Wanted, AllWanted, Pending, Values;
    ValuesSplit(Pending(db, table, q), n, m, table, q, ids);
  }

  /** Beyond what is pending, how many were asked for makes no difference. */
  lemma ServesAtMostAll(db: Database, table: seq<Observation>, q: Query, n: nat, m: nat, end: Database,
                        ids: Identifiers)
    requires AllWanted(Pending(db, table, q), table, q) && Served(db, table, q, n, ids, end)
    requires n == m || (n >= |Pending(db, table, q)| && m >= |Pending(db, table, q)|)
    ensures Served(db, table, q, m, ids, end)
  {
    hide Wanted, AllWanted, Pending, Values;
    var pending := Pending(db, table, q);
    assert Take(pending, n) == Take(pending, m);
  }

  lemma ValuesSplit(rows: seq<Entry<Snapshot>>, n: nat, m: nat, table: seq<Observation>, q: Query, ids: Identifiers)
    requires AllWanted(rows, table, q) && n <= |rows|
    ensures Values(Take(rows, n), table, q, ids) + Values(Take(rows[n..], m), table, q, ids)
            == Values(Take(rows, n + m), table, q, ids)
  {
    hide Wanted, ValueOf;
  }

  /** Enough calls resolve everything, and any two runs of enough calls end with the same tables. */
  lemma {:induction false} EnoughCallsAgree(
    db: Database, table: seq<Observation>, q: Query, calls: seq<Call>, others: seq<Call>, ids: Identifiers)
    requires Sane(db, ids) && CollisionFree(ids) && GoodCalls(calls, q) && GoodCalls(others, q)
    ensures Pending(Drain(db, table, q, calls, ids), table, q) == [] <==> TotalLimit(calls) >= |Pending(db, table, q)|
    ensures Pending(Drain(db, table, q, calls, ids), table, q) == []
            && Pending(Drain(db, table, q, others, ids), table, q) == []
            ==> Drain(db, table, q, calls, ids) == Drain(db, table, q, others, ids)
  {
    hide Wanted, Before, CollisionFree, Stamped, ResolveCompleted, Pending, ValueOf, Drain;
    DrainIsOnePass(db, table, q, calls, ids);
    DrainIsOnePass(db, table, q, others, ids);
  }
}
