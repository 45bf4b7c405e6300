/**
 The journal under any interleaving: observations arrive, analyses are appended, and any number of sessions select
 a batch at one moment and insert it at a later one.
 */
module JournalRuns {
  import opened MarketOutcome
  import opened MatchObservations
  import opened AnalysisJournal
  import opened JournalAppends
  import opened JournalBatches

  /** Rows a session has built for an instant and not yet inserted. */
  datatype Buffer = Buffer(asOf: int, values: seq<Entry<Resolution>>)

  datatype World = World(db: Database, observations: seq<Observation>, buffers: map<nat, Buffer>)

  datatype Event =
    | Observe(o: Observation)
    | Append(opportunity: Opportunity, analysisTime: Instant, at: int)
    | Select(session: nat, query: Query, limit: nat)
    | Flush(session: nat, now: int)

  predicate UniqueTables(db: Database) { UniqueRows(db.journal) && UniqueRows(db.resolutions) }

  function Step(w: World, e: Event, ids: Identifiers): (w': World)
    requires UniqueTables(w.db)
    ensures UniqueTables(w'.db)
  {
    match e
    case Observe(o) => w.(observations := w.observations + [o])
    case Append(opportunity, analysisTime, at) =>
      AppendOnlyAppends(w.db, opportunity, analysisTime, at, ids);
      w.(db := AppendOpportunity(w.db, opportunity, analysisTime, at, ids).db)
    case Select(session, query, limit) =>
      w.(buffers := w.buffers[session := Buffer(query.asOf, Batch(w.db, w.observations, query, limit, ids))])
    case Flush(session, now) =>
      if session !in w.buffers then w
      else
        InsertAppends(w.db.resolutions, w.buffers[session].values);
        w.(db := InsertResolutions(w.db, w.buffers[session].values, now).db, buffers := w.buffers - {session})
  }

  function Run(w: World, events: seq<Event>, ids: Identifiers): (w': World)
    requires UniqueTables(w.db)
    ensures UniqueTables(w'.db)
    decreases |events|
  {
    if events == [] then w else Run(Step(w, events[0], ids), events[1..], ids)
  }

  // ---------------------------------------------------------------------------------------------
  // What every run keeps
  // ---------------------------------------------------------------------------------------------

  /** The row is the one built from a journalled analysis and a completed observation known at its instant. */
  ghost predicate Justified(e: Entry<Resolution>, journal: seq<Entry<Snapshot>>, observations: seq<Observation>,
                            ids: Identifiers) {
    exists row, o ::
      && row in journal && o in observations
      && e == ResolutionValue(row, o, e.content.resolvedAt, ids)
      && KnownBy(o, row.content.matchId, e.content.resolvedAt) && Completed(o)
      && row.content.kickoffAt < e.content.resolvedAt
  }

  ghost predicate AllJustified(rows: seq<Entry<Resolution>>, w: World, ids: Identifiers) {
    forall e :: e in rows ==> Justified(e, w.db.journal, w.observations, ids)
  }

  ghost predicate Inv(w: World, ids: Identifiers) {
    && UniqueTables(w.db)
    && Ids(w.db.resolutions) <= Ids(w.db.journal)
    && StampedSnapshots(w.db.journal, ids) && AllJustified(w.db.resolutions, w, ids)
    && forall s :: s in w.buffers ==> Buffered(w.buffers[s], w, ids)
  }

  ghost predicate Buffered(b: Buffer, w: World, ids: Identifiers) {
    AllJustified(b.values, w, ids) && forall e :: e in b.values ==> e.content.resolvedAt == b.asOf
  }

  /** Nothing already written is changed or removed. */
  ghost predicate Grows(w: World, w': World) {
    w.db.journal <= w'.db.journal && w.db.resolutions <= w'.db.resolutions && w.observations <= w'.observations
  }

  lemma JustifiedLasts(rows: seq<Entry<Resolution>>, w: World, w': World, ids: Identifiers)
    requires AllJustified(rows, w, ids) && Grows(w, w')
    ensures AllJustified(rows, w', ids)
  {
    hide ResolutionValue;
    forall e | e in rows
      ensures Justified(e, w'.db.journal, w'.observations, ids)
    {
      var row, o :| && row in w.db.journal && o in w.observations
                    && e == ResolutionValue(row, o, e.content.resolvedAt, ids)
                    && KnownBy(o, row.content.matchId, e.content.resolvedAt) && Completed(o)
                    && row.content.kickoffAt < e.content.resolvedAt;
      assert row in w'.db.journal && o in w'.observations;
    }
  }

  lemma SelectedAreJustified(w: World, q: Query, limit: nat, ids: Identifiers)
    requires UniqueTables(w.db)
    ensures Buffered(Buffer(q.asOf, Batch(w.db, w.observations, q, limit, ids)), w, ids)
  {
    hide EvaluateMarketOutcome, Completed, NotAfter, Ordered, Before, Open;
    PendingIsExact(w.db, w.observations, q);
    OpenIsWanted(Ordered(w.db.journal), Ids(w.db.resolutions), w.observations, q);
    var rows := Take(Pending(w.db, w.observations, q), limit);
    var values := Batch(w.db, w.observations, q, limit, ids);
    forall e | e in values
      ensures Justified(e, w.db.journal, w.observations, ids) && e.content.resolvedAt == q.asOf
    {
      var i :| 0 <= i < |values| && values[i] == e;
      assert rows[i] in Pending(w.db, w.observations, q);
      LatestIsNewest(w.observations, rows[i].content.matchId, q.asOf);
      var latest := LatestAsOf(w.observations, rows[i].content.matchId, q.asOf);
      assert e == ResolutionValue(rows[i], latest.value, q.asOf, ids);
    }
  }

  lemma InsertedAreJustified(w: World, values: seq<Entry<Resolution>>, now: int, ids: Identifiers)
    requires UniqueTables(w.db) && Ids(w.db.resolutions) <= Ids(w.db.journal)
    requires AllJustified(w.db.resolutions, w, ids) && AllJustified(values, w, ids)
    ensures var db := InsertResolutions(w.db, values, now).db;
            && db.journal == w.db.journal && w.db.resolutions <= db.resolutions && UniqueRows(db.resolutions)
            && AllJustified(db.resolutions, w, ids) && Ids(db.resolutions) <= Ids(db.journal)
  {
    hide ResolutionAllowed, Justified, InsertAll, UniqueRows;
    InsertAppends(w.db.resolutions, values);
    var db := InsertResolutions(w.db, values, now).db;
    forall id | id in Ids(db.resolutions)
      ensures id in Ids(db.journal)
    {
      var i :| 0 <= i < |db.resolutions| && db.resolutions[i].analysisId == id;
      assert db.resolutions[i] in db.resolutions;
      JustifiedHasRow(db.resolutions[i], w, ids);
    }
  }

  lemma JustifiedHasRow(e: Entry<Resolution>, w: World, ids: Identifiers)
    requires Justified(e, w.db.journal, w.observations, ids)
    ensures e.analysisId in Ids(w.db.journal)
  {
  }

  lemma StepKeeps(w: World, e: Event, ids: Identifiers)
    requires Inv(w, ids)
    ensures Inv(Step(w, e, ids), ids) && Grows(w, Step(w, e, ids))
  {
    hide Justified, UniqueRows, AppendOpportunity, InsertResolutions, Batch;
    var w' := Step(w, e, ids);
    match e {
      case Observe(_) =>
      case Append(opportunity, analysisTime, at) =>
        AppendOnlyAppends(w.db, opportunity, analysisTime, at, ids);
        IdsGrow(w.db.journal, w'.db.journal);
      case Select(_, query, limit) =>
        SelectedAreJustified(w, query, limit, ids);
      case Flush(session, now) =>
        if session in w.buffers { InsertedAreJustified(w, w.buffers[session].values, now, ids); }
    }
    JustifiedLasts(w.db.resolutions, w, w', ids);
    forall s | s in w'.buffers
      ensures Buffered(w'.buffers[s], w', ids)
    {
      if s in w.buffers && w'.buffers[s] == w.buffers[s] { JustifiedLasts(w.buffers[s].values, w, w', ids); }
    }
  }

  lemma IdsGrow<T>(a: seq<Entry<T>>, b: seq<Entry<T>>)
    requires a <= b
    ensures Ids(a) <= Ids(b)
  {
    IdsAppend(a, b[|a|..]);
    assert b == a + b[|a|..];
  }

  /**
   In every run each analysis has at most one snapshot and one resolution, the first ones written are never altered,
   and every resolution stored or still buffered is justified.
   */
  lemma {:induction false} RunKeeps(w: World, events: seq<Event>, ids: Identifiers)
    requires Inv(w, ids)
    ensures Inv(Run(w, events, ids), ids) && Grows(w, Run(w, events, ids))
    decreases |events|
  {
    hide Inv, Step, UniqueTables;
    InvHasUniqueTables(w, ids);
    if events != [] {
      StepKeeps(w, events[0], ids);
      RunKeeps(Step(w, events[0], ids), events[1..], ids);
    }
  }

  lemma InvHasUniqueTables(w: World, ids: Identifiers)
    requires Inv(w, ids)
    ensures UniqueTables(w.db)
  {
  }

  // ---------------------------------------------------------------------------------------------
  // What follows for every reachable state
  // ---------------------------------------------------------------------------------------------

  lemma JustifiedIsAccepted(e: Entry<Resolution>, w: World, ids: Identifiers, now: int)
    requires Justified(e, w.db.journal, w.observations, ids) && e.content.resolvedAt <= now
    ensures ResolutionAllowed(w.db.journal, e, now)
  {
    hide EvaluateMarketOutcome, TriggerExpects, Completed;
    var row, o :| && row in w.db.journal && o in w.observations
                  && e == ResolutionValue(row, o, e.content.resolvedAt, ids)
                  && KnownBy(o, row.content.matchId, e.content.resolvedAt) && Completed(o)
                  && row.content.kickoffAt < e.content.resolvedAt;
    SettledIsExpected(row.content.market, o.scores);
    var i :| 0 <= i < |w.db.journal| && w.db.journal[i] == row;
    assert TriggerAccepts(row.content, e.content);
  }

  /**
   Whatever happened since a session selected its batch, inserting it succeeds once its instant has passed, and
   every analysis of the batch is then resolved: by this session, or by one that came first.
   */
  lemma FlushNeverAborts(w: World, session: nat, now: int, ids: Identifiers)
    requires Inv(w, ids) && CollisionFree(ids) && session in w.buffers && w.buffers[session].asOf <= now
    ensures var values := w.buffers[session].values;
            var reply := InsertResolutions(w.db, values, now);
            && reply.result.Ok? && reply.result.value.received == |values|
            && |reply.db.resolutions| == |w.db.resolutions| + reply.result.value.inserted
            && Ids(values) <= Ids(reply.db.resolutions)
  {
    hide ResolutionAllowed, Justified, CollisionFree, UniqueRows, InsertAll, Stamp;
    var values := w.buffers[session].values;
    forall v | v in values
      ensures ResolutionAllowed(w.db.journal, v, now)
    {
      JustifiedIsAccepted(v, w, ids, now);
    }
    InsertAppends(w.db.resolutions, values);
    InsertCovers(w.db.resolutions, values);
    var table := InsertAll(w.db.resolutions, values);
    forall id | id in Ids(values)
      ensures id in Ids(table)
    {
      var i :| 0 <= i < |values| && values[i].analysisId == id;
      assert values[i] in values;
      var j :| 0 <= j < |table| && (table[j].analysisId == id || table[j].immutableHash == values[i].immutableHash);
      assert table[j] in table;
      JustifiedIsStamped(values[i], w, ids);
      JustifiedIsStamped(table[j], w, ids);
      if table[j].analysisId != id { StampsDiffer(table[j], values[i], ids); }
    }
  }

  lemma JustifiedIsStamped(e: Entry<Resolution>, w: World, ids: Identifiers)
    requires Justified(e, w.db.journal, w.observations, ids)
    ensures Stamped(e, ids)
  {
  }

  const EMPTY := World(Database([], []), [], map[])

  /** The world that the first `m` events lead to from empty tables. */
  function Reached(events: seq<Event>, m: nat, ids: Identifiers): World
    requires m <= |events|
  {
    Run(EMPTY, events[..m], ids)
  }

  lemma {:induction false} RunSplits(w: World, a: seq<Event>, b: seq<Event>, ids: Identifiers)
    requires UniqueTables(w.db)
    ensures Run(w, a + b, ids) == Run(Run(w, a, ids), b, ids)
    decreases |a|
  {
    if a == [] {
      assert a + b == b;
    } else {
      assert (a + b)[1..] == a[1..] + b;
      RunSplits(Step(w, a[0], ids), a[1..], b, ids);
    }
  }

  lemma {:induction false} RunOneMore(w: World, events: seq<Event>, e: Event, ids: Identifiers)
    requires UniqueTables(w.db)
    ensures Run(w, events + [e], ids) == Step(Run(w, events, ids), e, ids)
  {
    RunSplits(w, events, [e], ids);
  }

  /** Event `m` is a selection, and the row is one of those it built from what was stored at that moment. */
  ghost predicate SelectedAt(e: Entry<Resolution>, events: seq<Event>, m: nat, ids: Identifiers)
    requires m < |events|
  {
    var w := Reached(events, m, ids);
    events[m].Select? && e in Batch(w.db, w.observations, events[m].query, events[m].limit, ids)
  }

  ghost predicate WasSelected(e: Entry<Resolution>, events: seq<Event>, ids: Identifiers) {
    exists m :: 0 <= m < |events| && SelectedAt(e, events, m, ids)
  }

  lemma SelectionLasts(e: Entry<Resolution>, events: seq<Event>, last: Event, ids: Identifiers)
    requires WasSelected(e, events, ids)
    ensures WasSelected(e, events + [last], ids)
  {
    hide Batch, Run;
    var m :| 0 <= m < |events| && SelectedAt(e, events, m, ids);
    assert (events + [last])[..m] == events[..m];
    assert SelectedAt(e, events + [last], m, ids);
  }

  /** Every resolution, stored or still buffered, was built by a selection of the run from what was stored then. */
  lemma {:induction false} EveryResolutionWasSelected(events: seq<Event>, ids: Identifiers)
    ensures var w := Reached(events, |events|, ids);
            && (forall e :: e in w.db.resolutions ==> WasSelected(e, events, ids))
            && (forall s, e :: s in w.buffers && e in w.buffers[s].values ==> WasSelected(e, events, ids))
    decreases |events|
  {
    hide Run, Batch, WasSelected, UniqueRows, AppendOpportunity, InsertResolutions;
    EmptyIsFine(ids);
    if events == [] {
      EmptyReached(ids);
    } else {
      var (rest, last) := (events[..|events| - 1], events[|events| - 1]);
      EveryResolutionWasSelected(rest, ids);
      assert events == rest + [last] && events[..|events|] == events && rest[..|rest|] == rest == events[..|rest|];
      RunOneMore(EMPTY, rest, last, ids);
      var (w, w') := (Reached(rest, |rest|, ids), Reached(events, |events|, ids));
      assert w' == Step(w, last, ids);
      forall e | e in w'.db.resolutions
        ensures WasSelected(e, events, ids)
      {
        StoredComesFrom(w, last, e, ids);
        SelectionLasts(e, rest, last, ids);
      }
      forall s, e | s in w'.buffers && e in w'.buffers[s].values
        ensures WasSelected(e, events, ids)
      {
        if s in w.buffers && w'.buffers[s] == w.buffers[s] {
          SelectionLasts(e, rest, last, ids);
        } else {
          SelectedLast(e, events, ids);
        }
      }
    }
  }

  lemma EmptyReached(ids: Identifiers)
    ensures Reached([], 0, ids) == EMPTY
  {
  }

  lemma SelectedLast(e: Entry<Resolution>, events: seq<Event>, ids: Identifiers)
    requires events != []
    requires SelectedAt(e, events, |events| - 1, ids)
    ensures WasSelected(e, events, ids)
  {
  }

  /** A step stores only rows that were stored or buffered before it. */
  lemma StoredComesFrom(w: World, last: Event, e: Entry<Resolution>, ids: Identifiers)
    requires UniqueTables(w.db) && e in Step(w, last, ids).db.resolutions
    ensures e in w.db.resolutions || exists s :: s in w.buffers && e in w.buffers[s].values
  {
    hide Batch, UniqueRows, ResolutionAllowed, InsertAll;
    match last {
      case Append(opportunity, analysisTime, at) => AppendOnlyAppends(w.db, opportunity, analysisTime, at, ids);
      case Flush(session, _) =>
        if session in w.buffers { InsertAppends(w.db.resolutions, w.buffers[session].values); }
      case _ =>
    }
  }

  /** Observation `o` decides the row: settled by its scores if it is late enough for the analysis, void otherwise. */
  ghost predicate DecidedBy(e: Entry<Resolution>, row: Entry<Snapshot>, o: Observation) {
    && row.analysisId == e.analysisId && e.content.availableAt == o.availableAt && Completed(o)
    && e.content.outcome == if row.content.kickoffAt <= o.availableAt && row.content.analysisTime < o.kickoffAt
                            then EvaluateMarketOutcome(row.content.market, o.scores) else Unsettled
  }

  /** The latest of the stored observations that were known at the row's instant decides it. */
  ghost predicate DecidedByLatest(e: Entry<Resolution>, row: Entry<Snapshot>, observations: seq<Observation>) {
    exists o :: IsLatest(o, observations, row.content.matchId, e.content.resolvedAt) && DecidedBy(e, row, o)
  }

  /** What a selection builds rests on an unresolved analysis and on the latest observation of its match. */
  lemma SelectedIsDecided(w: World, q: Query, limit: nat, e: Entry<Resolution>, ids: Identifiers)
    requires UniqueTables(w.db) && e in Batch(w.db, w.observations, q, limit, ids)
    ensures e.content.resolvedAt == q.asOf
    ensures exists row ::
              && row in w.db.journal && row.analysisId !in Ids(w.db.resolutions)
              && DecidedByLatest(e, row, w.observations)
  {
    hide EvaluateMarketOutcome, Completed, Ordered, Before, Open, UniqueRows, LatestAsOf, IsLatest;
    PendingIsExact(w.db, w.observations, q);
    OpenIsWanted(Ordered(w.db.journal), Ids(w.db.resolutions), w.observations, q);
    var rows := Take(Pending(w.db, w.observations, q), limit);
    var i :| 0 <= i < |rows| && Batch(w.db, w.observations, q, limit, ids)[i] == e;
    assert rows[i] in Pending(w.db, w.observations, q);
    LatestIsNewest(w.observations, rows[i].content.matchId, q.asOf);
    var latest := LatestAsOf(w.observations, rows[i].content.matchId, q.asOf).value;
    assert IsLatest(latest, w.observations, rows[i].content.matchId, q.asOf) && DecidedBy(e, rows[i], latest);
    assert DecidedByLatest(e, rows[i], w.observations);
  }

  /**
   From empty tables, after any events: the tables are sane, and every resolution was decided, at some selection of the
   run, by the latest observation then stored of what was known at its instant.
   */
  lemma EveryReachableState(events: seq<Event>, ids: Identifiers)
    ensures var w := Reached(events, |events|, ids);
            && Sane(w.db, ids) && StampedSnapshots(w.db.journal, ids)
            && forall e :: e in w.db.resolutions ==>
                 exists m, row ::
                   && 0 <= m < |events| && events[m].Select? && events[m].query.asOf == e.content.resolvedAt
                   && row in w.db.journal
                   && DecidedByLatest(e, row, Reached(events, m, ids).observations)
  {
    hide Run, DecidedByLatest, Batch, Inv, Justified;
    EmptyIsFine(ids);
    assert events[..|events|] == events;
    RunKeeps(EMPTY, events, ids);
    var w := Reached(events, |events|, ids);
    InvIsSane(w, ids);
    EveryResolutionWasSelected(events, ids);
    forall e | e in w.db.resolutions
      ensures exists m, row ::
                && 0 <= m < |events| && events[m].Select? && events[m].query.asOf == e.content.resolvedAt
                && row in w.db.journal
                && DecidedByLatest(e, row, Reached(events, m, ids).observations)
    {
      var m :| 0 <= m < |events| && SelectedAt(e, events, m, ids);
      var past := Reached(events, m, ids);
      SelectedIsDecided(past, events[m].query, events[m].limit, e, ids);
      var row :| row in past.db.journal && DecidedByLatest(e, row, past.observations);
      ReachedGrows(events, m, ids);
      assert row in w.db.journal;
    }
  }

  lemma EmptyIsFine(ids: Identifiers)
    ensures Inv(EMPTY, ids)
  {
  }

  lemma InvIsSane(w: World, ids: Identifiers)
    requires Inv(w, ids)
    ensures Sane(w.db, ids) && StampedSnapshots(w.db.journal, ids)
  {
    hide Justified, UniqueRows;
    forall e | e in w.db.resolutions
      ensures Stamped(e, ids)
    {
      JustifiedIsStamped(e, w, ids);
    }
  }

  lemma ReachedGrows(events: seq<Event>, m: nat, ids: Identifiers)
    requires m <= |events|
    ensures Grows(Reached(events, m, ids), Reached(events, |events|, ids))
  {
    hide Run, Inv, UniqueTables;
    EmptyIsFine(ids);
    assert events[..|events|] == events[..m] + events[m..];
    RunKeeps(EMPTY, events[..m], ids);
    RunSplits(EMPTY, events[..m], events[m..], ids);
    RunKeeps(Run(EMPTY, events[..m], ids), events[m..], ids);
  }

  // ---------------------------------------------------------------------------------------------
  // Conservation
  // ---------------------------------------------------------------------------------------------

  function CountSettled(rows: seq<Entry<Resolution>>): nat {
    if rows == [] then 0 else (if rows[0].content.outcome == Unsettled then 0 else 1) + CountSettled(rows[1..])
  }

  function CountVoid(rows: seq<Entry<Resolution>>): nat {
    if rows == [] then 0 else (if rows[0].content.outcome == Unsettled then 1 else 0) + CountVoid(rows[1..])
  }

  function CountUnresolved(rows: seq<Entry<Snapshot>>, resolved: set<nat>): nat {
    if rows == [] then 0 else (if rows[0].analysisId in resolved then 0 else 1) + CountUnresolved(rows[1..], resolved)
  }

  lemma {:induction false} OutcomesAddUp(rows: seq<Entry<Resolution>>)
    ensures CountSettled(rows) + CountVoid(rows) == |rows|
  {
    if rows != [] { OutcomesAddUp(rows[1..]); }
  }

  lemma IdsHead<T>(rows: seq<Entry<T>>)
    requires rows != []
    ensures Ids(rows) == {rows[0].analysisId} + Ids(rows[1..])
  {
    IdsAppend([rows[0]], rows[1..]);
    assert rows == [rows[0]] + rows[1..];
    assert Ids([rows[0]]) == {rows[0].analysisId} by { assert [rows[0]][0] == rows[0]; }
  }

  lemma {:induction false} DistinctIdsCount<T>(rows: seq<Entry<T>>)
    requires DistinctIds(rows)
    ensures |Ids(rows)| == |rows|
  {
    if rows != [] {
      IdsHead(rows);
      DistinctIdsCount(rows[1..]);
    }
  }

  lemma {:induction false} UnresolvedCount(rows: seq<Entry<Snapshot>>, resolved: set<nat>)
    requires DistinctIds(rows)
    ensures CountUnresolved(rows, resolved) == |Ids(rows) - resolved|
  {
    if rows == [] {
      assert Ids(rows) - resolved == {};
    } else {
      IdsHead(rows);
      UnresolvedCount(rows[1..], resolved);
      var (id, rest) := (rows[0].analysisId, Ids(rows[1..]));
      assert id !in rest;
      if id in resolved {
        assert Ids(rows) - resolved == rest - resolved;
      } else {
        assert Ids(rows) - resolved == {id} + (rest - resolved);
      }
    }
  }

  /** In every reachable state the journal is made of the settled, the void and the unresolved analyses. */
  lemma {:induction false} JournalIsConserved(w: World, events: seq<Event>, ids: Identifiers)
    requires Inv(w, ids)
    ensures var db := Run(w, events, ids).db;
            |db.journal| == CountSettled(db.resolutions) + CountVoid(db.resolutions)
                            + CountUnresolved(db.journal, Ids(db.resolutions))
  {
    hide Run, UniqueRows, DistinctIds, AllJustified;
    RunKeeps(w, events, ids);
    var db := Run(w, events, ids).db;
    UniqueHaveDistinctIds(db.journal);
    UniqueHaveDistinctIds(db.resolutions);
    OutcomesAddUp(db.resolutions);
    DistinctIdsCount(db.resolutions);
    DistinctIdsCount(db.journal);
    UnresolvedCount(db.journal, Ids(db.resolutions));
    assert Ids(db.journal) == Ids(db.resolutions) + (Ids(db.journal) - Ids(db.resolutions));
  }
}
