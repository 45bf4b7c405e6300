/** Persisted match observations, and the latest one that was known at an instant. */
module MatchObservations {
  import opened Wrappers
  import opened MarketOutcome

  datatype Observation = Observation(
    matchId: int, fromApiFootball: bool,
    availableAt: int, fetchedAt: int, createdAt: int,
    kickoffAt: int, status: string, scores: Scores, rawHash: nat)

  predicate Completed(o: Observation) { o.status == "FT" || o.status == "AET" || o.status == "PEN" }

  /** Known at `asOf`: available, fetched and persisted by then. */
  predicate Visible(o: Observation, asOf: int) {
    o.fromApiFootball && o.availableAt <= asOf && o.fetchedAt <= asOf && o.createdAt <= asOf
  }

  /** The order of the window function: available, then fetched, then created. */
  predicate Newer(o: Observation, p: Observation) {
    || o.availableAt > p.availableAt
    || (o.availableAt == p.availableAt && o.fetchedAt > p.fetchedAt)
    || (o.availableAt == p.availableAt && o.fetchedAt == p.fetchedAt && o.createdAt > p.createdAt)
  }

  predicate Ranked(o: Observation, matchId: int, asOf: int) { o.matchId == matchId && Visible(o, asOf) }

  /** The row with rank 1 in its match's partition. */
  function LatestAsOf(table: seq<Observation>, matchId: int, asOf: int): Option<Observation> {
    if table == [] then None
    else
      var best := LatestAsOf(table[..|table| - 1], matchId, asOf);
      var o := table[|table| - 1];
      if Ranked(o, matchId, asOf) && (best.None? || Newer(o, best.value)) then Some(o) else best
  }

  // ---------------------------------------------------------------------------------------------
  // What is selected, on the three times alone
  // ---------------------------------------------------------------------------------------------

  /** A row of the match that had been published, fetched and stored by then. */
  predicate KnownBy(o: Observation, matchId: int, asOf: int) {
    && o.matchId == matchId && o.fromApiFootball
    && o.availableAt <= asOf && o.fetchedAt <= asOf && o.createdAt <= asOf
  }

  /** (available, fetched, created) of the one is lexicographically at most that of the other. */
  predicate NotAfter(p: Observation, o: Observation) {
    || p.availableAt < o.availableAt
    || (p.availableAt == o.availableAt
        && (p.fetchedAt < o.fetchedAt || (p.fetchedAt == o.fetchedAt && p.createdAt <= o.createdAt)))
  }

  /** Row `o` of the table was known by then, and no row known by then comes after it. */
  ghost predicate IsLatest(o: Observation, table: seq<Observation>, matchId: int, asOf: int) {
    && o in table && KnownBy(o, matchId, asOf)
    && forall p :: p in table && KnownBy(p, matchId, asOf) ==> NotAfter(p, o)
  }

  /** No two observations of one match share all three times. */
  ghost predicate DistinctTimes(table: seq<Observation>) {
    forall o, p ::
      (&& o in table && p in table && o.matchId == p.matchId
       && o.availableAt == p.availableAt && o.fetchedAt == p.fetchedAt && o.createdAt == p.createdAt)
      ==> o == p
  }

  /** What is selected is the latest row known by then; there is none only if no row of the match was known. */
  lemma {:induction false} LatestIsNewest(table: seq<Observation>, matchId: int, asOf: int)
    ensures var r := LatestAsOf(table, matchId, asOf);
            && (r.Some? ==> IsLatest(r.value, table, matchId, asOf))
            && (r.Some? <==> exists p :: p in table && KnownBy(p, matchId, asOf))
  {
    if table != [] {
      var (rest, o) := (table[..|table| - 1], table[|table| - 1]);
      LatestIsNewest(rest, matchId, asOf);
      assert forall p :: p in table <==> p in rest || p == o;
    }
  }

  /** Where times differ, the selection is exactly the latest row. */
  lemma {:induction false} LatestExactly(table: seq<Observation>, matchId: int, asOf: int, o: Observation)
    requires DistinctTimes(table)
    ensures LatestAsOf(table, matchId, asOf) == Some(o) <==> IsLatest(o, table, matchId, asOf)
  {
    LatestIsNewest(table, matchId, asOf);
    if IsLatest(o, table, matchId, asOf) {
      var r := LatestAsOf(table, matchId, asOf).value;
      assert NotAfter(r, o) && NotAfter(o, r);
    }
  }

  /** Two tables hold the same observations as far as `asOf` can see. */
  ghost predicate SameKnown(a: seq<Observation>, b: seq<Observation>, asOf: int) {
    forall o: Observation :: KnownBy(o, o.matchId, asOf) ==> (o in a <==> o in b)
  }

  /**
   No look-ahead: the selection depends on the rows known by then only, not on later ones nor on the order in which
   any of them were stored.
   */
  lemma {:induction false} NoLookAhead(a: seq<Observation>, b: seq<Observation>, matchId: int, asOf: int)
    requires DistinctTimes(a) && SameKnown(a, b, asOf)
    ensures LatestAsOf(a, matchId, asOf) == LatestAsOf(b, matchId, asOf)
  {
    LatestIsNewest(a, matchId, asOf);
    LatestIsNewest(b, matchId, asOf);
    var (r, q) := (LatestAsOf(a, matchId, asOf), LatestAsOf(b, matchId, asOf));
    if r.Some? {
      assert r.value in b;
      assert q.Some? && q.value in a;
      assert NotAfter(r.value, q.value) && NotAfter(q.value, r.value);
    }
  }

  /** A match is over after ninety minutes, after extra time or after penalties. */
  lemma OverExactly(o: Observation)
    ensures Completed(o) <==> o.status in {"FT", "AET", "PEN"}
  {
  }
}
