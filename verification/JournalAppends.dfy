/** Appending snapshots: what one append writes, and what it finds already written. */
module JournalAppends {
  import opened Wrappers
  import opened AnalysisJournal

  /** Every value is in the table afterwards, or the row it clashed with is. */
  lemma {:induction false} InsertCovers<T>(table: seq<Entry<T>>, values: seq<Entry<T>>)
    requires UniqueRows(table)
    ensures forall v :: v in values ==> Conflicts(InsertAll(table, values), v)
    decreases |values|
  {
    if values != [] {
      var next := if Conflicts(table, values[0]) then table else table + [values[0]];
      assert Conflicts(next, values[0]) by {
        if !Conflicts(table, values[0]) { assert next[|table|] == values[0]; }
      }
      InsertCovers(next, values[1..]);
      InsertAppends(next, values[1..]);
      ConflictsLast(next, InsertAll(next, values[1..]), values[0]);
    }
  }

  lemma ConflictsLast<T>(a: seq<Entry<T>>, b: seq<Entry<T>>, v: Entry<T>)
    requires a <= b && Conflicts(a, v)
    ensures Conflicts(b, v)
  {
    var i :| 0 <= i < |a| && (a[i].analysisId == v.analysisId || a[i].immutableHash == v.immutableHash);
    assert b[i] == a[i];
  }

  /** A snapshot row carries the hash of its own content. */
  ghost predicate StampedSnapshots(rows: seq<Entry<Snapshot>>, ids: Identifiers) {
    forall e :: e in rows ==>
      e.immutableHash == ids.snapshotHash(e.analysisId, e.content.analysisTime, e.content.kickoffAt, e.content.payload)
  }

  /** A snapshot taken of one of the candidates: its match, its kickoff, and the candidate's own analysis. */
  ghost predicate TakenOf(e: Entry<Snapshot>, o: Opportunity, analysisTime: int, now: int, ids: Identifiers) {
    exists c ::
      && (o.primary == Some(c) || c in o.alternatives)
      && e.content.market == c.market && e.content.analysisHash == c.analysisHash && e.content.payload == c.payload
      && e.content.matchId == o.matchId && e.content.kickoffAt == o.kickoffAt
      && e.content.analysisTime == analysisTime && e.content.createdAt == now
      && e.analysisId == ids.analysisId(o.matchId, c.market, c.analysisHash)
  }

  /** What an append adds are snapshots of its candidates, and what it refuses changes nothing. */
  lemma AppendTakesCandidates(db: Database, o: Opportunity, analysisTime: Instant, now: int, ids: Identifiers)
    requires UniqueRows(db.journal)
    ensures var reply := AppendOpportunity(db, o, analysisTime, now, ids);
            && (reply.result == Err(NotPreMatch) <==>
                  o.allowed && (analysisTime.Naive? || o.kickoffAt <= analysisTime.at))
            && (!o.allowed ==> reply == Reply(db, Ok(WriteSummary(0, 0, 0))))
            && (reply.result == Err(ConstraintViolated) <==>
                  && o.allowed && analysisTime.Aware? && analysisTime.at < o.kickoffAt
                  && exists c :: (o.primary == Some(c) || c in o.alternatives)
                                 && (c.market.UnknownMarket? || !(analysisTime.at <= now < o.kickoffAt)))
            && forall e :: e in reply.db.journal && e !in db.journal ==>
                 analysisTime.Aware? && TakenOf(e, o, analysisTime.at, now, ids)
  {
    if o.allowed && analysisTime.Aware? && analysisTime.at < o.kickoffAt {
      var values := JournalValues(o, analysisTime.at, now, ids);
      InsertAppends(db.journal, values);
      var candidates := Candidates(o);
      assert forall c :: c in candidates <==> o.primary == Some(c) || c in o.alternatives;
      forall v | v in values
        ensures TakenOf(v, o, analysisTime.at, now, ids)
      {
        var i :| 0 <= i < |values| && values[i] == v;
        assert candidates[i] in candidates;
      }
      forall c | c in candidates
        ensures JournalValue(o, c, analysisTime.at, now, ids) in values
      {
        var i :| 0 <= i < |candidates| && candidates[i] == c;
        assert values[i] == JournalValue(o, c, analysisTime.at, now, ids);
      }
    }
  }

  /**
   An append never touches the resolutions, and only adds snapshots that were taken and written before kickoff, with
   their own hash.
   */
  lemma AppendOnlyAppends(db: Database, o: Opportunity, analysisTime: Instant, now: int, ids: Identifiers)
    requires UniqueRows(db.journal)
    ensures var reply := AppendOpportunity(db, o, analysisTime, now, ids);
            && reply.db.resolutions == db.resolutions
            && db.journal <= reply.db.journal && UniqueRows(reply.db.journal)
            && (forall e :: e in reply.db.journal && e !in db.journal ==> SnapshotAllowed(e.content))
            && (reply.result.Ok? ==>
                  && reply.result.value.received == reply.result.value.inserted + reply.result.value.duplicate
                  && |reply.db.journal| == |db.journal| + reply.result.value.inserted)
            && (reply.result.Err? ==> reply.db == db)
            && (StampedSnapshots(db.journal, ids) ==> StampedSnapshots(reply.db.journal, ids))
  {
    if o.allowed && analysisTime.Aware? && analysisTime.at < o.kickoffAt {
      var values := JournalValues(o, analysisTime.at, now, ids);
      InsertAppends(db.journal, values);
      assert StampedSnapshots(values, ids);
    }
  }

  // ---------------------------------------------------------------------------------------------
  // The same opportunity again
  // ---------------------------------------------------------------------------------------------

  /** The hashes of different analyses differ. */
  ghost predicate SnapshotCollisionFree(ids: Identifiers) {
    forall a: nat, t, k, p: nat, a': nat, t', k', p': nat ::
      ids.snapshotHash(a, t, k, p) == ids.snapshotHash(a', t', k', p') ==> a == a'
  }

  lemma {:induction false} NothingNew<T>(table: seq<Entry<T>>, values: seq<Entry<T>>)
    requires forall v :: v in values ==> Conflicts(table, v)
    ensures InsertAll(table, values) == table
    decreases |values|
  {
    if values != [] { NothingNew(table, values[1..]); }
  }

  /** A journalled value's analysis is in the table: a clash of hashes is a clash of analyses. */
  lemma ClashIsById(table: seq<Entry<Snapshot>>, v: Entry<Snapshot>, ids: Identifiers)
    requires SnapshotCollisionFree(ids) && StampedSnapshots(table + [v], ids) && Conflicts(table, v)
    ensures exists i :: 0 <= i < |table| && table[i].analysisId == v.analysisId
  {
    var i :| 0 <= i < |table| && (table[i].analysisId == v.analysisId || table[i].immutableHash == v.immutableHash);
    assert (table + [v])[i] == table[i] && (table + [v])[|table|] == v;
    assert table[i] in table + [v] && v in table + [v];
    var (a, b) := (table[i], v);
    assert ids.snapshotHash(a.analysisId, a.content.analysisTime, a.content.kickoffAt, a.content.payload)
        == ids.snapshotHash(b.analysisId, b.content.analysisTime, b.content.kickoffAt, b.content.payload)
        || a.analysisId == b.analysisId;
  }

  /** What a successful append of an allowed opportunity writes: every candidate, or it was there before. */
  lemma EveryCandidateIsJournalled(db: Database, o: Opportunity, analysisTime: int, now: int, ids: Identifiers)
    requires UniqueRows(db.journal) && SnapshotCollisionFree(ids) && StampedSnapshots(db.journal, ids) && o.allowed
    requires AppendOpportunity(db, o, Aware(analysisTime), now, ids).result.Ok?
    ensures var reply := AppendOpportunity(db, o, Aware(analysisTime), now, ids);
            && reply.result.value.received == (if o.primary.Some? then 1 else 0) + |o.alternatives|
            && StampedSnapshots(reply.db.journal, ids)
            && forall c :: c in o.alternatives || o.primary == Some(c) ==>
                 ids.analysisId(o.matchId, c.market, c.analysisHash) in Ids(reply.db.journal)
  {
    hide SnapshotCollisionFree, SnapshotAllowed, UniqueRows, InsertAll;
    var values := JournalValues(o, analysisTime, now, ids);
    var table := InsertAll(db.journal, values);
    InsertAppends(db.journal, values);
    InsertCovers(db.journal, values);
    assert StampedSnapshots(values, ids);
    forall c | c in o.alternatives || o.primary == Some(c)
      ensures ids.analysisId(o.matchId, c.market, c.analysisHash) in Ids(table)
    {
      assert c in Candidates(o);
      var i :| 0 <= i < |Candidates(o)| && Candidates(o)[i] == c;
      assert values[i] in values;
      ClashIsById(table, values[i], ids);
    }
  }

  /**
   Journalling the same opportunity again, at whatever later analysis time, changes nothing: the first snapshot of
   each analysis stands, and every row of the second append is a duplicate.
   */
  lemma ReappendChangesNothing(
    db: Database, o: Opportunity, first: int, now: int, second: Instant, later: int, ids: Identifiers)
    requires UniqueRows(db.journal) && SnapshotCollisionFree(ids) && StampedSnapshots(db.journal, ids)
    requires AppendOpportunity(db, o, Aware(first), now, ids).result.Ok?
    ensures var once := AppendOpportunity(db, o, Aware(first), now, ids).db;
            && UniqueRows(once.journal)
            && var again := AppendOpportunity(once, o, second, later, ids);
               && again.db == once
               && (again.result.Ok? ==> again.result.value.inserted == 0
                                        && again.result.value.duplicate == again.result.value.received)
  {
    hide SnapshotCollisionFree, SnapshotAllowed, UniqueRows, InsertAll, StampedSnapshots;
    AppendOnlyAppends(db, o, Aware(first), now, ids);
    var once := AppendOpportunity(db, o, Aware(first), now, ids).db;
    if o.allowed && second.Aware? {
      EveryCandidateIsJournalled(db, o, first, now, ids);
      var values := JournalValues(o, second.at, later, ids);
      forall v | v in values
        ensures Conflicts(once.journal, v)
      {
        var i :| 0 <= i < |values| && values[i] == v;
        assert Candidates(o)[i] in o.alternatives || o.primary == Some(Candidates(o)[i]);
        assert v.analysisId in Ids(once.journal);
      }
      NothingNew(once.journal, values);
    }
  }
}
