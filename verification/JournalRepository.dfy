/** The repository object over the two tables. */
module JournalRepository {
  import opened Wrappers
  import opened MatchObservations
  import opened AnalysisJournal

  class KairosJournalRepository {
    var journal: seq<Entry<Snapshot>>
    var resolutions: seq<Entry<Resolution>>
    const ids: Identifiers

    ghost predicate Valid()
      reads this
    {
      UniqueRows(journal) && UniqueRows(resolutions)
    }

    ghost function Tables(): Database
      reads this
    {
      Database(journal, resolutions)
    }

    constructor (ids: Identifiers)
      ensures Valid() && Tables() == Database([], []) && this.ids == ids
    {
      journal, resolutions, this.ids := [], [], ids;
    }

    method AppendOpportunity(o: Opportunity, analysisTime: Instant, now: int)
      returns (r: Result<WriteSummary, JournalError>)
      requires Valid()
      modifies this`journal
      ensures Valid()
      ensures Reply(Tables(), r) == AnalysisJournal.AppendOpportunity(old(Tables()), o, analysisTime, now, ids)
    {
      hide JournalValues, SnapshotAllowed, InsertAll, UniqueRows, Candidates;
      if !o.allowed {
        return Ok(NOTHING_WRITTEN);
      }
      if analysisTime.Naive? || analysisTime.at >= o.kickoffAt {
        return Err(NotPreMatch);
      }
      if Candidates(o) == [] {
        return Ok(NOTHING_WRITTEN);
      }
      var values := JournalValues(o, analysisTime.at, now, ids);
      InsertAppends(journal, values);
      if exists v :: v in values && !SnapshotAllowed(v.content) {
        return Err(ConstraintViolated);
      }
      var table, inserted := InsertRows(journal, values);
      journal := table;
      r := Ok(WriteSummary(|values|, inserted, |values| - inserted));
    }

    method ResolveCompleted(observations: seq<Observation>, asOf: Instant, startsAt: Option<int>, endsAt: Option<int>,
                            limit: int, now: int)
      returns (r: Result<WriteSummary, JournalError>)
      requires Valid()
      modifies this`resolutions
      ensures Valid()
      ensures Reply(Tables(), r)
           == AnalysisJournal.ResolveCompleted(old(Tables()), observations, asOf, startsAt, endsAt, limit, now, ids)
    {
      hide Batch, ResolutionAllowed, InsertAll, UniqueRows;
      if asOf.Naive? {
        return Err(NaiveTime);
      }
      if limit < 1 || limit > RESOLUTION_LIMIT {
        return Err(LimitOutOfRange);
      }
      var db := Database(journal, resolutions);
      var values := Batch(db, observations, Query(asOf.at, startsAt, endsAt), limit, ids);
      if values == [] {
        return Ok(NOTHING_WRITTEN);
      }
      InsertAppends(resolutions, values);
      if exists v :: v in values && !ResolutionAllowed(journal, v, now) {
        return Err(ConstraintViolated);
      }
      var table, inserted := InsertRows(resolutions, values);
      resolutions := table;
      r := Ok(WriteSummary(|values|, inserted, |values| - inserted));
    }
  }
}
