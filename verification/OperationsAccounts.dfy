/** What the metrics of a run say about what its steps returned and raised, read from the attempts themselves. */
module OperationsAccounts {
  import opened Wrappers
  import opened OperationsValues
  import opened DailyOperations

  // ---------------------------------------------------------------------------------------------
  // Which results are kept
  // ---------------------------------------------------------------------------------------------

  /** A funnel balances when what was received is what was retained plus the eight kinds of rejections. */
  lemma BalancedMeans(f: Funnel)
    ensures Balanced(f) <==>
            f[FIXTURES_RECEIVED] ==
            f[RETAINED]
            + f[Rejected(Competition)] + f[Rejected(Season)] + f[Rejected(WrongStatus)] + f[Rejected(KickoffWindow)]
            + f[Rejected(MissingTeams)] + f[Rejected(InsufficientCoverage)] + f[Rejected(DuplicateFixture)]
            + f[Rejected(OtherReason)]
  {
    var fields := FUNNEL_FIELDS;
    assert RejectedIn(f, fields) == RejectedIn(f, fields[2..]) by {
      assert fields[1..][1..] == fields[2..];
    }
    var r := fields[2..];
    assert r == [
      Rejected(Competition), Rejected(Season), Rejected(WrongStatus), Rejected(KickoffWindow),
      Rejected(MissingTeams), Rejected(InsufficientCoverage), Rejected(DuplicateFixture), Rejected(OtherReason)];
    EightRejections(f, r);
  }

  lemma {:induction false} EightRejections(f: Funnel, r: seq<Key>)
    requires r == [
      Rejected(Competition), Rejected(Season), Rejected(WrongStatus), Rejected(KickoffWindow),
      Rejected(MissingTeams), Rejected(InsufficientCoverage), Rejected(DuplicateFixture), Rejected(OtherReason)]
    ensures RejectedIn(f, r) ==
            f[Rejected(Competition)] + f[Rejected(Season)] + f[Rejected(WrongStatus)] + f[Rejected(KickoffWindow)]
            + f[Rejected(MissingTeams)] + f[Rejected(InsufficientCoverage)] + f[Rejected(DuplicateFixture)]
            + f[Rejected(OtherReason)]
  {
    TwoRejections(f, r);
    TwoRejections(f, r[2..]);
    TwoRejections(f, r[4..]);
    TwoRejections(f, r[6..]);
    assert r[2..][2..] == r[4..] && r[4..][2..] == r[6..] && r[6..][2..] == [];
  }

  lemma {:induction false} TwoRejections(f: Funnel, fields: seq<Key>)
    requires |fields| >= 2 && forall k :: k in fields ==> k in FIELD_SET
    requires fields[0].Rejected? && fields[1].Rejected?
    ensures RejectedIn(f, fields) == f[fields[0]] + f[fields[1]] + RejectedIn(f, fields[2..])
  {
    assert fields[1..][1..] == fields[2..];
  }

  /** Two counts and a funnel that tell the same story of a synchronisation. */
  predicate Tells(result: Fields, received: nat, retained: nat, f: Funnel) {
    && Get(result, FIXTURES_RECEIVED) == Int(received) && Get(result, FIXTURES_RETAINED) == Int(retained)
    && Get(result, RETENTION_FUNNEL) == FunnelValue(f)
    && Balanced(f) && f[FIXTURES_RECEIVED] == received && f[RETAINED] == retained
    && Get(result, FIXTURES_IGNORED) in {Null, Int(received - retained)}
  }

  lemma RetainedWithinReceived(f: Funnel)
    requires Balanced(f)
    ensures f[RETAINED] <= f[FIXTURES_RECEIVED]
  {
    hide RejectedIn;
  }

  /** A synchronisation is kept exactly when some funnel that balances is told by all its counts. */
  lemma CoherentExactly(result: Fields)
    ensures SyncCoherent(result) <==> exists received, retained, f :: Tells(result, received, retained, f)
  {
    hide SyncCoherent, Tells;
    if SyncCoherent(result) { CoherentTells(result); }
    if received, retained, f :| Tells(result, received, retained, f) {
      TellingIsCoherent(result, received, retained, f);
    }
  }

  lemma CoherentTells(result: Fields)
    requires SyncCoherent(result)
    ensures SafeRetentionFunnel(Get(result, RETENTION_FUNNEL)).Some?
    ensures var f := SafeRetentionFunnel(Get(result, RETENTION_FUNNEL)).value;
            Tells(result, f[FIXTURES_RECEIVED], f[RETAINED], f)
  {
    hide Balanced, SafeRetentionFunnel, FunnelValue, Get;
    OnlyFunnelsAccepted(Get(result, RETENTION_FUNNEL));
  }

  lemma TellingIsCoherent(result: Fields, received: nat, retained: nat, f: Funnel)
    requires Tells(result, received, retained, f)
    ensures SyncCoherent(result)
  {
    hide Balanced, SafeRetentionFunnel, FunnelValue, Get;
    FunnelRoundTrip(f);
    RetainedWithinReceived(f);
  }

  /**
   Nothing else passes: what is kept of a step is what it returned under keys the code names, and a report keeps
   the six entries of its performance or says that it has no sample.
   */
  lemma OnlyNamedEntriesKept(step: Word, result: Fields, k: Key)
    requires SafeStepMetrics(step, result).Some? && k in SafeStepMetrics(step, result).value
    ensures k.Named?
    ensures var v := SafeStepMetrics(step, result).value[k];
            var performance := Get(result, PERFORMANCE);
            if !IsReport(step) then k in result && v == result[k]
            else if performance.Dict? then v == Get(performance.fields, k)
            else v == if k == SAMPLE_STATUS then Text(NoSampleText) else Int(0)
  {
    hide SafeRetentionFunnel, SyncCoherent, SyncMetrics;
    if IsSync(step) { SyncEntriesKept(result, k); }
  }

  lemma ReportKeepsSixEntries(result: Fields, k: Key)
    requires Get(result, PERFORMANCE).Dict?
    ensures SafeStepMetrics(ReportStep, result).Some?
    ensures k in SafeStepMetrics(ReportStep, result).value <==>
              k in {TOTAL_SNAPSHOTS, RESOLVED, UNRESOLVED, VOID, RESOLVED_SAMPLE_SIZE, SAMPLE_STATUS}
  {
  }

  lemma SyncEntriesKept(result: Fields, k: Key)
    requires SyncCoherent(result) && k in SyncMetrics(result)
    ensures k.Named? && k in result && SyncMetrics(result)[k] == result[k]
  {
    hide SyncCoherent, SyncMetrics;
    SyncMetricsKeepEntries(result);
  }

  // ---------------------------------------------------------------------------------------------
  // What a step adds
  // ---------------------------------------------------------------------------------------------

  /** A synchronisation completes only if its counts are told coherently; any other step, if it returns. */
  predicate Completes(a: Attempt) {
    a.outcome.Returned? && (IsSync(a.step.name) ==> SyncCoherent(a.outcome.result))
  }

  /** How a step's result is labelled, and with which code a failure is reported. */
  lemma OutcomesAreLabelled(a: Attempt)
    ensures var r := ResultOf(a);
            && r.name == a.step.name && r.critical == a.step.critical
            && r.durationMs == (if a.elapsedMs > 0 then a.elapsedMs else 0)
            && (r.Completed? <==> Completes(a))
            && (r.Failed? ==>
                  var code := r.errorCode;
                  && (code == FunnelInvalidCode <==> a.outcome.Returned? || a.outcome.failure == FunnelInvalid)
                  && (code == StepTimeoutCode <==> a.outcome == Raised(TimedOut))
                  && (code == ProviderUnavailableCode <==> a.outcome == Raised(ProviderFailure))
                  && (code == PostgresqlErrorCode <==> BlamesDatabase(a))
                  && (code == InternalErrorCode <==> a.outcome == Raised(AnyOther) && !BlamesDatabase(a)))
  {
    hide SyncCoherent, SyncMetrics, Spelling;
  }

  /** A database error anywhere, or an error of no other kind in a step that works on the database. */
  predicate BlamesDatabase(a: Attempt) {
    || a.outcome == Raised(DatabaseFailure)
    || (a.outcome == Raised(AnyOther) && a.step.name in {SnapshotStep, ResolveStep, ReportStep})
  }

  lemma ProviderCodes(code: Word)
    requires IsStepErrorCode(code)
    ensures "provider_" <= Spelling(code) <==> code == ProviderUnavailableCode
  {
    hide Spelling;
    match code
    case ProviderUnavailableCode => ProviderCodeStarts();
    case _ => OtherCodesStart();
  }

  lemma ProviderCodeStarts()
    ensures "provider_" <= Spelling(ProviderUnavailableCode)
  {
    assert Spelling(ProviderUnavailableCode) == "provider_" + "unavailable";
  }

  lemma OtherCodesStart()
    ensures !("provider_" <= Spelling(FunnelInvalidCode)) && !("provider_" <= Spelling(StepTimeoutCode))
    ensures !("provider_" <= Spelling(PostgresqlErrorCode)) && !("provider_" <= Spelling(InternalErrorCode))
  {
    assert "provider_"[0] == 'p' && "provider_"[1] == 'r';
    assert Spelling(FunnelInvalidCode)[0] == 'r' && Spelling(StepTimeoutCode)[0] == 's';
    assert Spelling(PostgresqlErrorCode)[1] == 'o' && Spelling(InternalErrorCode)[0] == 'd';
  }

  /** The count under a key of what a step of this name returned and had kept, and 0 without one. */
  function Kept(a: Attempt, name: Word, k: Key): nat {
    if Completes(a) && a.step.name == name then Number(a.outcome.result, k) else 0
  }

  function One(b: bool): nat { if b then 1 else 0 }

  /** What the metrics should count of an attempt, by what it returned or raised. */
  function Counts(a: Attempt, k: Key): nat {
    if k == SYNCHRONIZATION_SUCCEEDED then One(IsSync(a.step.name) && Completes(a))
    else if k == SYNCHRONIZATION_FAILED then One(IsSync(a.step.name) && !Completes(a))
    else if k == FIXTURES_RECEIVED || k == FIXTURES_RETAINED then Kept(a, DailyDiscovery, k) + Kept(a, DailyRefresh, k)
    else if k == RESOLUTIONS_CREATED then Kept(a, ResolveStep, INSERTED)
    else if k == PROVIDER_ERROR_COUNT then One(a.outcome == Raised(ProviderFailure))
    else if k == POSTGRESQL_ERROR_COUNT then One(BlamesDatabase(a))
    else if k == REDIS_FAIL_CLOSED_COUNT then 0
    else Kept(a, SnapshotStep, k)
  }

  /** Sanitising keeps each count that the metrics take from a step. */
  lemma SanitisingKeepsCounts(step: Word, result: Fields, k: Key)
    requires SafeStepMetrics(step, result).Some?
    requires || (IsSync(step) && k in {FIXTURES_RECEIVED, FIXTURES_RETAINED})
             || (step == ResolveStep && k == INSERTED)
             || (step == SnapshotStep && k in {MATCHES_EVALUATED, SNAPSHOTS_CREATED, OPPORTUNITIES_GENERATED,
                                               NO_BET_COUNT, INSUFFICIENT_DATA_COUNT})
    ensures Number(SafeStepMetrics(step, result).value, k) == Number(result, k)
  {
    hide SafeRetentionFunnel, Balanced;
    if IsSync(step) { SyncMetricsKeepEntries(result); }
  }

  lemma CompletedCounts(a: Attempt, k: Key)
    requires ResultOf(a).Completed? && k in CounterNames()
    ensures Contribution(ResultOf(a), k) == Counts(a, k)
  {
    hide SafeStepMetrics, Number, SyncCoherent, ResultOf, CounterNames;
    OutcomesAreLabelled(a);
    CompletedMetrics(a);
    var (name, result) := (a.step.name, a.outcome.result);
    if IsSync(name) && k in {FIXTURES_RECEIVED, FIXTURES_RETAINED} {
      SanitisingKeepsCounts(name, result, k);
    } else if name == ResolveStep && k == RESOLUTIONS_CREATED {
      SanitisingKeepsCounts(name, result, INSERTED);
    } else if name == SnapshotStep {
      SnapshotCounts(a, k);
    } else {
      NoOtherCounts(a, k);
    }
  }

  lemma CompletedMetrics(a: Attempt)
    requires ResultOf(a).Completed?
    ensures a.outcome.Returned?
    ensures SafeStepMetrics(a.step.name, a.outcome.result) == Some(ResultOf(a).metrics)
  {
    hide SafeStepMetrics;
  }

  lemma SnapshotCounts(a: Attempt, k: Key)
    requires ResultOf(a).Completed? && a.step.name == SnapshotStep && k in CounterNames()
    ensures Contribution(ResultOf(a), k) == Counts(a, k)
  {
    hide SafeStepMetrics, Number, ResultOf;
    OutcomesAreLabelled(a);
    CompletedMetrics(a);
    if k in {MATCHES_EVALUATED, SNAPSHOTS_CREATED, OPPORTUNITIES_GENERATED, NO_BET_COUNT, INSUFFICIENT_DATA_COUNT} {
      SanitisingKeepsCounts(SnapshotStep, a.outcome.result, k);
    }
  }

  lemma NoOtherCounts(a: Attempt, k: Key)
    requires ResultOf(a).Completed? && a.step.name != SnapshotStep && k in CounterNames()
    requires IsSync(a.step.name) ==> k !in {FIXTURES_RECEIVED, FIXTURES_RETAINED}
    requires a.step.name == ResolveStep ==> k != RESOLUTIONS_CREATED
    ensures Contribution(ResultOf(a), k) == Counts(a, k)
  {
    hide SafeStepMetrics, Number, SyncCoherent, ResultOf;
    OutcomesAreLabelled(a);
  }

  lemma FailedCounts(a: Attempt, k: Key)
    requires ResultOf(a).Failed? && k in CounterNames()
    ensures Contribution(ResultOf(a), k) == Counts(a, k)
  {
    hide SafeStepMetrics, Number, SyncCoherent, Spelling, ResultOf;
    OutcomesAreLabelled(a);
    ResultsAreSound(a);
    ProviderCodes(ResultOf(a).errorCode);
  }

  // ---------------------------------------------------------------------------------------------
  // What a run adds up
  // ---------------------------------------------------------------------------------------------

  /** The sum of the counts of some attempts. */
  function CountsOf(attempts: seq<Attempt>, k: Key): nat {
    if attempts == [] then 0
    else CountsOf(attempts[..|attempts| - 1], k) + Counts(attempts[|attempts| - 1], k)
  }

  lemma {:induction false} ResultsAddUp(results: seq<StepResult>, attempts: seq<Attempt>, k: Key)
    requires |results| == |attempts| && k in CounterNames()
    requires forall i :: 0 <= i < |results| ==> results[i] == ResultOf(attempts[i])
    ensures Sum(results, k) == CountsOf(attempts, k)
  {
    hide ResultOf, Contribution, Counts, CounterNames;
    if results != [] {
      ResultsAddUp(results[..|results| - 1], attempts[..|attempts| - 1], k);
      var a := attempts[|attempts| - 1];
      if ResultOf(a).Completed? { CompletedCounts(a, k); } else { FailedCounts(a, k); }
    }
  }

  /**
   End to end: each counter a run saves is the sum, over the attempts it made, of what they returned or raised. An
   attempt counts as it is, whatever the run made of it in between.
   */
  lemma {:induction false} SavedCountersAreTrue(s: Summary, attempts: seq<Attempt>, id: Identity, k: Key)
    requires SavedBy(s, attempts, id) && k in CounterNames()
    ensures |s.steps| <= |attempts|
    ensures s.metrics.counters[k] == CountsOf(attempts[..|s.steps|], k)
  {
    hide ResultOf, StatusFits, CountsOf, Tally, Sum, CounterNames;
    TallyMeans(s.steps);
    ResultsAddUp(s.steps, attempts[..|s.steps|], k);
  }

  /** The duration kept for a name is that of the last step so called. */
  lemma {:induction false} LastDurationCounts(results: seq<StepResult>, i: nat)
    requires i < |results| && forall j :: i < j < |results| ==> results[j].name != results[i].name
    ensures results[i].name in Durations(results) && Durations(results)[results[i].name] == results[i].durationMs
    decreases |results|
  {
    if i < |results| - 1 { LastDurationCounts(results[..|results| - 1], i); }
  }

  /** A run over the default steps reports the time of each step it tried, and a clock that went back as 0. */
  lemma DefaultDurations(s: Summary, attempts: seq<Attempt>, id: Identity, i: nat)
    requires TriesDefaultSteps(attempts) && SavedBy(s, attempts, id) && i < |s.steps|
    ensures var (name, elapsed) := (DEFAULT_STEPS[i].name, attempts[i].elapsedMs);
            && name in s.metrics.stepDurationMs
            && s.metrics.stepDurationMs[name] == if elapsed > 0 then elapsed else 0
  {
    hide ResultOf, StatusFits, Tally, Durations, Completes;
    TallyMeans(s.steps);
    DefaultNamesDiffer();
    forall j | 0 <= j < |s.steps|
      ensures s.steps[j].name == DEFAULT_STEPS[j].name
    {
      OutcomesAreLabelled(attempts[j]);
    }
    OutcomesAreLabelled(attempts[i]);
    LastDurationCounts(s.steps, i);
  }

  lemma DefaultNamesDiffer()
    ensures forall i, j :: 0 <= i < j < |DEFAULT_STEPS| ==> DEFAULT_STEPS[i].name != DEFAULT_STEPS[j].name
  {
  }
}
