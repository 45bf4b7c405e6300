# Verification model of the Kairos API

A Dafny model of four components of the Python API, with proofs about whole runs of each.

- **Sliding-window rate limiter** (`RateLimiter.dfy`, `RateLimiterClock.dfy`). The Redis sorted set is a map from members
  to admission times with a deadline; calls on any keys and expiries form arbitrary runs with a nondecreasing clock and
  fresh members. The specification it is compared with keeps every admission for ever. What a client can rely on is stated
  on the server's own clock, in the microseconds of its TIME replies.
- **Daily operations** (`OperationsLock.dfy`, `OperationsValues.dfy`, `DailyOperations.dfy`, `OperationsAccounts.dfy`,
  `StatusEncoding.dfy`, `OperationsRun.dfy`, `OperationsSchedule.dfy`, `SavedStatus.dfy`, `StatusReading.dfy`). The lock is a
  state machine over any number of interleaved runs. One run is a method over a guard and a metrics object, for any steps,
  outcomes and durations, and for whatever its events, its clock, Redis or the encoding raise. What it reports is traced
  back to what its steps returned and raised. Saved values are untyped trees, written by the run and re-validated by the
  reader, whatever was stored.
- **Poisson market engine** (`PoissonMarkets.dfy`, `PoissonShares.dfy`, `MarketRounding.dfy`, `ExpectedGoals.dfy`,
  `GoalDirections.dfy`). From match histories to team profiles, signals, rates, distributions, markets and rounded
  probabilities, and which way each figure of a team moves them.
- **Analysis journal** (`MarketOutcome.dfy`, `MatchObservations.dfy`, `AnalysisJournal.dfy`, `JournalAppends.dfy`,
  `JournalBatches.dfy`, `JournalRuns.dfy`, `JournalRepository.dfy`). Two append-only tables, the as-of selection of
  observations, bounded batches, and the database trigger as a second implementation of the outcome rules.

## What the proofs brought out

- The rate limiter's minute is not quite one: the script decides by whole milliseconds, so two admissions can lie 59.999001
  seconds apart although the limit is one (`RateLimiterClock.BothAreAdmitted`). The limit holds in every run for windows of
  up to 59.999001 seconds and for no longer ones (`RateLimiterClock.WindowsExactly`), and for every 60 seconds that start
  on a whole millisecond (`RateLimiterClock.AnyMinuteFromAMillisecond`).
- The trigger does not look at half-time scores for the double-chance markets, while the code voids any analysis with a
  half-time score outside 0..100. The trigger would therefore accept some outcomes the code never writes;
  `MarketOutcome.DisagreementIsExact` says exactly which. Rows the code builds are never affected.
- "Every path past a successful acquire releases once" does not hold. The started event is emitted after the acquire and
  before the `try`; when it raises, no release is attempted and the lock stays until its deadline
  (`OperationsRun.StartedEventLeavesLock`, `OperationsSchedule.LeakedLockKeepsOthersOut`). It holds exactly for the runs
  that come past that event (`OperationsRun.OneReleaseExactly`).
- `save_status` encodes before its guarded call, so a kept value that JSON has no form for ends the run with an exception
  instead of a fail-closed summary. Nothing is saved and the lock is released (`OperationsRun.EscapeSavesNothing`).
- Reading a saved status loses the metrics of a report that carried a performance mapping: the reader looks for the
  nested mapping again in what is already flattened (`SavedStatus.ReportAloneChanges`). Everything else is read back as
  it was saved, provided the text has at most 50000 characters; saving has no such bound
  (`SavedStatus.SavedRunIsReadBack`, `SavedStatus.SomeSavedRunIsRefused`; the shipped discovery keeps only fixed
  statuses and error codes).
- The five default timeouts leave exactly 900 s of overhead before two step loops can overlap
  (`OperationsLock.DefaultStepsNeverOverlap`, `OperationsSchedule.DefaultRunsNeverOverlap`).
- Two rounded shares never use more than the whole. For the shares the engine computes, which are all positive, any
  rounding to the nearest would do (`MarketRounding.AnyNearestWillDo`); only if the third share were zero would ties to
  even matter (`MarketRounding.TiesMatterAtZero`).
- The trigger and the time check refuse a selected batch only if its instant is in the future
  (`JournalBatches.BuiltRowsAreAccepted`).

## Assumptions

One nondecreasing Redis clock and fresh members and tokens. `exp` is any positive function; lemmas that need it to rise,
or exp(x) exp(-x) to be one, say so (`Rising`). Identifiers and hashes are
arbitrary functions; lemmas that need distinct analyses to have distinct hashes say so (`CollisionFree`,
`SnapshotCollisionFree`). Observations of one match differ in one of their three times where the order of storage must not
matter (`DistinctTimes`), since the SQL leaves ties open.

## Model

| member | source | states |
|---|---|---|
| RateLimiter.PruningAndExpiryChangeNothing | apps/api/app/modules/kairos/rate_limit.py:25-41 | for every timed run from an empty Redis, with expiry at any moment after the deadline, the pruned and expiring set makes exactly the decisions of a log that keeps every admission for ever and counts those newer than the window |
| RateLimiter.WindowGuarantee | apps/api/app/modules/kairos/rate_limit.py:25-41 | in every run and for every instant t, call times or not, at most `limit` admissions of one key lie in (t - 60000 ms, t] |
| RateLimiter.RunKeeps | apps/api/app/modules/kairos/rate_limit.py:27-40 | the invariant of every reachable state: the set has lost nothing of the log that could still count, and no window of the log is overfull |
| RateLimiter.StepKeeps | apps/api/app/modules/kairos/rate_limit.py:27-40 | one call or one expiry keeps the set faithful to the log of a key; other keys and denied calls leave that log alone |
| RateLimiter.VerdictAgrees | apps/api/app/modules/kairos/rate_limit.py:27-29 | a call is admitted if and only if fewer than `limit` logged admissions lie in its window |
| RateLimiter.ErasureChangesNothing | apps/api/app/modules/kairos/rate_limit.py:28-41 | erasing any choice of denied calls, calls on other keys and expiries leaves every remaining verdict on the key, waits included, unchanged |
| RateLimiter.BurstAdmitsFirstLimit | apps/api/app/modules/kairos/rate_limit.py:28-41 | n calls at one instant on an empty key: the first `limit` are admitted and no other |
| RateLimiter.OldestReopens | apps/api/app/modules/kairos/rate_limit.py:30-34 | a full window has room again exactly when its oldest admission leaves it |
| RateLimiter.TightOnOneLog | apps/api/app/modules/kairos/rate_limit.py:30-36 | for two states standing for the same log, the later call is admitted if and only if it comes at or after now + retry_ms of the denial |
| RateLimiter.RetryIsTight | apps/api/app/modules/kairos/rate_limit.py:30-36 | in every run: after a denial and any stretch without an admission, a call is admitted if and only if it comes at or after now + retry_ms; the wait is 1 to 60000 ms |
| RateLimiter.SecondsSuffice | apps/api/app/modules/kairos/rate_limit.py:113-119 | the seconds returned cover the wait, one second less would not, and clamping to 1..60 never shortens it |
| RateLimiter.SecondsAreTight | apps/api/app/modules/kairos/rate_limit.py:83-119 | in every run: after a denial and any stretch without an admission, a call that waits the seconds returned is admitted, and one that waits a second less, or not as long, is denied |
| RateLimiter.ClockRoundsDown | apps/api/app/modules/kairos/rate_limit.py:20-21 | the script decides by the whole milliseconds of the Redis TIME reply, rounded down |
| RateLimiter.OnlyPairsAreDecisions | apps/api/app/modules/kairos/rate_limit.py:164-175 | a reply counts as a decision if and only if it is a pair of integers with 0 or 1 first and a wait that is not negative |
| RateLimiterClock.AnyMinuteFromAMillisecond | apps/api/app/modules/kairos/rate_limit.py:19-42 | stated on TIME replies: in every run, any 60 seconds of server time that start on a whole millisecond hold at most `limit` admissions of one key |
| RateLimiterClock.WindowsExactly | apps/api/app/modules/kairos/rate_limit.py:19-42 | stated on TIME replies: every window of a length holds at most `limit` admissions in every run if and only if the length is at most 59.999001 s; the rounding to milliseconds costs the rest of the minute |
| RateLimiterClock.BothAreAdmitted | apps/api/app/modules/kairos/rate_limit.py:21-25 | the failing input: with a limit of one, calls at 0.000999 s and at 60.000000 s are both admitted |
| RateLimiterClock.ClientsCanRelyOnSeconds | apps/api/app/modules/kairos/rate_limit.py:83-119 | stated on TIME replies: after a denial and any stretch without an admission, a call at least the returned 1 to 60 seconds later is admitted, and one a second short of them is denied |
| RateLimiter.KeysAreSeparate | apps/api/app/modules/kairos/rate_limit.py:74-92 | a colon-free scope makes Redis keys injective in scope and client digest |
| RateLimiter.RedisServer.Eval | apps/api/app/modules/kairos/rate_limit.py:19-42 | the script, statement by statement, refines one step of the state machine at the whole milliseconds of the TIME reply, and its reply parses to that verdict |
| RateLimiter.RedisServer.DropExpired | apps/api/app/modules/kairos/rate_limit.py:35-40 | a key goes only at or after the deadline PEXPIRE set |
| RateLimiter.SlidingWindowRateLimiter.Create | apps/api/app/modules/kairos/rate_limit.py:66-81 | an empty or colon-bearing scope and a limit below one are refused |
| RateLimiter.SlidingWindowRateLimiter.RetryAfter | apps/api/app/modules/kairos/rate_limit.py:83-119 | None on admission, else the wait in seconds; an error when not configured, not reached, or the answer is lost after the script ran |
| OperationsLock.LockSurvivesOthers | apps/api/app/cli/daily_operations.py:40-45 | in every interleaving, late and crashed runs included, a held lock survives until its deadline unless its own holder releases it |
| OperationsLock.StepKeepsExclusive | apps/api/app/cli/daily_operations.py:119-145 | every acquire, step, release, crash and expiry keeps: a looping run holds the key, and its age is covered by its finished steps and its overhead |
| OperationsLock.ExclusiveThroughout | apps/api/app/cli/daily_operations.py:119-145 | whenever timeouts plus slack fit the time to live, every interleaving of punctual runs keeps step loops exclusive |
| OperationsLock.OverlapWhenTooSlow | apps/api/app/cli/daily_operations.py:30-39 | otherwise there is an interleaving of punctual runs, for any number of steps, in which two step loops overlap |
| OperationsLock.OverlapExactlyBeyondTtl | apps/api/app/cli/daily_operations.py:30-45 | two step loops can overlap if and only if timeouts plus slack exceed the time to live |
| OperationsLock.DefaultStepsNeverOverlap | apps/api/app/cli/daily_operations.py:30-39 | for the five default steps the bound on the overhead is exactly 900 s |
| OperationsValues.PlusKeepsBalance | apps/api/app/cli/daily_operations.py:605-609 | adding two balanced funnels field by field gives a balanced funnel |
| OperationsValues.FunnelRoundTrip | apps/api/app/cli/daily_operations.py:877-900 | a written funnel is read back unchanged if it balances and refused otherwise |
| OperationsValues.OnlyFunnelsAccepted | apps/api/app/cli/daily_operations.py:877-900 | whatever untyped value is accepted is the written form of a balanced funnel |
| OperationsValues.SyncMetricsStand | apps/api/app/cli/daily_operations.py:542-580 | sanitised synchronisation metrics pass the same checks again and are left as they are |
| OperationsValues.ResanitisingStands | apps/api/app/cli/daily_operations.py:492-580 | sanitising twice is sanitising once for four of the steps; a report collapses to the no-sample pair, and differs exactly when it carried a performance mapping |
| DailyOperations.TallyMeans | apps/api/app/cli/daily_operations.py:583-638 | the accumulated metrics equal, counter by counter, the sum over the steps; the funnel is the pointwise sum over completed synchronisations; quotas are those of the last one |
| DailyOperations.TallyConserves | apps/api/app/cli/daily_operations.py:583-638 | over any results the funnel balances, agrees with both fixture counters, and succeeded + failed counts each synchronisation once |
| DailyOperations.FunnelSumConserves | apps/api/app/cli/daily_operations.py:602-609 | the summed funnel balances and agrees with the summed received and retained counts |
| DailyOperations.EverySyncCountedOnce | apps/api/app/cli/daily_operations.py:588-634 | each synchronisation that ran is counted once, as succeeded or as failed |
| DailyOperations.ResultsAreSound | apps/api/app/cli/daily_operations.py:269-324 | every result the loop records carries a public code or metrics that stand re-sanitising |
| DailyOperations.FollowsIsUnique | apps/api/app/cli/daily_operations.py:258-301 | steps, outcomes and durations determine the recorded results |
| DailyOperations.SavedByIsUnique | apps/api/app/cli/daily_operations.py:258-334 | and the whole summary that is handed to be saved |
| DailyOperations.OperationMetrics.AddFunnel | apps/api/app/cli/daily_operations.py:605-609 | the loop over the fields adds the whole funnel |
| DailyOperations.OperationMetrics.RecordSuccess | apps/api/app/cli/daily_operations.py:583-625 | updates in place exactly the metrics the step contributes |
| DailyOperations.OperationMetrics.RecordSnapshot | apps/api/app/cli/daily_operations.py:610-623 | adds the five counts of a completed snapshot, and nothing else |
| DailyOperations.OperationMetrics.RecordFailure | apps/api/app/cli/daily_operations.py:628-638 | updates in place exactly the failure counters the step and its code contribute |
| DailyOperations.OperationMetrics.Note | apps/api/app/cli/daily_operations.py:276-312 | one more step turns the tally of the results into the tally of the longer results |
| OperationsAccounts.BalancedMeans | apps/api/app/cli/daily_operations.py:893-899 | a funnel balances if and only if what was received is what was retained plus the eight kinds of rejections |
| OperationsAccounts.CoherentExactly | apps/api/app/cli/daily_operations.py:542-579 | a synchronisation is kept if and only if its two counts, its funnel and, if given, its ignored count all tell of one balanced funnel |
| OperationsAccounts.OnlyNamedEntriesKept | apps/api/app/cli/daily_operations.py:492-580 | nothing is kept of a step but entries it returned under keys the code names; a report keeps entries of its performance or says that it has no sample |
| OperationsAccounts.ReportKeepsSixEntries | apps/api/app/cli/daily_operations.py:524-541 | a report with a performance keeps exactly six entries |
| OperationsAccounts.OutcomesAreLabelled | apps/api/app/cli/daily_operations.py:265-324 | a step completes exactly if it returns and, for a synchronisation, coherently; which failure gets which of the five codes; a clock that went back counts 0 |
| OperationsAccounts.SanitisingKeepsCounts | apps/api/app/cli/daily_operations.py:492-625 | sanitising keeps every count that the metrics go on to read |
| OperationsAccounts.SavedCountersAreTrue | apps/api/app/cli/daily_operations.py:228-334 | end to end: each of the thirteen counters a run saves is the sum, over the steps it tried, of what they returned or raised |
| OperationsAccounts.DefaultDurations | apps/api/app/cli/daily_operations.py:258-301 | a run over the default steps saves the elapsed time of each step it tried |
| StatusEncoding.EncodableExactly | apps/api/app/cli/daily_operations.py:147-153 | a summary can be written as JSON if and only if the metrics kept of each completed step can |
| OperationsRun.DailyOperationsGuard.Acquire | apps/api/app/cli/daily_operations.py:119-131 | takes a free key only, and may take it although no answer arrives |
| OperationsRun.DailyOperationsGuard.Release | apps/api/app/cli/daily_operations.py:133-145 | deletes the key only while it holds the caller's token |
| OperationsRun.DailyOperationsGuard.SaveStatus | apps/api/app/cli/daily_operations.py:147-167 | an unstored or unanswered status is the guard's own error; a summary that cannot be encoded raises another one and stores nothing |
| OperationsRun.RunSteps | apps/api/app/cli/daily_operations.py:255-324 | undisturbed, the results follow a prefix of the steps that ends at the first critical failure, and failed, degraded and completed mean what they say; otherwise they end where an event, the clock or a cancellation interrupts; the metrics hold the tally either way |
| OperationsRun.StepFits | apps/api/app/cli/daily_operations.py:276-301 | one more step interrupts the loop, or ends it as failed with that step's code, or keeps completed and degraded telling whether a step failed |
| OperationsRun.RanIsUnique | apps/api/app/cli/daily_operations.py:257-347 | the attempts determine how the loop ends: where, with which results and summary, and with what thrown |
| OperationsRun.QuietRunFinishes | apps/api/app/cli/daily_operations.py:257-334 | a loop whose events and clock raise nothing always comes to its summary |
| OperationsRun.RunConserves | apps/api/app/cli/daily_operations.py:258-324 | the conservation laws hold at every moment of the step loop, whatever steps return, raise or exceed and whatever interrupts them |
| OperationsRun.Operate | apps/api/app/cli/daily_operations.py:257-347 | the guarded part: what it saves, what becomes a fail-closed summary and what escapes |
| OperationsRun.Run | apps/api/app/cli/daily_operations.py:228-364 | what a run leaves in both keys, how many releases it asks for, and how it ends, on every path, exceptions that escape included |
| OperationsRun.OneReleaseExactly | apps/api/app/cli/daily_operations.py:234-364 | exactly one release with the acquired token if and only if the acquire answered true and the started event did not raise; otherwise none, and a lock taken all the same stays held |
| OperationsRun.StartedEventLeavesLock | apps/api/app/cli/daily_operations.py:248-257 | the failing input: a started event that raises leaves the lock held, and that is all the run does |
| OperationsRun.EscapeSavesNothing | apps/api/app/cli/daily_operations.py:257-364 | an interrupted loop or a summary that cannot be encoded saves nothing and still releases once |
| OperationsRun.ReturnsExactly | apps/api/app/cli/daily_operations.py:228-364 | a run returns a summary if and only if nothing escapes it, and a summary that is not the fail-closed one was saved as it is |
| OperationsRun.SuccessIsEarned | apps/api/app/cli/daily_operations.py:234-364 | a run reports completed or degraded only if it found the lock free, finished its steps without a critical failure and had exactly that summary saved; any other summary is failed with a code |
| OperationsRun.UnsavedIsAccountedFor | apps/api/app/cli/daily_operations.py:234-347 | a returned summary that was not saved as it is is failed, says already running without steps or fail-closed with the steps that ran, counts one fail-closed, and is otherwise the tally of its steps |
| OperationsRun.QuietEventsCloseQuietly | apps/api/app/cli/daily_operations.py:337-364 | when the events around the release raise nothing, the end of the loop, the encoding and the save alone decide how the run ends |
| OperationsRun.EncodingCanEscape | apps/api/app/cli/daily_operations.py:148-153 | an input on which the encoding error escapes: a kept value that JSON has no form for |
| OperationsSchedule.OnScheduleIsPunctual | apps/api/app/cli/daily_operations.py:30-39 | an interleaving in which what every run has still to do keeps it on time is punctual |
| OperationsSchedule.RunIsOnSchedule | apps/api/app/cli/daily_operations.py:257-364 | the events of a run whose steps return by their timeouts, its overhead below the slack, are on schedule, whether it ends by itself or is killed |
| OperationsSchedule.RunsNeverOverlap | apps/api/app/cli/daily_operations.py:30-45 | in any interleaving of such runs over any steps, some perhaps killed on the way, timeouts and slack within the time to live, no two are in their step loops at any moment |
| OperationsSchedule.DefaultRunsNeverOverlap | apps/api/app/cli/daily_operations.py:30-45 | the same for runs over the five default steps, each with less than 900 s of overhead |
| OperationsSchedule.LeakedLockKeepsOthersOut | apps/api/app/cli/daily_operations.py:119-131 | a lock that its run never releases keeps every other run out of its loop until 1800 s after it was taken |
| SavedStatus.StepRoundTrip | apps/api/app/cli/daily_operations.py:737-788 | a saved step is read back, with its funnel, if and only if its name is known |
| SavedStatus.StepsRoundTrip | apps/api/app/cli/daily_operations.py:732-788 | the same for any list of steps, with the sum of their funnels |
| SavedStatus.DurationsRoundTrip | apps/api/app/cli/daily_operations.py:827-833 | saved durations are read back unchanged |
| SavedStatus.MetricsRoundTrip | apps/api/app/cli/daily_operations.py:790-833 | coherent metrics are accepted against the funnels of the steps and read back unchanged |
| SavedStatus.CodesArePublic | apps/api/app/cli/daily_operations.py:835-842 | every code a run can save passes the reader's character test |
| SavedStatus.SummaryRoundTrip | apps/api/app/cli/daily_operations.py:700-856 | a coherent summary is accepted if and only if it has at most five steps, all with known names, and is shown as saved apart from report metrics |
| SavedStatus.ReportAloneChanges | apps/api/app/cli/daily_operations.py:524-541 | a result is shown changed if and only if it is a report that returned a performance mapping |
| SavedStatus.DefaultRunIsReadable | apps/api/app/cli/daily_operations.py:228-335 | whatever the default steps do, the summary a run saves is accepted and shown unchanged, except for the metrics of a report with a performance |
| SavedStatus.FirstErrorStands | apps/api/app/cli/daily_operations.py:737-788 | the reader's loop stops at the first bad step, whatever follows |
| SavedStatus.AddFields | apps/api/app/cli/daily_operations.py:777-780 | the loop over the funnel fields adds the whole funnel |
| SavedStatus.CollectCounters | apps/api/app/cli/daily_operations.py:790-806 | the loop over the thirteen fields reads every counter |
| SavedStatus.SanitizeSavedStatus | apps/api/app/cli/daily_operations.py:700-856 | the loops over the steps, over the fields of their funnels and over the counters compute the reader's specification, errors included |
| SavedStatus.SavedRunIsReadBack | apps/api/app/cli/daily_operations.py:147-194 | after a default run that saved, the reader is shown the saved summary, report metrics apart, if and only if Redis answers and the text has at most 50000 characters |
| SavedStatus.SomeSavedRunIsRefused | apps/api/app/cli/daily_operations.py:169-183 | the condition is needed: nothing bounds the texts that metrics keep, so some run over steps with the default names, with runners of its own, saves a status its reader refuses |
| SavedStatus.UnsavedRunShowsNothingNew | apps/api/app/cli/daily_operations.py:228-364 | a run that saves nothing leaves the reader what it would have been shown before |
| SavedStatus.ReadStatus | apps/api/app/cli/daily_operations.py:169-194 | computes what the reader makes of the stored fields, and after any default run shows its summary if and only if Redis answers and the text is short enough |
| StatusReading.ShownIsConsistent | apps/api/app/cli/daily_operations.py:700-856 | whatever was stored, a status that is shown has a known status, short texts, a public code or none, at most five well-formed steps and all four betting flags false; its aggregate funnel balances, is field by field the sum over the shown synchronisations, and agrees with both fixture counters |
| StatusReading.ReadingAgain | apps/api/app/cli/daily_operations.py:700-856 | whatever was stored, what is shown would be accepted if it were stored and shown again as it is, apart from the metrics of a report |
| StatusReading.TwoReadingsSuffice | apps/api/app/cli/daily_operations.py:700-856 | what a second reading shows is a fixed point of the reader |
| PoissonMarkets.WeightIsPoisson | apps/api/app/modules/kairos/services.py:728-732 | the recurrence gives rate^k / k! |
| PoissonMarkets.PoissonDistribution | apps/api/app/modules/kairos/services.py:728-732 | the loop yields eleven masses, each the seed times its Poisson weight |
| PoissonMarkets.DistributionIsPoisson | apps/api/app/modules/kairos/services.py:728-732 | there are eleven masses, and that of k goals times k! is seed * rate^k |
| PoissonMarkets.AccumulateMarkets | apps/api/app/modules/kairos/services.py:684-705 | the double loop ends with the joint mass of each market |
| PoissonMarkets.MarketIdentities | apps/api/app/modules/kairos/services.py:684-705 | the outcomes add up to (home sum)(away sum); both-score is the product of the sums without the zero-goal masses; over 2.5 is the total without the six cells of at most two goals |
| PoissonMarkets.MarketsMirror | apps/api/app/modules/kairos/services.py:684-705 | exchanging the distributions exchanges the two wins and fixes the other markets |
| PoissonShares.MassesPositive | apps/api/app/modules/kairos/services.py:707-709 | the total is positive, every market has mass and none has it all, so the total guard cannot fire |
| PoissonShares.SeedsDropOut | apps/api/app/modules/kairos/services.py:707-732 | unrounded shares do not depend on the seed exp(-rate) |
| PoissonShares.LikelihoodRatio | apps/api/app/modules/kairos/services.py:728-732 | likelihood-ratio order of the recurrence: the higher rate favours the higher score |
| PoissonShares.MeanRises | apps/api/app/modules/kairos/services.py:689-703 | weights in likelihood-ratio order give a rising quantity the higher mean |
| PoissonShares.RaisingHomeRate | apps/api/app/modules/kairos/services.py:684-732 | raising the home rate never lowers the share of home win, over 2.5 or both-score, and never raises that of away win |
| PoissonShares.RaisingAwayRate | apps/api/app/modules/kairos/services.py:684-732 | raising the away rate never lowers the share of away win, over 2.5 or both-score, and never raises that of home win |
| PoissonShares.SharesMirror | apps/api/app/modules/kairos/services.py:707-724 | exchanging the sides exchanges the two win shares and fixes the other three |
| MarketRounding.RoundIsNearest | apps/api/app/modules/kairos/services.py:710-724 | rounding is to the nearest millionth and stays in [0, 1] |
| MarketRounding.ResidualIsAProbability | apps/api/app/modules/kairos/services.py:710-712 | one minus two rounded shares is never negative nor above one, and lies within one millionth of the third share, even when that share is zero |
| MarketRounding.AnyNearestWillDo | apps/api/app/modules/kairos/services.py:710-712 | with a positive third share, as the engine always has, any nearest rounding of the other two leaves a residual that is not negative |
| MarketRounding.TiesMatterAtZero | apps/api/app/modules/kairos/services.py:710-712 | with a third share of zero it does not: rounding both ties up would use more than the whole |
| MarketRounding.RoundIsMonotone | apps/api/app/modules/kairos/services.py:710-724 | rounding to millionths keeps the order |
| MarketRounding.PublishedMoveWithHomeRate | apps/api/app/modules/kairos/services.py:671-725 | when the home rate rises, the published home win, over 2.5 and both-score never fall, and away-or-draw and under 2.5 never rise |
| MarketRounding.PublishedMoveWithAwayRate | apps/api/app/modules/kairos/services.py:671-725 | when the away rate rises, the published over 2.5, both-score and away-or-draw never fall, and home win and under 2.5 never rise |
| MarketRounding.SharesAreProbabilities | apps/api/app/modules/kairos/services.py:707-724 | unrounded shares lie in (0, 1] and the outcomes sum to one |
| MarketRounding.PoissonMarketProbabilities | apps/api/app/modules/kairos/services.py:671-725 | a non-positive rate is refused; any other pair gives rounded values that sum exactly, represent the distributions, and pass every schema check |
| ExpectedGoals.CollectVenueScores | apps/api/app/modules/kairos/services.py:417-431 | the loop that breaks at five finds the first five usable results at the venue |
| ExpectedGoals.CollectMetrics | apps/api/app/modules/kairos/services.py:437-455 | the loop over the recent matches collects, for each metric, its known values in order |
| ExpectedGoals.BuildTeamProfile | apps/api/app/modules/kairos/services.py:399-487 | sample sizes and averages are those of the recent and venue results; goal averages exist from one result on and lie in [0, 100] |
| ExpectedGoals.AverageWithin | apps/api/app/modules/kairos/services.py:1168-1174 | an average of values within bounds exists and lies within them |
| ExpectedGoals.OutputsBounded | apps/api/app/modules/kairos/services.py:602-668 | every signal lies in [-1, 1] and both rates in [0.05, 4.5], for any exponential |
| ExpectedGoals.ReadyProfilesSucceed | apps/api/app/modules/kairos/services.py:602-621 | with three results a team no goal feature is missing |
| ExpectedGoals.TeamsExchange | apps/api/app/modules/kairos/services.py:602-668 | exchanging the teams exchanges the rates and negates every signal, failures included |
| ExpectedGoals.PairingIsSymmetric | apps/api/app/modules/kairos/services.py:602-725 | end to end, exchanging the teams exchanges the unrounded win shares and fixes draw, over and both-score |
| GoalDirections.BetterHomeSideGains | apps/api/app/modules/kairos/services.py:602-668 | better figures of the home side (form, venue form, shots, possession, corners, points per game, a higher place, fewer cards), one or several, never lower its rate nor raise that of the guests, for any rising exponential |
| GoalDirections.BetterHomeSideGainsStrictly | apps/api/app/modules/kairos/services.py:602-668 | and raise its rate where neither rate is clamped and a signal truly rises |
| GoalDirections.BetterGuestsGain | apps/api/app/modules/kairos/services.py:602-668 | the same for the guests |
| GoalDirections.MoreGoalsRaiseTheRate | apps/api/app/modules/kairos/services.py:606-668 | more goals of the home side, or more conceded by the guests, overall or at the venue, never lower the home rate |
| GoalDirections.SignalsShiftGoals | apps/api/app/modules/kairos/services.py:657-668 | the signals only shift goals between the sides: unclamped, the product of the two rates is that of the two goal averages |
| GoalDirections.BaseIsTheMean | apps/api/app/modules/kairos/services.py:1177-1185 | the average behind a rate is the mean of the four goal averages, or of the two overall ones where venues are unknown |
| GoalDirections.AdjustmentRises | apps/api/app/modules/kairos/services.py:657-661 | no signal that rises lowers the adjustment, and one that truly rises raises it |
| GoalDirections.EachSignalAlone | apps/api/app/modules/kairos/services.py:62-70 | what each signal weighs alone: 0.18 for form, 0.16 for standings, down to 0.04 for cards, and nothing for goals |
| GoalDirections.LeadsCountInShares | apps/api/app/modules/kairos/services.py:1188-1196 | each signal is the share of the lead in its scale, and a lead beyond the scale counts as the whole |
| GoalDirections.StandingsCountInShares | apps/api/app/modules/kairos/services.py:1199-1217 | the standings count for their share of ten places and of three points a game, or for the mean of the two |
| GoalDirections.TwoSidesOfAScore | apps/api/app/modules/kairos/models.py:83-92 | the goals of one team are conceded by the other, and no third team played |
| GoalDirections.HomeTeamScoresHomeGoals | apps/api/app/modules/kairos/models.py:68-92 | the home team scored the home goals: of full time if both are usable, else the current ones if those are |
| GoalDirections.PointsAreShared | apps/api/app/modules/kairos/services.py:1159-1165 | three points to the winner and none to the loser, or one each |
| GoalDirections.GoalsEarnPoints | apps/api/app/modules/kairos/services.py:1159-1165 | more goals never cost points and conceding more never earns any |
| GoalDirections.VenueResultsAreOwn | apps/api/app/modules/kairos/services.py:417-431 | venue results are exactly the usable scores of the matches the team hosted, or was a guest in |
| GoalDirections.RedCountsTwice | apps/api/app/modules/kairos/services.py:1138-1146 | a red card weighs as two yellow ones, and events count only where the statistics lack a number |
| GoalDirections.FiguresAreOwn | apps/api/app/modules/kairos/services.py:437-455 | possession, corners and shots of a match come from the team's own statistics of it, shots on goal only in place of unknown shots |
| GoalDirections.PointsPerGame | apps/api/app/modules/kairos/services.py:457-464 | points per game times games are the points, and without a game there is no such figure |
| ExpectedGoals.Analyze | apps/api/app/modules/kairos/services.py:159-181 | with three results a team, no guard from profile to schema can fire |
| MarketOutcome.SettledIsExpected | apps/api/app/modules/kairos/journal.py:209-254 | for all markets and scores, a settled outcome is the one the database trigger expects |
| MarketOutcome.DisagreementIsExact | apps/api/alembic/versions/202607280001_kairos_b2_4_analysis_journal.py:228-352 | code and trigger agree except, exactly, for double-chance markets with usable full-time and an out-of-range half-time score |
| MarketOutcome.TriggerIsLaxer | apps/api/alembic/versions/202607280001_kairos_b2_4_analysis_journal.py:256-273 | such an input: the trigger would accept an outcome that the code voids |
| MarketOutcome.DoubleChances | apps/api/app/modules/kairos/journal.py:231-236 | each double chance on the goals: success if the named side does not lose, or if somebody wins, and failure otherwise |
| MarketOutcome.OneDoubleChanceFails | apps/api/app/modules/kairos/journal.py:231-236 | of the three double chances exactly one fails, that of the result that came about |
| MarketOutcome.HalvesCompared | apps/api/app/modules/kairos/journal.py:237-254 | of the three comparisons of the halves the one that names the half with more goals, or equality, succeeds and the others fail |
| MarketOutcome.OverLines | apps/api/app/modules/kairos/journal.py:237-254 | an over market fails if and only if its half has fewer goals than the line needs |
| MarketOutcome.UndecidedExactly | apps/api/app/modules/kairos/journal.py:209-254 | an outcome is void exactly when a score is implausible, a needed one is missing, half-time has more goals than full time, or the market is unknown |
| MarketOutcome.TeamsSwap | apps/api/app/modules/kairos/journal.py:209-254 | exchanging the teams exchanges home-or-draw with away-or-draw and fixes every other market |
| MatchObservations.LatestIsNewest | apps/api/app/modules/kairos/repository.py:492-523 | what is selected is a row of the match with all three times at most the instant, and no other such row has a lexicographically later (available, fetched, created); nothing is selected only if there is no such row |
| MatchObservations.LatestExactly | apps/api/app/modules/kairos/repository.py:492-523 | where no two observations of a match share all three times, the row selected is exactly the one that no other known row follows |
| MatchObservations.OverExactly | apps/api/app/modules/kairos/repository.py:23-26 | a match is over exactly in the statuses FT, AET and PEN |
| MatchObservations.NoLookAhead | apps/api/app/modules/kairos/repository.py:492-523 | the selection depends only on the rows whose three times are at most the instant, in whatever order they were stored |
| AnalysisJournal.InsertAppends | apps/api/app/modules/kairos/journal.py:75-81 | an insert that does nothing on conflict only appends, keeps ids and hashes unique, and invents no row |
| AnalysisJournal.InsertFresh | apps/api/app/modules/kairos/journal.py:159-167 | rows that clash with nothing are all appended, in order |
| AnalysisJournal.InsertRows | apps/api/app/modules/kairos/journal.py:75-86 | the insertion loop and its count of inserted rows |
| JournalAppends.AppendOnlyAppends | apps/api/app/modules/kairos/journal.py:49-86 | an append leaves resolutions alone, adds only snapshots taken and written before kickoff and stamped with their own hash, accounts received = inserted + duplicate, and changes nothing on error |
| JournalAppends.AppendTakesCandidates | apps/api/app/modules/kairos/journal.py:49-86 | every row an append adds is the snapshot of one of its candidates, field by field; it is refused exactly when the analysis is not before kickoff, or when it is written outside the allowed times or for an unknown market |
| JournalAppends.EveryCandidateIsJournalled | apps/api/app/modules/kairos/journal.py:59-86 | after a successful append the analysis of the primary and of every alternative candidate is in the journal |
| JournalAppends.ReappendChangesNothing | apps/api/app/modules/kairos/journal.py:49-86 | appending the same opportunity again, at any analysis time, changes nothing: the first snapshots stand and all rows are duplicates |
| JournalBatches.OrderedIsSorted | apps/api/app/modules/kairos/journal.py:145-145 | ordering by kickoff and id neither loses nor repeats a row |
| JournalBatches.PendingIsExact | apps/api/app/modules/kairos/journal.py:108-151 | a query finds exactly the journalled, unresolved analyses whose newest known observation is completed, once each, in order |
| JournalBatches.OpenAfterPrefix | apps/api/app/modules/kairos/journal.py:136-146 | resolving the first n open rows leaves exactly the others, in the same order |
| JournalBatches.BuiltRowsAreAccepted | apps/api/alembic/versions/202607280001_kairos_b2_4_analysis_journal.py:197-357 | a row built from a selected analysis is accepted by the trigger and the time check if and only if its instant is not in the future |
| JournalBatches.NewestObservationDecides | apps/api/app/modules/kairos/journal.py:304-325 | the row that is latest in (available, fetched, created) of those known decides: settled by its scores when published at or after the journalled kickoff for a match after the analysis, void otherwise; the resolution repeats its scores, status, times and hash |
| JournalBatches.WantedExactly | apps/api/app/modules/kairos/journal.py:108-151 | on the fields: a batch wants an analysis if and only if its kickoff is before the instant and in the half-open window and the latest known observation of its match is FT, AET or PEN |
| JournalBatches.PendingIsOrdered | apps/api/app/modules/kairos/journal.py:145-145 | a batch comes by kickoff, and by analysis id among equal kickoffs |
| JournalBatches.RefusesExactly | apps/api/app/modules/kairos/journal.py:96-99 | a call is refused exactly for an instant without a zone or a limit outside 1..200, and then changes nothing |
| JournalBatches.AdmittedOutcomesAreTrue | apps/api/alembic/versions/202607280001_kairos_b2_4_analysis_journal.py:197-357 | whoever writes it, a settled resolution the database admits rests on a journalled analysis, was available at or after its kickoff, and has the outcome the code would give, or one the code voids for its half-time scores alone |
| JournalBatches.BatchLooksBackOnly | apps/api/app/modules/kairos/journal.py:100-158 | observations that become known after the instant change no row of a batch |
| JournalBatches.BatchTakesPrefix | apps/api/app/modules/kairos/journal.py:140-172 | one call resolves exactly min(limit, pending) analyses, the first in order, and leaves exactly the others pending |
| JournalBatches.DrainIsOnePass | apps/api/app/modules/kairos/journal.py:88-172 | any sequence of limits in 1..200 at one instant writes what one pass over the first sum-of-limits pending analyses would, in the same order |
| JournalBatches.EnoughCallsAgree | apps/api/app/modules/kairos/journal.py:88-172 | nothing is left pending if and only if the limits add up to enough, and any two such sequences end with the same tables |
| JournalRuns.StepKeeps | apps/api/app/modules/kairos/journal.py:49-172 | any event of any session keeps rows unique, resolutions justified and earlier rows unaltered |
| JournalRuns.RunKeeps | apps/api/app/modules/kairos/journal.py:49-172 | the same over every interleaving of observations, appends, selections and inserts |
| JournalRuns.EveryResolutionWasSelected | apps/api/app/modules/kairos/journal.py:108-172 | every row stored or still buffered was built by a selection of the run from the tables as they stood at that moment |
| JournalRuns.EveryReachableState | apps/api/app/modules/kairos/journal.py:49-172 | from empty tables: at most one snapshot and one resolution an analysis, each with its own hash, and every resolution was decided, at some selection, by the latest observation then stored of what was known at its instant |
| JournalRuns.FlushNeverAborts | apps/api/alembic/versions/202607280001_kairos_b2_4_analysis_journal.py:197-357 | whatever happened between a session's selection and its insert, the insert succeeds once its instant has passed, and its whole batch is then resolved |
| JournalRuns.JournalIsConserved | apps/api/app/modules/kairos/journal.py:88-172 | in every reachable state, journal size = settled + void + unresolved |
| JournalRepository.KairosJournalRepository.AppendOpportunity | apps/api/app/modules/kairos/journal.py:49-86 | the in-place append is the specified step: tables, summary and errors |
| JournalRepository.KairosJournalRepository.ResolveCompleted | apps/api/app/modules/kairos/journal.py:88-172 | the in-place batch is the specified step: tables, summary and errors |

## Left out

- Floating point: rates, signals and shares are exact reals, rounded values are integers in millionths; non-finite values
  and the guards against them are therefore absent.
- SHA-256, UUIDs and JSON text: uninterpreted functions or opaque identities. The length of an encoded status is a
  function of its fields.
- The check that `raw_hash` is a hexadecimal digest, which the resolutions table makes and the table of observations does
  not, and the columns of a resolution that feed no decision.
- Work that goes on in a thread after its step timed out: exclusion is proved for the step loops only.
- What events say, the command line, and the runners behind the five steps; an event appears only by what it raises.
- The thirteen integer counters of the metrics object are one map keyed by field name.
- Field names are numbered constants, and strings the daily operations compare with are constructors; the latter stand
  for strings one for one (`OperationsValues.WordsAreStrings`). Error codes are tested for ASCII letters and digits,
  although Python accepts others.
- Reading a status starts from the stored fields and the length of their text; bytes and malformed JSON are not modelled,
  nor is the status key's time to live of seven days.
- Metric sample sizes of a team profile, data quality, confidence, reasons and warnings: they feed no rate.
- The building of the statistic and card indexes from raw rows; they are inputs here.
- Boolean scores, and snapshot checks on probability, score ranges and sample size: the columns concerned are not modelled.
- Concurrent inserts are atomic steps; blocking between transactions that hold the same row is not modelled.
- Updates and deletes, which a second trigger refuses, are not events of the model.
- `resolved_metrics`: a grouped count over the two tables.
- Redis and PostgreSQL clients, connection caching and readiness; the rest of the repository, half-time and opportunity
  modules; the web application.
