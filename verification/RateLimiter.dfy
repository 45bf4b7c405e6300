/**
 The sliding-window rate limiter: a Redis sorted set per key, pruned and counted by one atomic script,
 with a time to live that may drop the whole key once its deadline has passed.

 The specification it is compared with never forgets: it keeps every admission of a key and counts
 those newer than the window.
 */
module RateLimiter {
  import opened Wrappers

  const RATE_LIMIT_WINDOW_SECONDS: nat := 60
  const WINDOW_MS: nat := RATE_LIMIT_WINDOW_SECONDS * 1000
  const REDIS_KEY_PREFIX := "urim:kairos:rate-limit:v1"

  type Key = string
  /** A fresh UUID for each call. */
  datatype Member = Member(uuid: nat)

  /** Members with their scores, which are admission times in milliseconds. */
  type Scores = map<Member, int>

  /** A sorted set and the instant at or after which Redis may drop it; an absent key has no scores. */
  datatype SortedSet = SortedSet(scores: Scores, deadline: int)

  type Store = map<Key, SortedSet>

  datatype Verdict = Verdict(allowed: bool, retryMs: int)

  datatype Event =
    | Call(key: Key, now: int, member: Member)
    | Expire(key: Key, now: int)

  // ---------------------------------------------------------------------------------------------
  // The script
  // ---------------------------------------------------------------------------------------------

  function Max(a: int, b: int): int { if a < b then b else a }

  function Min(a: int, b: int): int { if a < b then a else b }

  /** ZREMRANGEBYSCORE key -inf cutoff: what is left. */
  function Prune(scores: Scores, cutoff: int): Scores {
    map m | m in scores && scores[m] > cutoff :: scores[m]
  }

  lemma SubsetSize<T>(a: set<T>, b: set<T>)
    requires a <= b
    ensures |a| <= |b|
  {
    assert b == a + (b - a);
  }

  lemma ProperSubsetSize<T>(a: set<T>, b: set<T>)
    requires a < b
    ensures |a| < |b|
  {
    assert b == a + (b - a);
    assert b - a != {};
  }

  predicate IsOldest(scores: Scores, m: Member) {
    m in scores && forall x :: x in scores ==> scores[m] <= scores[x]
  }

  lemma OldestExists(scores: Scores, a: Member)
    requires a in scores
    ensures exists m :: IsOldest(scores, m)
    decreases |scores|
  {
    var older := map m | m in scores && scores[m] < scores[a] :: scores[m];
    if older == map[] {
      assert forall m :: m in scores && scores[m] < scores[a] ==> m in older;
      assert IsOldest(scores, a);
    } else {
      var b :| b in older;
      ProperSubsetSize(older.Keys, scores.Keys);
      OldestExists(older, b);
      var m :| IsOldest(older, m);
      forall x | x in scores ensures scores[m] <= scores[x] {
        assert scores[x] < scores[a] ==> x in older;
      }
      assert IsOldest(scores, m);
    }
  }

  /** ZRANGE key 0 0 WITHSCORES: the lowest score. */
  function Oldest(scores: Scores): (t: int)
    requires scores != map[]
    ensures exists m :: m in scores && scores[m] == t
    ensures forall m :: m in scores ==> t <= scores[m]
  {
    assert exists m :: IsOldest(scores, m) by {
      var a :| a in scores;
      OldestExists(scores, a);
    }
    var times := set m | m in scores :: scores[m];
    assert exists t :: t in times && forall m :: m in scores ==> t <= scores[m] by {
      var m :| IsOldest(scores, m);
      assert scores[m] in times;
    }
    var t :| t in times && forall m :: m in scores ==> t <= scores[m];
    t
  }

  function VerdictOn(live: Scores, now: int, limit: nat): Verdict {
    if |live| < limit then Verdict(true, 0)
    else Verdict(false, if live == map[] then WINDOW_MS else Max(1, WINDOW_MS - (now - Oldest(live))))
  }

  function StateAfter(live: Scores, now: int, limit: nat, member: Member): SortedSet {
    SortedSet(if |live| < limit then live[member := now] else live, now + WINDOW_MS)
  }

  function Lookup(store: Store, key: Key): SortedSet {
    if key in store then store[key] else SortedSet(map[], 0)
  }

  function LiveAt(store: Store, key: Key, now: int): Scores {
    Prune(Lookup(store, key).scores, now - WINDOW_MS)
  }

  /** The store after one event; an expiry before the deadline is no event at all. */
  function After(store: Store, e: Event, limit: nat): Store {
    match e
    case Call(key, now, member) => store[key := StateAfter(LiveAt(store, key, now), now, limit, member)]
    case Expire(key, now) => if now >= Lookup(store, key).deadline then store - {key} else store
  }

  function VerdictOf(store: Store, e: Event, limit: nat): Verdict
    requires e.Call?
  {
    VerdictOn(LiveAt(store, e.key, e.now), e.now, limit)
  }

  predicate Admits(k: Key, store: Store, e: Event, limit: nat) {
    e.Call? && e.key == k && VerdictOf(store, e, limit).allowed
  }

  // ---------------------------------------------------------------------------------------------
  // Runs
  // ---------------------------------------------------------------------------------------------

  /** A nondecreasing Redis clock. */
  predicate Timed(clock: int, events: seq<Event>)
    decreases |events|
  {
    events == [] || (clock <= events[0].now && Timed(events[0].now, events[1..]))
  }

  /** Every call carries a member no earlier call carried. */
  predicate Fresh(used: set<Member>, events: seq<Event>)
    decreases |events|
  {
    events == [] ||
    if events[0].Call? then events[0].member !in used && Fresh(used + {events[0].member}, events[1..])
    else Fresh(used, events[1..])
  }

  /** The log of one key after one event: admissions are added, nothing is ever removed. */
  function Logged(k: Key, log: Scores, store: Store, e: Event, limit: nat): Scores {
    if Admits(k, store, e, limit) then log[e.member := e.now] else log
  }

  /** Every admission the script made on `k` in a run, on top of `log`. */
  function AdmissionLog(k: Key, log: Scores, store: Store, events: seq<Event>, limit: nat): Scores
    decreases |events|
  {
    if events == [] then log
    else AdmissionLog(k, Logged(k, log, store, events[0], limit), After(store, events[0], limit), events[1..], limit)
  }

  /** The admissions with a timestamp in (t - window, t]. */
  function InWindow(log: Scores, t: int): set<Member> {
    set m | m in log && t - WINDOW_MS < log[m] <= t
  }

  ghost predicate WithinLimit(log: Scores, limit: nat) {
    forall t :: |InWindow(log, t)| <= limit
  }

  /** The sorted set has lost nothing of the log that could still be counted, now or later. */
  ghost predicate Represents(st: SortedSet, log: Scores, clock: int) {
    && (forall m :: m in st.scores ==> m in log && st.scores[m] == log[m] && log[m] + WINDOW_MS <= st.deadline)
    && (forall m :: m in log ==> log[m] <= clock)
    && (forall m :: m in log && m !in st.scores ==> log[m] <= clock - WINDOW_MS)
  }

  lemma PruneForgetsNothing(st: SortedSet, log: Scores, clock: int, now: int)
    requires Represents(st, log, clock) && clock <= now
    ensures Prune(st.scores, now - WINDOW_MS) == Prune(log, now - WINDOW_MS)
    ensures Prune(log, now - WINDOW_MS).Keys == InWindow(log, now)
    ensures |Prune(log, now - WINDOW_MS)| == |InWindow(log, now)|
  {
    var p := Prune(log, now - WINDOW_MS);
    assert p.Keys == InWindow(log, now);
    assert |p| == |p.Keys|;
  }

  /** The verdict of a call is the one the log gives: admitted iff fewer than `limit` admissions lie in the window. */
  lemma VerdictAgrees(k: Key, store: Store, e: Event, log: Scores, clock: int, limit: nat)
    requires Represents(Lookup(store, k), log, clock) && clock <= e.now
    requires e.Call? && e.key == k
    ensures VerdictOf(store, e, limit) == VerdictOn(Prune(log, e.now - WINDOW_MS), e.now, limit)
    ensures VerdictOf(store, e, limit).allowed <==> |InWindow(log, e.now)| < limit
  {
    PruneForgetsNothing(Lookup(store, k), log, clock, e.now);
  }

  /** One event keeps the sorted set of `k` faithful to the log of `k`. */
  lemma StepKeeps(k: Key, store: Store, e: Event, log: Scores, clock: int, limit: nat)
    requires Represents(Lookup(store, k), log, clock) && clock <= e.now
    requires e.Call? ==> e.member !in log
    ensures Represents(Lookup(After(store, e, limit), k), Logged(k, log, store, e, limit), e.now)
  {
  }

  /** The log after one event, from the log alone. */
  function SpecLogged(k: Key, log: Scores, e: Event, limit: nat): Scores {
    if e.Call? && e.key == k && |InWindow(log, e.now)| < limit then log[e.member := e.now] else log
  }

  lemma LogAgrees(k: Key, store: Store, e: Event, log: Scores, clock: int, limit: nat)
    requires Represents(Lookup(store, k), log, clock) && clock <= e.now
    ensures Logged(k, log, store, e, limit) == SpecLogged(k, log, e, limit)
  {
    if e.Call? && e.key == k { VerdictAgrees(k, store, e, log, clock, limit); }
  }

  /** The decisions the script makes on `k` in a run. */
  function Decisions(k: Key, store: Store, events: seq<Event>, limit: nat): seq<bool>
    decreases |events|
  {
    if events == [] then []
    else
      (if events[0].Call? && events[0].key == k then [VerdictOf(store, events[0], limit).allowed] else [])
      + Decisions(k, After(store, events[0], limit), events[1..], limit)
  }

  /** The specification: no store, no pruning, no expiry, only the log of everything admitted so far. */
  function SpecDecisions(k: Key, log: Scores, events: seq<Event>, limit: nat): seq<bool>
    decreases |events|
  {
    if events == [] then []
    else
      (if events[0].Call? && events[0].key == k then [|InWindow(log, events[0].now)| < limit] else [])
      + SpecDecisions(k, SpecLogged(k, log, events[0], limit), events[1..], limit)
  }

  lemma {:induction false} DecisionsAgree(
    k: Key, store: Store, log: Scores, events: seq<Event>, clock: int, used: set<Member>, limit: nat)
    requires Represents(Lookup(store, k), log, clock) && log.Keys <= used
    requires Timed(clock, events) && Fresh(used, events)
    ensures Decisions(k, store, events, limit) == SpecDecisions(k, log, events, limit)
    decreases |events|
  {
    if events != [] {
      var e := events[0];
      StepKeeps(k, store, e, log, clock, limit);
      LogAgrees(k, store, e, log, clock, limit);
      if e.Call? && e.key == k { VerdictAgrees(k, store, e, log, clock, limit); }
      DecisionsAgree(k, After(store, e, limit), Logged(k, log, store, e, limit), events[1..], e.now,
                     if e.Call? then used + {e.member} else used, limit);
    }
  }

  /** From an empty Redis, the pruned and expiring set decides every call of every run as the full log does. */
  lemma {:induction false} PruningAndExpiryChangeNothing(k: Key, events: seq<Event>, clock: int, limit: nat)
    requires Timed(clock, events) && Fresh({}, events)
    ensures Decisions(k, map[], events, limit) == SpecDecisions(k, map[], events, limit)
  {
    DecisionsAgree(k, map[], map[], events, clock, {}, limit);
  }

  // ---------------------------------------------------------------------------------------------
  // The guarantee about every window
  // ---------------------------------------------------------------------------------------------

  lemma AdmissionKeepsWindows(log: Scores, member: Member, now: int, limit: nat)
    requires WithinLimit(log, limit) && member !in log && |InWindow(log, now)| < limit
    requires forall m :: m in log ==> log[m] <= now
    ensures WithinLimit(log[member := now], limit)
  {
    var log' := log[member := now];
    forall t ensures |InWindow(log', t)| <= limit {
      var grown := InWindow(log', t);
      if t < now {
        assert grown == InWindow(log, t);
      } else {
        assert grown <= InWindow(log, now) + {member};
        SubsetSize(grown, InWindow(log, now) + {member});
      }
    }
  }

  function Replay(store: Store, events: seq<Event>, limit: nat): Store
    decreases |events|
  {
    if events == [] then store else Replay(After(store, events[0], limit), events[1..], limit)
  }

  function ClockAfter(clock: int, events: seq<Event>): int
    decreases |events|
  {
    if events == [] then clock else ClockAfter(events[0].now, events[1..])
  }

  function UsedAfter(used: set<Member>, events: seq<Event>): set<Member>
    decreases |events|
  {
    if events == [] then used
    else UsedAfter(if events[0].Call? then used + {events[0].member} else used, events[1..])
  }

  /** What every reachable state keeps: the set still stands for the log, and no window of the log is overfull. */
  lemma {:induction false} RunKeeps(
    k: Key, store: Store, log: Scores, events: seq<Event>, clock: int, used: set<Member>, limit: nat)
    requires Represents(Lookup(store, k), log, clock) && log.Keys <= used && WithinLimit(log, limit)
    requires Timed(clock, events) && Fresh(used, events)
    ensures var log' := AdmissionLog(k, log, store, events, limit);
            && Represents(Lookup(Replay(store, events, limit), k), log', ClockAfter(clock, events))
            && WithinLimit(log', limit)
            && log'.Keys <= UsedAfter(used, events)
    decreases |events|
  {
    if events != [] {
      var e := events[0];
      StepKeeps(k, store, e, log, clock, limit);
      if Admits(k, store, e, limit) {
        VerdictAgrees(k, store, e, log, clock, limit);
        AdmissionKeepsWindows(log, e.member, e.now, limit);
      }
      RunKeeps(k, After(store, e, limit), Logged(k, log, store, e, limit), events[1..], e.now,
               if e.Call? then used + {e.member} else used, limit);
    }
  }

  /** Every window of every run, not only those that end at a call, holds at most `limit` admissions. */
  lemma {:induction false} WindowGuarantee(k: Key, events: seq<Event>, clock: int, limit: nat)
    requires Timed(clock, events) && Fresh({}, events)
    ensures forall t :: |InWindow(AdmissionLog(k, map[], map[], events, limit), t)| <= limit
  {
    assert forall t :: InWindow(map[], t) == {};
    RunKeeps(k, map[], map[], events, clock, {}, limit);
  }

  // ---------------------------------------------------------------------------------------------
  // What may be erased from a run
  // ---------------------------------------------------------------------------------------------

  function Kept(events: seq<Event>, keep: seq<bool>): seq<Event>
    requires |events| == |keep|
    decreases |events|
  {
    if events == [] then []
    else (if keep[0] then [events[0]] else []) + Kept(events[1..], keep[1..])
  }

  /** What is dropped is no admission on `k`: denied calls, calls on other keys, expiries. */
  predicate DropsNoAdmission(k: Key, store: Store, events: seq<Event>, keep: seq<bool>, limit: nat)
    requires |events| == |keep|
    decreases |events|
  {
    events == [] ||
    ((Admits(k, store, events[0], limit) ==> keep[0]) &&
     DropsNoAdmission(k, After(store, events[0], limit), events[1..], keep[1..], limit))
  }

  /** The verdicts on `k` in a run, of the kept calls only. */
  function KeptVerdicts(k: Key, store: Store, events: seq<Event>, keep: seq<bool>, limit: nat): seq<Verdict>
    requires |events| == |keep|
    decreases |events|
  {
    if events == [] then []
    else
      (if keep[0] && events[0].Call? && events[0].key == k then [VerdictOf(store, events[0], limit)] else [])
      + KeptVerdicts(k, After(store, events[0], limit), events[1..], keep[1..], limit)
  }

  function Verdicts(k: Key, store: Store, events: seq<Event>, limit: nat): seq<Verdict> {
    KeptVerdicts(k, store, events, seq(|events|, _ => true), limit)
  }

  lemma VerdictsCons(k: Key, store: Store, e: Event, rest: seq<Event>, limit: nat)
    ensures Verdicts(k, store, [e] + rest, limit) ==
            (if e.Call? && e.key == k then [VerdictOf(store, e, limit)] else [])
            + Verdicts(k, After(store, e, limit), rest, limit)
  {
    var all := seq(|[e] + rest|, _ => true);
    assert all[1..] == seq(|rest|, _ => true);
    assert ([e] + rest)[1..] == rest;
  }

  lemma {:induction false} ErasureFrom(
    k: Key, full: Store, lean: Store, log: Scores, events: seq<Event>, keep: seq<bool>,
    clock: int, leanClock: int, used: set<Member>, limit: nat)
    requires |events| == |keep|
    requires Represents(Lookup(full, k), log, clock) && Represents(Lookup(lean, k), log, leanClock)
    requires leanClock <= clock && log.Keys <= used
    requires Timed(clock, events) && Fresh(used, events) && DropsNoAdmission(k, full, events, keep, limit)
    ensures Verdicts(k, lean, Kept(events, keep), limit) == KeptVerdicts(k, full, events, keep, limit)
    decreases |events|
  {
    if events == [] {
      return;
    }
    var e := events[0];
    var used' := if e.Call? then used + {e.member} else used;
    StepKeeps(k, full, e, log, clock, limit);
    LogAgrees(k, full, e, log, clock, limit);
    if keep[0] {
      StepKeeps(k, lean, e, log, leanClock, limit);
      LogAgrees(k, lean, e, log, leanClock, limit);
      if e.Call? && e.key == k {
        VerdictAgrees(k, full, e, log, clock, limit);
        VerdictAgrees(k, lean, e, log, leanClock, limit);
      }
      VerdictsCons(k, lean, e, Kept(events[1..], keep[1..]), limit);
      ErasureFrom(k, After(full, e, limit), After(lean, e, limit), Logged(k, log, full, e, limit),
                  events[1..], keep[1..], e.now, e.now, used', limit);
    } else {
      assert Kept(events, keep) == Kept(events[1..], keep[1..]);
      ErasureFrom(k, After(full, e, limit), lean, log, events[1..], keep[1..], e.now, leanClock, used', limit);
    }
  }

  /**
   Erasing any choice of denied calls, of calls on other keys and of expiries from any run leaves the
   verdict of every remaining call on `k`, its waiting time included, unchanged: a denial postpones nothing.
   */
  lemma {:induction false} ErasureChangesNothing(k: Key, events: seq<Event>, keep: seq<bool>, clock: int, limit: nat)
    requires |events| == |keep|
    requires Timed(clock, events) && Fresh({}, events) && DropsNoAdmission(k, map[], events, keep, limit)
    ensures Verdicts(k, map[], Kept(events, keep), limit) == KeptVerdicts(k, map[], events, keep, limit)
  {
    ErasureFrom(k, map[], map[], map[], events, keep, clock, clock, {}, limit);
  }

  /** `n` calls on `k`, all at one instant. */
  predicate Burst(k: Key, now: int, events: seq<Event>) {
    forall i :: 0 <= i < |events| ==> events[i].Call? && events[i].key == k && events[i].now == now
  }

  /** `n` decisions of which the first `admitted` are positive. */
  function FirstAdmitted(n: nat, admitted: int): seq<bool> {
    seq(n, i requires 0 <= i < n => i < admitted)
  }

  lemma FirstThenRest(n: nat, admitted: int)
    requires n > 0
    ensures FirstAdmitted(n, admitted) == [0 < admitted] + FirstAdmitted(n - 1, admitted - 1)
    ensures admitted <= 0 ==> FirstAdmitted(n - 1, admitted - 1) == FirstAdmitted(n - 1, admitted)
  {
  }

  lemma WindowTakesOneMore(log: Scores, member: Member, now: int)
    requires member !in log
    ensures |InWindow(log[member := now], now)| == |InWindow(log, now)| + 1
  {
    var (before, after) := (InWindow(log, now), InWindow(log[member := now], now));
    assert member !in before;
    assert after == before + {member};
  }

  lemma {:induction false} BurstFrom(k: Key, log: Scores, now: int, events: seq<Event>, used: set<Member>, limit: nat)
    requires Burst(k, now, events) && Fresh(used, events) && log.Keys <= used
    requires |InWindow(log, now)| <= limit
    ensures SpecDecisions(k, log, events, limit) == FirstAdmitted(|events|, limit - |InWindow(log, now)|)
    decreases |events|
  {
    hide InWindow, FirstAdmitted;
    if events == [] {
      assert FirstAdmitted(0, limit - |InWindow(log, now)|) == [] by { NoneAdmitted(limit - |InWindow(log, now)|); }
    } else {
      var e := events[0];
      var room := limit - |InWindow(log, now)|;
      FirstThenRest(|events|, room);
      assert Burst(k, now, events[1..]);
      if room > 0 {
        WindowTakesOneMore(log, e.member, now);
        BurstFrom(k, log[e.member := now], now, events[1..], used + {e.member}, limit);
      } else {
        BurstFrom(k, log, now, events[1..], used + {e.member}, limit);
      }
    }
  }

  lemma NoneAdmitted(admitted: int)
    ensures FirstAdmitted(0, admitted) == []
  {
  }

  /** A burst on an empty key: the first `limit` calls are admitted and no other, whatever their order. */
  lemma {:induction false} BurstAdmitsFirstLimit(k: Key, now: int, events: seq<Event>, limit: nat)
    requires Burst(k, now, events) && Fresh({}, events) && Timed(now, events)
    ensures Decisions(k, map[], events, limit) == seq(|events|, i requires 0 <= i < |events| => i < limit)
  {
    hide Burst, Fresh, Timed, Decisions, SpecDecisions;
    assert InWindow(map[], now) == {};
    BurstFrom(k, map[], now, events, {}, limit);
    PruningAndExpiryChangeNothing(k, events, now, limit);
  }

  // ---------------------------------------------------------------------------------------------
  // The waiting time
  // ---------------------------------------------------------------------------------------------

  /** The seconds `retry_after` returns: rounded up, then clamped to 1..60. */
  function RetrySeconds(retryMs: int): int {
    Max(1, Min(RATE_LIMIT_WINDOW_SECONDS, (retryMs + 999) / 1000))
  }

  /** On the log alone: a full window reopens exactly when its oldest admission leaves it. */
  lemma OldestReopens(log: Scores, now: int, later: int, limit: nat)
    requires WithinLimit(log, limit) && limit > 0 && now <= later
    requires forall m :: m in log ==> log[m] <= now
    requires |InWindow(log, now)| >= limit
    ensures var live := Prune(log, now - WINDOW_MS);
            && live.Keys == InWindow(log, now) && live != map[]
            && now - WINDOW_MS < Oldest(live) <= now
            && (|InWindow(log, later)| < limit <==> Oldest(live) + WINDOW_MS <= later)
  {
    var live := Prune(log, now - WINDOW_MS);
    assert live.Keys == InWindow(log, now);
    assert |InWindow(log, now)| <= limit;
    var oldest := Oldest(live);
    var m :| m in live && live[m] == oldest;
    if later < oldest + WINDOW_MS {
      forall x | x in InWindow(log, now) ensures x in InWindow(log, later) {
        assert x in live;
      }
      SubsetSize(InWindow(log, now), InWindow(log, later));
    } else {
      SubsetSize(InWindow(log, later), InWindow(log, now) - {m});
    }
  }

  /** No call on `k` is admitted in this stretch of a run. */
  predicate Quiet(k: Key, store: Store, events: seq<Event>, limit: nat)
    decreases |events|
  {
    events == [] ||
    (!Admits(k, store, events[0], limit) && Quiet(k, After(store, events[0], limit), events[1..], limit))
  }

  lemma {:induction false} QuietKeepsLog(k: Key, log: Scores, store: Store, events: seq<Event>, limit: nat)
    requires Quiet(k, store, events, limit)
    ensures AdmissionLog(k, log, store, events, limit) == log
    decreases |events|
  {
    if events != [] { QuietKeepsLog(k, log, After(store, events[0], limit), events[1..], limit); }
  }

  lemma DenialKeeps(k: Key, store: Store, denied: Event, log: Scores, clock: int, limit: nat)
    requires Represents(Lookup(store, k), log, clock) && clock <= denied.now
    requires denied.Call? && !VerdictOf(store, denied, limit).allowed && denied.key == k
    ensures Represents(Lookup(After(store, denied, limit), k), log, denied.now)
  {
  }

  lemma TightOnOneLog(k: Key, store: Store, denied: Event, later: Store, e: Event,
                      log: Scores, clock: int, laterClock: int, limit: nat)
    requires Represents(Lookup(store, k), log, clock) && WithinLimit(log, limit) && limit > 0
    requires denied.Call? && denied.key == k && clock <= denied.now
    requires !VerdictOf(store, denied, limit).allowed
    requires Represents(Lookup(later, k), log, laterClock)
    requires e.Call? && e.key == k && laterClock <= e.now && denied.now <= e.now
    ensures var wait := VerdictOf(store, denied, limit).retryMs;
            && 1 <= wait <= WINDOW_MS
            && (VerdictOf(later, e, limit).allowed <==> denied.now + wait <= e.now)
  {
    hide Represents, Lookup, LiveAt, VerdictOf, InWindow, Prune, WithinLimit;
    VerdictAgrees(k, store, denied, log, clock, limit);
    VerdictAgrees(k, later, e, log, laterClock, limit);
    LogIsPast(Lookup(store, k), log, clock, denied.now);
    OldestReopens(log, denied.now, e.now, limit);
  }

  lemma LogIsPast(st: SortedSet, log: Scores, clock: int, now: int)
    requires Represents(st, log, clock) && clock <= now
    ensures forall m :: m in log ==> log[m] <= now
  {
  }

  /** A run `before`, a denied call on `k`, a stretch that admits nothing on `k`, and then a call `e` on `k`. */
  ghost predicate DeniedThenQuiet(k: Key, before: seq<Event>, denied: Event, between: seq<Event>, e: Event, clock: int,
                                  limit: nat) {
    && denied.Call? && denied.key == k && e.Call? && e.key == k
    && Timed(clock, before) && ClockAfter(clock, before) <= denied.now
    && Timed(denied.now, between) && ClockAfter(denied.now, between) <= e.now && denied.now <= e.now
    && Fresh({}, before) && denied.member !in UsedAfter({}, before)
    && Fresh(UsedAfter({}, before) + {denied.member}, between)
    && var s0 := Replay(map[], before, limit);
       !VerdictOf(s0, denied, limit).allowed && Quiet(k, After(s0, denied, limit), between, limit)
  }

  /** The wait the denied call is given, and whether the later call is admitted. */
  function WaitOf(before: seq<Event>, denied: Event, limit: nat): int
    requires denied.Call?
  {
    VerdictOf(Replay(map[], before, limit), denied, limit).retryMs
  }

  predicate AdmittedAfter(before: seq<Event>, denied: Event, between: seq<Event>, e: Event, limit: nat)
    requires denied.Call? && e.Call?
  {
    VerdictOf(Replay(After(Replay(map[], before, limit), denied, limit), between, limit), e, limit).allowed
  }

  /**
   A denial's wait is tight. In every run, after a denied call and any stretch that admits nothing on `k`,
   the next call is admitted from now + retryMs on and not a millisecond earlier.
   */
  lemma {:induction false} RetryIsTight(
    k: Key, before: seq<Event>, denied: Event, between: seq<Event>, e: Event, clock: int, limit: nat)
    requires limit > 0 && DeniedThenQuiet(k, before, denied, between, e, clock, limit)
    ensures var wait := WaitOf(before, denied, limit);
            && 1 <= wait <= WINDOW_MS
            && (AdmittedAfter(before, denied, between, e, limit) <==> denied.now + wait <= e.now)
  {
    hide Represents, VerdictOf, After;
    var log := AdmissionLog(k, map[], map[], before, limit);
    var s0 := Replay(map[], before, limit);
    var s1 := After(s0, denied, limit);
    NothingLoggedYet(k, clock, limit);
    RunKeeps(k, map[], map[], before, clock, {}, limit);
    DenialKeeps(k, s0, denied, log, ClockAfter(clock, before), limit);
    RunKeeps(k, s1, log, between, denied.now, UsedAfter({}, before) + {denied.member}, limit);
    QuietKeepsLog(k, log, s1, between, limit);
    TightOnOneLog(k, s0, denied, Replay(s1, between, limit), e, log, ClockAfter(clock, before),
                  ClockAfter(denied.now, between), limit);
  }

  lemma NothingLoggedYet(k: Key, clock: int, limit: nat)
    ensures Represents(Lookup(map[], k), map[], clock) && WithinLimit(map[], limit)
  {
    assert forall t :: InWindow(map[], t) == {};
  }

  /**
   The clamp never shortens a wait the script can return: the seconds suffice, one second less does not,
   and the bounds 1 and 60 are met without clamping.
   */
  lemma SecondsSuffice(retryMs: int)
    requires 1 <= retryMs <= WINDOW_MS
    ensures 1 <= RetrySeconds(retryMs) <= RATE_LIMIT_WINDOW_SECONDS
    ensures (RetrySeconds(retryMs) - 1) * 1000 < retryMs <= RetrySeconds(retryMs) * 1000
  {
  }

  /**
   What `retry_after` promises a denied caller, for every run: while nothing else is admitted on the key, a call that
   waits the seconds returned is admitted, and one that waits a second less, or not as long, is denied.
   */
  lemma {:induction false} SecondsAreTight(
    k: Key, before: seq<Event>, denied: Event, between: seq<Event>, e: Event, clock: int, limit: nat)
    requires limit > 0 && DeniedThenQuiet(k, before, denied, between, e, clock, limit)
    ensures var seconds := RetrySeconds(WaitOf(before, denied, limit));
            && 1 <= seconds <= RATE_LIMIT_WINDOW_SECONDS
            && (denied.now + 1000 * seconds <= e.now ==> AdmittedAfter(before, denied, between, e, limit))
            && (e.now <= denied.now + 1000 * (seconds - 1) ==> !AdmittedAfter(before, denied, between, e, limit))
  {
    hide AdmittedAfter, WaitOf, Replay, Timed, Fresh, Quiet, VerdictOf;
    RetryIsTight(k, before, denied, between, e, clock, limit);
    SecondsSuffice(WaitOf(before, denied, limit));
  }

  // ---------------------------------------------------------------------------------------------
  // The client
  // ---------------------------------------------------------------------------------------------

  /** Milliseconds from the two parts of the Redis TIME reply. */
  function NowMs(seconds: int, micros: nat): int { seconds * 1000 + micros / 1000 }

  /** They are the whole milliseconds of the server's time. */
  lemma ClockRoundsDown(seconds: int, micros: nat)
    ensures 1000 * NowMs(seconds, micros) <= 1_000_000 * seconds + micros < 1000 * NowMs(seconds, micros) + 1000
  {
  }

  function KeyFor(scope: string, digest: string): Key {
    REDIS_KEY_PREFIX + ":" + scope + ":" + digest
  }

  /** Scopes hold no colon, so no two limiters and no two clients share a key. */
  lemma KeysAreSeparate(scope: string, digest: string, scope': string, digest': string)
    requires ':' !in scope && ':' !in scope'
    requires KeyFor(scope, digest) == KeyFor(scope', digest')
    ensures scope == scope' && digest == digest'
  {
    var n := |REDIS_KEY_PREFIX| + 1;
    var a, b := KeyFor(scope, digest), KeyFor(scope', digest');
    assert a[n..] == scope + ":" + digest;
    assert b[n..] == scope' + ":" + digest';
    var tail, tail' := a[n..], b[n..];
    assert tail[|scope|] == ':' && tail'[|scope'|] == ':';
    assert forall i :: 0 <= i < |scope| ==> tail[i] == scope[i];
    assert forall i :: 0 <= i < |scope'| ==> tail'[i] == scope'[i];
    assert scope == tail[..|scope|] && digest == tail[|scope| + 1..];
    assert scope' == tail'[..|scope'|] && digest' == tail'[|scope'| + 1..];
  }

  /** What the client hands back for an `eval`: anything that is no pair of integers is `Malformed`. */
  datatype RawReply = Malformed | Integers(items: seq<int>)

  datatype ClientError = NotConfigured | Unavailable

  function ParseScriptResult(raw: RawReply): Option<Verdict> {
    if raw.Malformed? || |raw.items| != 2 then None
    else if raw.items[0] !in {0, 1} || raw.items[1] < 0 then None
    else Some(Verdict(raw.items[0] == 1, raw.items[1]))
  }

  /** A decision is read from a pair of integers only: a flag that is 0 or 1, and a wait that is not negative. */
  lemma OnlyPairsAreDecisions(raw: RawReply, v: Verdict)
    ensures ParseScriptResult(raw) == Some(v) <==>
              v.retryMs >= 0 && raw == Integers([if v.allowed then 1 else 0, v.retryMs])
  {
    if raw.Integers? && |raw.items| == 2 {
      assert raw.items == [raw.items[0], raw.items[1]];
    }
  }

  class RedisServer {
    var store: Store

    constructor ()
      ensures store == map[]
    {
      store := map[];
    }

    /** The script, statement by statement: prune, count, then deny or add, and reset the expiry. */
    method Eval(key: Key, seconds: int, micros: nat, limit: nat, member: Member) returns (reply: RawReply)
      modifies this
      ensures store == After(old(store), Call(key, NowMs(seconds, micros), member), limit)
      ensures ParseScriptResult(reply) == Some(VerdictOf(old(store), Call(key, NowMs(seconds, micros), member), limit))
    {
      var now := seconds * 1000 + micros / 1000;
      var live := Prune(Lookup(store, key).scores, now - WINDOW_MS);
      if |live| >= limit {
        var retryMs := WINDOW_MS;
        if live != map[] {
          retryMs := Max(1, WINDOW_MS - (now - Oldest(live)));
        }
        store := store[key := SortedSet(live, now + WINDOW_MS)];
        reply := Integers([0, retryMs]);
      } else {
        live := live[member := now];
        store := store[key := SortedSet(live, now + WINDOW_MS)];
        reply := Integers([1, 0]);
      }
    }

    /** Redis drops a key whose deadline has passed. */
    method DropExpired(key: Key, now: int)
      modifies this
      ensures store == After(old(store), Expire(key, now), 0)
    {
      if now >= Lookup(store, key).deadline {
        store := store - {key};
      }
    }
  }

  datatype ConfigurationError = BadScope | BadLimit

  type Limit = n: nat | n > 0 witness 1

  class SlidingWindowRateLimiter {
    const scope: string
    const limit: Limit
    const server: RedisServer?

    constructor (scope: string, limit: Limit, server: RedisServer?)
      ensures this.scope == scope && this.limit == limit && this.server == server
    {
      this.scope, this.limit, this.server := scope, limit, server;
    }

    /** `__init__`: a scope is a non-empty key segment, so that keys stay separate. */
    static method Create(scope: string, limit: int, server: RedisServer?)
      returns (r: Result<SlidingWindowRateLimiter, ConfigurationError>)
      ensures scope == "" || ':' in scope ==> r == Err(BadScope)
      ensures scope != "" && ':' !in scope && limit <= 0 ==> r == Err(BadLimit)
      ensures scope != "" && ':' !in scope && limit > 0 ==>
                r.Ok? && fresh(r.value) && r.value.scope == scope && r.value.limit == limit && r.value.server == server
    {
      if scope == "" || ':' in scope { return Err(BadScope); }
      if limit <= 0 { return Err(BadLimit); }
      var limiter := new SlidingWindowRateLimiter(scope, limit, server);
      return Ok(limiter);
    }

    /**
     None admits; a number is the wait in seconds. Without an answer no decision is made, whether or not
     the script ran.
     */
    method RetryAfter(digest: string, seconds: int, micros: nat, member: Member, connection: Connection)
      returns (r: Result<Option<int>, ClientError>)
      modifies server
      ensures server == null ==> r == Err(NotConfigured)
      ensures server != null && !connection.Answers? ==> r == Err(Unavailable)
      ensures server != null && connection.Unreached? ==> server.store == old(server.store)
      ensures server != null && !connection.Unreached? ==>
                var call := Call(KeyFor(scope, digest), NowMs(seconds, micros), member);
                server.store == After(old(server.store), call, limit)
      ensures server != null && connection.Answers? ==>
                var call := Call(KeyFor(scope, digest), NowMs(seconds, micros), member);
                var v := VerdictOf(old(server.store), call, limit);
                r == Ok(if v.allowed then None else Some(RetrySeconds(v.retryMs)))
    {
      if server == null {
        return Err(NotConfigured);
      }
      if connection.Unreached? {
        return Err(Unavailable);
      }
      var raw := server.Eval(KeyFor(scope, digest), seconds, micros, limit, member);
      var parsed := ParseScriptResult(raw);
      if connection.AnswerLost? || parsed.None? {
        return Err(Unavailable);
      }
      if parsed.value.allowed {
        return Ok(None);
      }
      return Ok(Some(Max(1, Min(RATE_LIMIT_WINDOW_SECONDS, (parsed.value.retryMs + 999) / 1000))));
    }
  }
}
