/**
 The rate limiter on the server's own clock. Redis tells the time in seconds and microseconds; the script works on whole
 milliseconds. What the limiter promises is stated here on the replies of TIME.
 */
module RateLimiterClock {
  import opened RateLimiter

  /** A call that reads its time from TIME, or Redis dropping a key. */
  datatype Request =
    | Ask(key: Key, seconds: int, micros: nat, member: Member)
    | Lapse(key: Key, seconds: int, micros: nat)

  /** The server's time, in microseconds. */
  function TimeOf(q: Request): int { 1_000_000 * q.seconds + q.micros }

  function AsEvent(q: Request): Event {
    match q
    case Ask(key, seconds, micros, member) => Call(key, NowMs(seconds, micros), member)
    case Lapse(key, seconds, micros) => Expire(key, NowMs(seconds, micros))
  }

  function AsEvents(requests: seq<Request>): seq<Event> {
    if requests == [] then [] else [AsEvent(requests[0])] + AsEvents(requests[1..])
  }

  /** A nondecreasing clock. */
  predicate InOrder(clock: int, requests: seq<Request>)
    decreases |requests|
  {
    requests == [] || (clock <= TimeOf(requests[0]) && InOrder(TimeOf(requests[0]), requests[1..]))
  }

  function TimeAfter(clock: int, requests: seq<Request>): int
    decreases |requests|
  {
    if requests == [] then clock else TimeAfter(TimeOf(requests[0]), requests[1..])
  }

  lemma EventTime(q: Request)
    ensures 1000 * AsEvent(q).now <= TimeOf(q) < 1000 * AsEvent(q).now + 1000
  {
    ClockRoundsDown(q.seconds, q.micros);
  }

  lemma {:induction false} OrderIsKept(clock: int, clockMs: int, requests: seq<Request>)
    requires InOrder(clock, requests) && 1000 * clockMs <= clock < 1000 * clockMs + 1000
    ensures Timed(clockMs, AsEvents(requests))
    ensures var (end, endMs) := (TimeAfter(clock, requests), ClockAfter(clockMs, AsEvents(requests)));
            1000 * endMs <= end < 1000 * endMs + 1000
    decreases |requests|
  {
    if requests != [] {
      EventTime(requests[0]);
      OrderIsKept(TimeOf(requests[0]), AsEvent(requests[0]).now, requests[1..]);
      assert AsEvents(requests)[1..] == AsEvents(requests[1..]);
    }
  }

  // ---------------------------------------------------------------------------------------------
  // Windows of server time
  // ---------------------------------------------------------------------------------------------

  /** Every admission on `k`, with the server's time in microseconds. */
  function Admissions(k: Key, log: Scores, store: Store, requests: seq<Request>, limit: nat): Scores
    decreases |requests|
  {
    if requests == [] then log
    else
      var q := requests[0];
      Admissions(k, if Admits(k, store, AsEvent(q), limit) then log[q.member := TimeOf(q)] else log,
                 After(store, AsEvent(q), limit), requests[1..], limit)
  }

  /** The same members, each with the whole milliseconds of its time. */
  ghost predicate SameAdmissions(micros: Scores, millis: Scores) {
    && micros.Keys == millis.Keys
    && forall m :: m in micros ==> 1000 * millis[m] <= micros[m] < 1000 * millis[m] + 1000
  }

  lemma {:induction false} LogsAgree(
    k: Key, micros: Scores, millis: Scores, store: Store, requests: seq<Request>, limit: nat)
    requires SameAdmissions(micros, millis)
    ensures SameAdmissions(Admissions(k, micros, store, requests, limit),
                           AdmissionLog(k, millis, store, AsEvents(requests), limit))
    decreases |requests|
  {
    if requests != [] {
      var q := requests[0];
      EventTime(q);
      assert AsEvents(requests)[0] == AsEvent(q) && AsEvents(requests)[1..] == AsEvents(requests[1..]);
      var admitted := Admits(k, store, AsEvent(q), limit);
      LogsAgree(k, if admitted then micros[q.member := TimeOf(q)] else micros,
                Logged(k, millis, store, AsEvent(q), limit), After(store, AsEvent(q), limit), requests[1..], limit);
    }
  }

  /** The admissions from `start` on, for `length` microseconds. */
  function Within(log: Scores, start: int, length: int): set<Member> {
    set m | m in log && start <= log[m] < start + length
  }

  ghost predicate Served(clock: int, requests: seq<Request>) {
    InOrder(clock, requests) && Fresh({}, AsEvents(requests))
  }

  /** In every run, the 60 seconds that start on any millisecond hold at most `limit` admissions of one key. */
  lemma {:induction false} AnyMinuteFromAMillisecond(
    k: Key, requests: seq<Request>, clock: int, limit: nat, startMs: int)
    requires Served(clock, requests)
    ensures |Within(Admissions(k, map[], map[], requests, limit), 1000 * startMs, 60_000_000)| <= limit
  {
    hide InOrder, Fresh, Admissions, AdmissionLog;
    OrderIsKept(clock, clock / 1000, requests);
    WindowGuarantee(k, AsEvents(requests), clock / 1000, limit);
    LogsAgree(k, map[], map[], map[], requests, limit);
    var log := Admissions(k, map[], map[], requests, limit);
    var millis := AdmissionLog(k, map[], map[], AsEvents(requests), limit);
    var counted := Within(log, 1000 * startMs, 60_000_000);
    assert counted <= InWindow(millis, startMs + 59_999);
    SubsetSize(counted, InWindow(millis, startMs + 59_999));
  }

  /** As the admissions of any shorter time lie in such a minute, no window of 59.999001 seconds holds more. */
  lemma {:induction false} AnyWindow(k: Key, requests: seq<Request>, clock: int, limit: nat, start: int, length: int)
    requires Served(clock, requests) && length <= 59_999_001
    ensures |Within(Admissions(k, map[], map[], requests, limit), start, length)| <= limit
  {
    hide Served, Admissions;
    AnyMinuteFromAMillisecond(k, requests, clock, limit, start / 1000);
    var log := Admissions(k, map[], map[], requests, limit);
    SubsetSize(Within(log, start, length), Within(log, 1000 * (start / 1000), 60_000_000));
  }

  ghost predicate AlwaysWithinLimit(length: int) {
    forall k, requests, clock, limit: nat, start :: Served(clock, requests) && limit > 0 ==>
      |Within(Admissions(k, map[], map[], requests, limit), start, length)| <= limit
  }

  /** Two calls less than a minute apart, of which the second finds the first already pruned. */
  function TooClose(): seq<Request> {
    [Ask("", 0, 999, Member(0)), Ask("", 60, 0, Member(1))]
  }

  lemma BothAreAdmitted()
    ensures Served(0, TooClose())
    ensures Admissions("", map[], map[], TooClose(), 1) == map[Member(0) := 999, Member(1) := 60_000_000]
  {
    var (a, b) := (TooClose()[0], TooClose()[1]);
    assert TooClose()[1..] == [b] && [b][1..] == [];
    assert AsEvents(TooClose()) == [AsEvent(a), AsEvent(b)];
    assert [AsEvent(a), AsEvent(b)][1..] == [AsEvent(b)] && [AsEvent(b)][1..] == [];
    assert LiveAt(map[], "", 0) == map[];
    var store := After(map[], AsEvent(a), 1);
    assert Lookup(store, "") == SortedSet(map[Member(0) := 0], WINDOW_MS);
    assert LiveAt(store, "", 60_000) == map[];
    FirstThenSecond(a, b, store);
  }

  lemma FirstThenSecond(a: Request, b: Request, store: Store)
    requires a == Ask("", 0, 999, Member(0)) && b == Ask("", 60, 0, Member(1))
    requires LiveAt(map[], "", 0) == map[] && store == After(map[], AsEvent(a), 1) && LiveAt(store, "", 60_000) == map[]
    ensures Admissions("", map[], map[], [a, b], 1) == map[Member(0) := 999, Member(1) := 60_000_000]
  {
    assert Admits("", map[], AsEvent(a), 1) && Admits("", store, AsEvent(b), 1);
    var log := map[Member(0) := 999];
    assert [a, b][1..] == [b] && [b][1..] == [];
    assert Admissions("", log, store, [b], 1) == log[Member(1) := 60_000_000];
  }

  /**
   Rounding to milliseconds costs the guarantee up to one of them: a window of any start never holds more than the limit
   exactly when it is no longer than 59.999001 seconds.
   */
  lemma WindowsExactly(length: int)
    ensures AlwaysWithinLimit(length) <==> length <= 59_999_001
  {
    hide Served, Admissions;
    if length <= 59_999_001 {
      forall k, requests, clock, limit: nat, start | Served(clock, requests) && limit > 0
        ensures |Within(Admissions(k, map[], map[], requests, limit), start, length)| <= limit
      {
        AnyWindow(k, requests, clock, limit, start, length);
      }
    } else {
      BothAreAdmitted();
      var log := Admissions("", map[], map[], TooClose(), 1);
      assert Within(log, 999, length) == {Member(0), Member(1)};
      assert Served(0, TooClose()) && |Within(log, 999, length)| == 2;
    }
  }

  // ---------------------------------------------------------------------------------------------
  // The wait
  // ---------------------------------------------------------------------------------------------

  /** On the server's clock: requests, a denied one on `k`, others of which none is admitted on `k`, and one on `k`. */
  ghost predicate Waits(k: Key, before: seq<Request>, denied: Request, between: seq<Request>, next: Request, clock: int,
                        limit: nat) {
    && denied.Ask? && denied.key == k && next.Ask? && next.key == k
    && InOrder(clock, before) && TimeAfter(clock, before) <= TimeOf(denied)
    && InOrder(TimeOf(denied), between) && TimeAfter(TimeOf(denied), between) <= TimeOf(next)
    && Fresh({}, AsEvents(before)) && denied.member !in UsedAfter({}, AsEvents(before))
    && Fresh(UsedAfter({}, AsEvents(before)) + {denied.member}, AsEvents(between))
    && var s0 := Replay(map[], AsEvents(before), limit);
       && !VerdictOf(s0, AsEvent(denied), limit).allowed
       && Quiet(k, After(s0, AsEvent(denied), limit), AsEvents(between), limit)
  }

  lemma {:induction false} TimeGoesOn(clock: int, requests: seq<Request>)
    requires InOrder(clock, requests)
    ensures clock <= TimeAfter(clock, requests)
    decreases |requests|
  {
    if requests != [] { TimeGoesOn(TimeOf(requests[0]), requests[1..]); }
  }

  lemma {:induction false} WaitsInMillis(
    k: Key, before: seq<Request>, denied: Request, between: seq<Request>, next: Request, clock: int, limit: nat)
    requires Waits(k, before, denied, between, next, clock, limit)
    ensures DeniedThenQuiet(k, AsEvents(before), AsEvent(denied), AsEvents(between), AsEvent(next), clock / 1000, limit)
  {
    hide InOrder, Fresh, Quiet, Replay, VerdictOf, Timed;
    EventTime(denied);
    EventTime(next);
    OrderIsKept(clock, clock / 1000, before);
    OrderIsKept(TimeOf(denied), AsEvent(denied).now, between);
    TimeGoesOn(TimeOf(denied), between);
  }

  /**
   What a denied client is promised, on the server's clock: while nothing else is admitted for it, a call at least the
   returned seconds later is admitted, and one that is a second or more short of them is denied.
   */
  lemma {:induction false} ClientsCanRelyOnSeconds(
    k: Key, before: seq<Request>, denied: Request, between: seq<Request>, next: Request, clock: int, limit: nat)
    requires limit > 0 && Waits(k, before, denied, between, next, clock, limit)
    ensures var seconds := RetrySeconds(WaitOf(AsEvents(before), AsEvent(denied), limit));
            var admitted := AdmittedAfter(AsEvents(before), AsEvent(denied), AsEvents(between), AsEvent(next), limit);
            && 1 <= seconds <= 60
            && (TimeOf(denied) + 1_000_000 * seconds <= TimeOf(next) ==> admitted)
            && (TimeOf(next) <= TimeOf(denied) + 1_000_000 * (seconds - 1) ==> !admitted)
  {
    hide Waits, AdmittedAfter, WaitOf, RetrySeconds, DeniedThenQuiet;
    WaitsInMillis(k, before, denied, between, next, clock, limit);
    assert denied.Ask? && next.Ask? by { WaitsAreAsked(k, before, denied, between, next, clock, limit); }
    EventTime(denied);
    EventTime(next);
    SecondsAreTight(k, AsEvents(before), AsEvent(denied), AsEvents(between), AsEvent(next), clock / 1000, limit);
  }

  lemma WaitsAreAsked(k: Key, before: seq<Request>, denied: Request, between: seq<Request>, next: Request, clock: int,
                      limit: nat)
    requires Waits(k, before, denied, between, next, clock, limit)
    ensures denied.Ask? && next.Ask?
  {
  }
}
