/**
 Team profiles from match histories, and the expected goals of a pairing: averages, bounded signals, and two
 clamped rates moved in opposite directions by one weighted sum.
 */
module ExpectedGoals {
  import opened Wrappers
  import opened MarketRounding
  import opened PoissonMarkets
  import opened PoissonShares

  const RECENT_WINDOW_MATCHES: nat := 5
  const MINIMUM_RESULTS_PER_TEAM: nat := 3
  const MAX_REASONABLE_GOALS_PER_TEAM: int := 100

  // ---------------------------------------------------------------------------------------------
  // Histories and profiles
  // ---------------------------------------------------------------------------------------------

  datatype MatchObservation = MatchObservation(
    matchId: int, homeTeam: int, awayTeam: int,
    goalsHome: Option<int>, goalsAway: Option<int>,
    fulltimeHome: Option<int>, fulltimeAway: Option<int>)

  datatype Standing = Standing(rank: int, points: Option<int>, played: Option<int>)

  datatype Statistics = Statistics(
    shots: Option<real>, shotsOnGoal: Option<real>, possession: Option<real>, corners: Option<real>,
    yellowCards: Option<real>, redCards: Option<real>)

  datatype Profile = Profile(
    resultSampleSize: nat, venueSampleSize: nat,
    form: Option<real>, goalsFor: Option<real>, goalsAgainst: Option<real>,
    venueForm: Option<real>, venueGoalsFor: Option<real>, venueGoalsAgainst: Option<real>,
    shots: Option<real>, possession: Option<real>, corners: Option<real>, cards: Option<real>,
    standingRank: Option<int>, standingPoints: Option<real>)

  datatype Score = Score(scored: int, conceded: int)

  predicate Reasonable(n: Option<int>) {
    n.Some? && 0 <= n.value <= MAX_REASONABLE_GOALS_PER_TEAM
  }

  /** The full-time score if it is usable, else the goals if they are. */
  function FulltimeScore(m: MatchObservation): Option<Score> {
    if Reasonable(m.fulltimeHome) && Reasonable(m.fulltimeAway)
    then Some(Score(m.fulltimeHome.value, m.fulltimeAway.value))
    else if Reasonable(m.goalsHome) && Reasonable(m.goalsAway) then Some(Score(m.goalsHome.value, m.goalsAway.value))
    else None
  }

  /** The score as one team saw it. */
  function ScoreFor(m: MatchObservation, team: int): Option<Score> {
    match FulltimeScore(m)
    case None => None
    case Some(s) =>
      if team == m.homeTeam then Some(s)
      else if team == m.awayTeam then Some(Score(s.conceded, s.scored))
      else None
  }

  predicate AtVenue(m: MatchObservation, team: int, home: bool) {
    if home then m.homeTeam == team else m.awayTeam == team
  }

  /** The usable scores of a history, in order. */
  function Scores(history: seq<MatchObservation>, team: int): seq<Score> {
    if history == [] then []
    else
      Scores(history[..|history| - 1], team)
      + match ScoreFor(history[|history| - 1], team) case Some(s) => [s] case None => []
  }

  /** The usable scores at one venue, in order. */
  function VenueScores(history: seq<MatchObservation>, team: int, home: bool): seq<Score> {
    if history == [] then []
    else
      var m := history[|history| - 1];
      VenueScores(history[..|history| - 1], team, home)
      + if AtVenue(m, team, home) && ScoreFor(m, team).Some? then [ScoreFor(m, team).value] else []
  }

  function FirstFew<T>(s: seq<T>): seq<T> {
    if |s| <= RECENT_WINDOW_MATCHES then s else s[..RECENT_WINDOW_MATCHES]
  }

  function PointsFor(s: Score): real {
    if s.scored > s.conceded then 3.0 else if s.scored == s.conceded then 1.0 else 0.0
  }

  function Sum(values: seq<real>): real {
    if values == [] then 0.0 else Sum(values[..|values| - 1]) + values[|values| - 1]
  }

  function Average(values: seq<real>): Option<real> {
    if values == [] then None else Some(Sum(values) / (|values| as real))
  }

  function Points(scores: seq<Score>): seq<real> {
    seq(|scores|, i requires 0 <= i < |scores| => PointsFor(scores[i]))
  }

  function Scored(scores: seq<Score>): seq<real> {
    seq(|scores|, i requires 0 <= i < |scores| => scores[i].scored as real)
  }

  function Conceded(scores: seq<Score>): seq<real> {
    seq(|scores|, i requires 0 <= i < |scores| => scores[i].conceded as real)
  }

  lemma {:induction false} VenueScoresGrow(history: seq<MatchObservation>, n: nat, team: int, home: bool)
    requires n <= |history|
    ensures VenueScores(history[..n], team, home) <= VenueScores(history, team, home)
    decreases |history|
  {
    if n < |history| {
      var rest := history[..|history| - 1];
      assert rest[..n] == history[..n];
      VenueScoresGrow(rest, n, team, home);
    } else {
      assert history[..n] == history;
    }
  }

  /** The loop over the whole history that stops at five venue results finds the first five of them. */
  method CollectVenueScores(history: seq<MatchObservation>, team: int, home: bool) returns (rows: seq<Score>)
    ensures rows == FirstFew(VenueScores(history, team, home))
  {
    hide ScoreFor, AtVenue, VenueScores;
    NoVenueScoreYet(history[..0], team, home);
    rows := [];
    var i := 0;
    while i < |history|
      invariant i <= |history|
      invariant rows == VenueScores(history[..i], team, home) && |rows| < RECENT_WINDOW_MATCHES
    {
      var m := history[i];
      OneMoreVenueMatch(history, i, team, home);
      var score := ScoreFor(m, team);
      if AtVenue(m, team, home) && score.Some? {
        rows := rows + [score.value];
      }
      i := i + 1;
      if |rows| >= RECENT_WINDOW_MATCHES {
        VenueScoresGrow(history, i, team, home);
        return;
      }
    }
    assert history[..i] == history;
  }

  lemma {:induction false} NoVenueScoreYet(history: seq<MatchObservation>, team: int, home: bool)
    requires history == []
    ensures VenueScores(history, team, home) == []
  {
  }

  lemma {:induction false} OneMoreVenueMatch(history: seq<MatchObservation>, i: nat, team: int, home: bool)
    requires i < |history|
    ensures VenueScores(history[..i + 1], team, home) ==
            VenueScores(history[..i], team, home)
            + (if AtVenue(history[i], team, home) && ScoreFor(history[i], team).Some?
               then [ScoreFor(history[i], team).value] else [])
  {
    hide ScoreFor, AtVenue;
    assert history[..i + 1][..i] == history[..i];
  }

  /** The comprehension over the recent matches. */
  method CollectScores(recent: seq<MatchObservation>, team: int) returns (rows: seq<Score>)
    ensures rows == Scores(recent, team)
  {
    rows := [];
    for i := 0 to |recent|
      invariant rows == Scores(recent[..i], team)
    {
      assert recent[..i + 1][..i] == recent[..i];
      var score := ScoreFor(recent[i], team);
      if score.Some? {
        rows := rows + [score.value];
      }
    }
    assert recent[..|recent|] == recent;
  }

  // ---------------------------------------------------------------------------------------------
  // Averages stay within the bounds of what they average
  // ---------------------------------------------------------------------------------------------

  predicate Within(values: seq<real>, low: real, high: real) {
    forall i :: 0 <= i < |values| ==> low <= values[i] <= high
  }

  lemma OneMoreTime(x: real, n: nat)
    requires n > 0
    ensures x * (n as real) == x * ((n - 1) as real) + x
  {
    var m := (n - 1) as real;
    assert n as real == m + 1.0;
    assert x * (m + 1.0) == x * m + x;
  }

  lemma {:induction false} SumWithin(values: seq<real>, low: real, high: real)
    requires Within(values, low, high)
    ensures low * (|values| as real) <= Sum(values) <= high * (|values| as real)
  {
    if values != [] {
      var rest := values[..|values| - 1];
      SumWithin(rest, low, high);
      OneMoreTime(low, |values|);
      OneMoreTime(high, |values|);
    }
  }

  lemma DivideWithin(sum: real, n: real, low: real, high: real)
    requires n > 0.0 && low * n <= sum <= high * n
    ensures low <= sum / n <= high
  {
    var q := sum / n;
    assert q * n == sum;
    Cancel(low, q, n);
    Cancel(q, high, n);
  }

  lemma Cancel(a: real, b: real, n: real)
    requires n > 0.0 && a * n <= b * n
    ensures a <= b
  {
  }

  lemma AverageWithin(values: seq<real>, low: real, high: real)
    requires values != [] && Within(values, low, high)
    ensures Average(values).Some? && low <= Average(values).value <= high
  {
    SumWithin(values, low, high);
    DivideWithin(Sum(values), |values| as real, low, high);
  }

  predicate OptionWithin(v: Option<real>, low: real, high: real) { v.Some? ==> low <= v.value <= high }

  lemma {:induction false} ScoresReasonable(history: seq<MatchObservation>, team: int)
    ensures forall i :: 0 <= i < |Scores(history, team)| ==>
              var s := Scores(history, team)[i]; 0 <= s.scored <= 100 && 0 <= s.conceded <= 100
  {
    if history != [] { ScoresReasonable(history[..|history| - 1], team); }
  }

  lemma {:induction false} VenueScoresReasonable(history: seq<MatchObservation>, team: int, home: bool)
    ensures forall i :: 0 <= i < |VenueScores(history, team, home)| ==>
              var s := VenueScores(history, team, home)[i]; 0 <= s.scored <= 100 && 0 <= s.conceded <= 100
  {
    if history != [] { VenueScoresReasonable(history[..|history| - 1], team, home); }
  }

  /** A profile's goal averages exist as soon as there is one result, and lie between 0 and 100. */
  predicate WellFormed(p: Profile) {
    && (p.resultSampleSize > 0 ==> p.goalsFor.Some? && p.goalsAgainst.Some?)
    && OptionWithin(p.goalsFor, 0.0, 100.0) && OptionWithin(p.goalsAgainst, 0.0, 100.0)
    && OptionWithin(p.venueGoalsFor, 0.0, 100.0) && OptionWithin(p.venueGoalsAgainst, 0.0, 100.0)
    && OptionWithin(p.form, 0.0, 3.0) && OptionWithin(p.venueForm, 0.0, 3.0)
  }

  /** The three averages over a list of scores. */
  lemma ScoreAverages(scores: seq<Score>)
    requires forall i :: 0 <= i < |scores| ==> 0 <= scores[i].scored <= 100 && 0 <= scores[i].conceded <= 100
    ensures OptionWithin(Average(Points(scores)), 0.0, 3.0)
    ensures OptionWithin(Average(Scored(scores)), 0.0, 100.0) && OptionWithin(Average(Conceded(scores)), 0.0, 100.0)
    ensures scores != [] ==> Average(Scored(scores)).Some? && Average(Conceded(scores)).Some?
  {
    hide Average;
    if scores != [] {
      AverageWithin(Points(scores), 0.0, 3.0);
      AverageWithin(Scored(scores), 0.0, 100.0);
      AverageWithin(Conceded(scores), 0.0, 100.0);
    } else {
      NoAverage(Points(scores));
      NoAverage(Scored(scores));
      NoAverage(Conceded(scores));
    }
  }

  lemma NoAverage(values: seq<real>)
    requires values == []
    ensures Average(values) == None
  {
  }

  function Cards(s: Option<Statistics>, events: Option<real>): Option<real> {
    if s.Some? && s.value.yellowCards.Some? && s.value.redCards.Some?
    then Some(s.value.yellowCards.value + 2.0 * s.value.redCards.value)
    else events
  }

  function Shots(s: Statistics): Option<real> {
    if s.shots.Some? then s.shots else s.shotsOnGoal
  }

  datatype Metric = ShotsMetric | PossessionMetric | CornersMetric | CardsMetric

  type StatisticIndex = map<(int, int), Statistics>
  type CardIndex = map<(int, int), real>

  /** One metric of one team in one match, if it is known. */
  function MetricIn(m: MatchObservation, team: int, metric: Metric, statistics: StatisticIndex,
                    cardEvents: CardIndex): Option<real> {
    var key := (m.matchId, team);
    var stats := if key in statistics then Some(statistics[key]) else None;
    match metric
    case ShotsMetric => if stats.Some? then Shots(stats.value) else None
    case PossessionMetric => if stats.Some? then stats.value.possession else None
    case CornersMetric => if stats.Some? then stats.value.corners else None
    case CardsMetric => Cards(stats, if key in cardEvents then Some(cardEvents[key]) else None)
  }

  /** The known values of a metric, in order. */
  function MetricValues(ms: seq<MatchObservation>, team: int, metric: Metric, statistics: StatisticIndex,
                        cardEvents: CardIndex): seq<real> {
    if ms == [] then []
    else
      MetricValues(ms[..|ms| - 1], team, metric, statistics, cardEvents)
      + match MetricIn(ms[|ms| - 1], team, metric, statistics, cardEvents) case Some(v) => [v] case None => []
  }

  function StandingPointsPerGame(s: Option<Standing>): Option<real> {
    if s.Some? && s.value.points.Some? && s.value.played.Some? && s.value.played.value > 0
    then Some(s.value.points.value as real / s.value.played.value as real)
    else None
  }

  lemma NoMetricYet(ms: seq<MatchObservation>, team: int, statistics: StatisticIndex, cardEvents: CardIndex)
    requires ms == []
    ensures forall metric :: MetricValues(ms, team, metric, statistics, cardEvents) == []
  {
  }

  lemma {:induction false} OneMoreMetric(
    recent: seq<MatchObservation>, i: nat, team: int, metric: Metric, statistics: StatisticIndex, cardEvents: CardIndex)
    requires i < |recent|
    ensures MetricValues(recent[..i + 1], team, metric, statistics, cardEvents) ==
            MetricValues(recent[..i], team, metric, statistics, cardEvents)
            + match MetricIn(recent[i], team, metric, statistics, cardEvents) case Some(v) => [v] case None => []
  {
    hide MetricIn;
    assert recent[..i + 1][..i] == recent[..i];
  }

  /** The loop over the recent matches that collects the known values of each metric. */
  method CollectMetrics(recent: seq<MatchObservation>, team: int, statistics: StatisticIndex, cardEvents: CardIndex)
    returns (shots: seq<real>, possession: seq<real>, corners: seq<real>, cards: seq<real>)
    ensures shots == MetricValues(recent, team, ShotsMetric, statistics, cardEvents)
    ensures possession == MetricValues(recent, team, PossessionMetric, statistics, cardEvents)
    ensures corners == MetricValues(recent, team, CornersMetric, statistics, cardEvents)
    ensures cards == MetricValues(recent, team, CardsMetric, statistics, cardEvents)
  {
    hide Cards, Shots, MetricValues;
    assert forall metric :: MetricValues(recent[..0], team, metric, statistics, cardEvents) == [] by {
      NoMetricYet(recent[..0], team, statistics, cardEvents);
    }
    shots, possession, corners, cards := [], [], [], [];
    for i := 0 to |recent|
      invariant shots == MetricValues(recent[..i], team, ShotsMetric, statistics, cardEvents)
      invariant possession == MetricValues(recent[..i], team, PossessionMetric, statistics, cardEvents)
      invariant corners == MetricValues(recent[..i], team, CornersMetric, statistics, cardEvents)
      invariant cards == MetricValues(recent[..i], team, CardsMetric, statistics, cardEvents)
    {
      OneMoreMetric(recent, i, team, ShotsMetric, statistics, cardEvents);
      OneMoreMetric(recent, i, team, PossessionMetric, statistics, cardEvents);
      OneMoreMetric(recent, i, team, CornersMetric, statistics, cardEvents);
      OneMoreMetric(recent, i, team, CardsMetric, statistics, cardEvents);
      var key := (recent[i].matchId, team);
      var stats := if key in statistics then Some(statistics[key]) else None;
      var cardValue := Cards(stats, if key in cardEvents then Some(cardEvents[key]) else None);
      if stats.Some? {
        var shotValue := Shots(stats.value);
        if shotValue.Some? { shots := shots + [shotValue.value]; }
        if stats.value.possession.Some? { possession := possession + [stats.value.possession.value]; }
        if stats.value.corners.Some? { corners := corners + [stats.value.corners.value]; }
      }
      if cardValue.Some? { cards := cards + [cardValue.value]; }
    }
    assert recent[..|recent|] == recent;
  }

  /**
   Recent results are the usable ones among the first five matches; venue results are the first five usable ones
   of the whole history. What the averages say follows from that alone.
   */
  method BuildTeamProfile(
    team: int, history: seq<MatchObservation>, home: bool, standing: Option<Standing>,
    statistics: StatisticIndex, cardEvents: CardIndex)
    returns (p: Profile)
    ensures WellFormed(p)
    ensures var (results, venue) := (Scores(FirstFew(history), team), FirstFew(VenueScores(history, team, home)));
            && p.resultSampleSize == |results| <= RECENT_WINDOW_MATCHES
            && p.venueSampleSize == |venue| <= RECENT_WINDOW_MATCHES
            && p.form == Average(Points(results)) && p.venueForm == Average(Points(venue))
            && p.goalsFor == Average(Scored(results)) && p.venueGoalsFor == Average(Scored(venue))
            && p.goalsAgainst == Average(Conceded(results)) && p.venueGoalsAgainst == Average(Conceded(venue))
    ensures var recent := FirstFew(history);
            && p.shots == Average(MetricValues(recent, team, ShotsMetric, statistics, cardEvents))
            && p.possession == Average(MetricValues(recent, team, PossessionMetric, statistics, cardEvents))
            && p.corners == Average(MetricValues(recent, team, CornersMetric, statistics, cardEvents))
            && p.cards == Average(MetricValues(recent, team, CardsMetric, statistics, cardEvents))
    ensures p.standingRank == (if standing.Some? then Some(standing.value.rank) else None)
    ensures p.standingPoints == StandingPointsPerGame(standing)
  {
    hide Average, Points, Scored, Conceded, ScoreFor, StandingPointsPerGame, MetricValues, VenueScores, Scores;
    var recent := FirstFew(history);
    var results := CollectScores(recent, team);
    var venue := CollectVenueScores(history, team, home);
    ScoresReasonable(recent, team);
    ScoresAtMost(recent, team);
    VenueScoresReasonable(history, team, home);
    ScoreAverages(results);
    ScoreAverages(venue);
    var shots, possession, corners, cards := CollectMetrics(recent, team, statistics, cardEvents);
    p := Profile(
      |results|, |venue|,
      Average(Points(results)), Average(Scored(results)), Average(Conceded(results)),
      Average(Points(venue)), Average(Scored(venue)), Average(Conceded(venue)),
      Average(shots), Average(possession), Average(corners), Average(cards),
      if standing.Some? then Some(standing.value.rank) else None, StandingPointsPerGame(standing));
  }

  lemma {:induction false} ScoresAtMost(history: seq<MatchObservation>, team: int)
    ensures |Scores(history, team)| <= |history|
  {
    if history != [] { ScoresAtMost(history[..|history| - 1], team); }
  }

  // ---------------------------------------------------------------------------------------------
  // Signals and rates
  // ---------------------------------------------------------------------------------------------

  datatype Signals = Signals(
    goals: real, recentForm: Option<real>, standings: Option<real>, homeAway: Option<real>,
    shots: Option<real>, possession: Option<real>, corners: Option<real>, cards: Option<real>)

  datatype Expectation = Expectation(homeRate: real, awayRate: real, signals: Signals)

  function Clamp(v: real): real { if v < -1.0 then -1.0 else if v > 1.0 then 1.0 else v }

  function ClampGoalRate(v: real): real { if v < 0.05 then 0.05 else if v > 4.5 then 4.5 else v }

  function DifferenceSignal(home: Option<real>, away: Option<real>, scale: real): Option<real>
    requires scale > 0.0
  {
    if home.None? || away.None? then None else Some(Clamp((home.value - away.value) / scale))
  }

  /** The mean of a rank signal and a points signal, whichever exist. */
  function StandingSignal(home: Profile, away: Profile): Option<real> {
    var rank := if home.standingRank.Some? && away.standingRank.Some?
                then Some(Clamp((away.standingRank.value - home.standingRank.value) as real / 10.0)) else None;
    var points := DifferenceSignal(home.standingPoints, away.standingPoints, 3.0);
    match (rank, points)
    case (Some(r), Some(q)) => Some((r + q) / 2.0)
    case (Some(r), None) => Some(r)
    case (None, Some(q)) => Some(q)
    case (None, None) => None
  }

  function Available(values: seq<Option<real>>): seq<real> {
    if values == [] then []
    else
      Available(values[..|values| - 1])
      + match values[|values| - 1] case Some(v) => [v] case None => []
  }

  function RequiredAverage(values: seq<Option<real>>): Option<real> { Average(Available(values)) }

  function Base(attack: Profile, defence: Profile): Option<real> {
    RequiredAverage([attack.goalsFor, defence.goalsAgainst, attack.venueGoalsFor, defence.venueGoalsAgainst])
  }

  function SignalsOf(home: Profile, away: Profile, homeBase: real, awayBase: real): Signals {
    Signals(
      Clamp((homeBase - awayBase) / 2.0),
      DifferenceSignal(home.form, away.form, 3.0),
      StandingSignal(home, away),
      DifferenceSignal(home.venueForm, away.venueForm, 3.0),
      DifferenceSignal(home.shots, away.shots, 8.0),
      DifferenceSignal(home.possession, away.possession, 20.0),
      DifferenceSignal(home.corners, away.corners, 6.0),
      DifferenceSignal(away.cards, home.cards, 4.0))
  }

  function Weigh(weight: real, signal: Option<real>): real {
    match signal case Some(v) => weight * v case None => 0.0
  }

  /** The weighted sum of the signals; the goals signal carries no weight. */
  function LogAdjustment(s: Signals): real {
    Weigh(0.18, s.recentForm) + Weigh(0.16, s.standings) + Weigh(0.12, s.homeAway) + Weigh(0.08, s.shots)
    + Weigh(0.06, s.possession) + Weigh(0.05, s.corners) + Weigh(0.04, s.cards)
  }

  function ExpectedGoalsOf(home: Profile, away: Profile, exp: real -> real): Result<Expectation, DataError> {
    match Base(home, away)
    case None => Err(GoalFeaturesMissing)
    case Some(homeBase) =>
      match Base(away, home)
      case None => Err(GoalFeaturesMissing)
      case Some(awayBase) =>
        var signals := SignalsOf(home, away, homeBase, awayBase);
        var adjustment := LogAdjustment(signals);
        Ok(Expectation(Rate(homeBase, adjustment, exp), Rate(awayBase, -adjustment, exp), signals))
  }

  function Rate(base: real, adjustment: real, exp: real -> real): real {
    ClampGoalRate(Times(base, exp(adjustment)))
  }

  predicate SignalBounded(v: Option<real>) { OptionWithin(v, -1.0, 1.0) }

  predicate Bounded(s: Signals) {
    && -1.0 <= s.goals <= 1.0
    && SignalBounded(s.recentForm) && SignalBounded(s.standings) && SignalBounded(s.homeAway)
    && SignalBounded(s.shots) && SignalBounded(s.possession) && SignalBounded(s.corners) && SignalBounded(s.cards)
  }

  lemma {:induction false} SomethingAvailable(values: seq<Option<real>>, i: nat)
    requires i < |values| && values[i].Some?
    ensures Available(values) != []
  {
    if i < |values| - 1 {
      assert values[..|values| - 1][i] == values[i];
      SomethingAvailable(values[..|values| - 1], i);
    }
  }

  lemma BaseExists(attack: Profile, defence: Profile)
    ensures attack.goalsFor.Some? ==> Base(attack, defence).Some?
  {
    if attack.goalsFor.Some? {
      SomethingAvailable([attack.goalsFor, defence.goalsAgainst, attack.venueGoalsFor, defence.venueGoalsAgainst], 0);
    }
  }

  /** Whatever the profiles and the exponential, signals and rates that come out are in range. */
  lemma OutputsBounded(home: Profile, away: Profile, exp: real -> real)
    ensures ExpectedGoalsOf(home, away, exp).Ok? ==>
              var e := ExpectedGoalsOf(home, away, exp).value;
              Bounded(e.signals) && 0.05 <= e.homeRate <= 4.5 && 0.05 <= e.awayRate <= 4.5
  {
    hide Base, LogAdjustment;
  }

  /** Three results a team are enough: nothing is missing. */
  lemma ReadyProfilesSucceed(home: Profile, away: Profile, exp: real -> real)
    requires WellFormed(home) && WellFormed(away)
    requires home.resultSampleSize >= MINIMUM_RESULTS_PER_TEAM && away.resultSampleSize >= MINIMUM_RESULTS_PER_TEAM
    ensures ExpectedGoalsOf(home, away, exp).Ok?
  {
    hide Base, LogAdjustment, SignalsOf;
    BaseExists(home, away);
    BaseExists(away, home);
  }

  // ---------------------------------------------------------------------------------------------
  // Exchanging the teams
  // ---------------------------------------------------------------------------------------------

  function Negate(v: Option<real>): Option<real> {
    match v case Some(x) => Some(-x) case None => None
  }

  function Opposite(s: Signals): Signals {
    Signals(-s.goals, Negate(s.recentForm), Negate(s.standings), Negate(s.homeAway), Negate(s.shots),
            Negate(s.possession), Negate(s.corners), Negate(s.cards))
  }

  lemma DifferenceOpposes(home: Option<real>, away: Option<real>, scale: real)
    requires scale > 0.0
    ensures DifferenceSignal(away, home, scale) == Negate(DifferenceSignal(home, away, scale))
  {
    if home.Some? && away.Some? {
      assert (away.value - home.value) / scale == -((home.value - away.value) / scale);
    }
  }

  lemma StandingOpposes(home: Profile, away: Profile)
    ensures StandingSignal(away, home) == Negate(StandingSignal(home, away))
  {
    DifferenceOpposes(home.standingPoints, away.standingPoints, 3.0);
  }

  lemma SignalsOppose(home: Profile, away: Profile, homeBase: real, awayBase: real)
    ensures SignalsOf(away, home, awayBase, homeBase) == Opposite(SignalsOf(home, away, homeBase, awayBase))
  {
    hide DifferenceSignal, StandingSignal, Negate;
    DifferenceOpposes(home.form, away.form, 3.0);
    StandingOpposes(home, away);
    DifferenceOpposes(home.venueForm, away.venueForm, 3.0);
    DifferenceOpposes(home.shots, away.shots, 8.0);
    DifferenceOpposes(home.possession, away.possession, 20.0);
    DifferenceOpposes(home.corners, away.corners, 6.0);
    DifferenceOpposes(away.cards, home.cards, 4.0);
  }

  lemma WeighOpposes(weight: real, v: Option<real>)
    ensures Weigh(weight, Negate(v)) == -Weigh(weight, v)
  {
  }

  lemma AdjustmentOpposes(s: Signals)
    ensures LogAdjustment(Opposite(s)) == -LogAdjustment(s)
  {
    hide Weigh, Negate;
    WeighOpposes(0.18, s.recentForm);
    WeighOpposes(0.16, s.standings);
    WeighOpposes(0.12, s.homeAway);
    WeighOpposes(0.08, s.shots);
    WeighOpposes(0.06, s.possession);
    WeighOpposes(0.05, s.corners);
    WeighOpposes(0.04, s.cards);
  }

  function Exchanged(r: Result<Expectation, DataError>): Result<Expectation, DataError> {
    match r
    case Err(e) => Err(e)
    case Ok(e) => Ok(Expectation(e.awayRate, e.homeRate, Opposite(e.signals)))
  }

  /** Exchanging the two teams exchanges the rates and negates every signal, for any exponential at all. */
  lemma TeamsExchange(home: Profile, away: Profile, exp: real -> real)
    ensures ExpectedGoalsOf(away, home, exp) == Exchanged(ExpectedGoalsOf(home, away, exp))
  {
    hide Base, SignalsOf, LogAdjustment, Opposite, Rate;
    if Base(home, away).Some? && Base(away, home).Some? {
      var (x, y) := (Base(home, away).value, Base(away, home).value);
      var s := SignalsOf(home, away, x, y);
      SignalsOppose(home, away, x, y);
      AdjustmentOpposes(s);
      assert -(-LogAdjustment(s)) == LogAdjustment(s);
    }
  }

  /** The distributions of a pairing. */
  ghost function HomeGoals(e: Expectation, exp: real -> real): seq<real> { Distribution(exp(-e.homeRate), e.homeRate) }
  ghost function AwayGoals(e: Expectation, exp: real -> real): seq<real> { Distribution(exp(-e.awayRate), e.awayRate) }

  /**
   End to end, for two teams with three results each: the analysis never fails, and exchanging the teams
   exchanges the unrounded shares of the two wins and leaves draw, over and both-score where they were.
   */
  lemma PairingIsSymmetric(m: Market, home: Profile, away: Profile, exp: real -> real)
    requires forall x :: exp(x) > 0.0
    requires WellFormed(home) && WellFormed(away)
    requires home.resultSampleSize >= MINIMUM_RESULTS_PER_TEAM && away.resultSampleSize >= MINIMUM_RESULTS_PER_TEAM
    ensures ExpectedGoalsOf(home, away, exp).Ok? && ExpectedGoalsOf(away, home, exp).Ok?
    ensures var (e, f) := (ExpectedGoalsOf(home, away, exp).value, ExpectedGoalsOf(away, home, exp).value);
            && OutcomeTotal(HomeGoals(e, exp), AwayGoals(e, exp)) > 0.0
            && OutcomeTotal(HomeGoals(f, exp), AwayGoals(f, exp)) > 0.0
            && Share(m, HomeGoals(e, exp), AwayGoals(e, exp)) == Share(Mirror(m), HomeGoals(f, exp), AwayGoals(f, exp))
  {
    hide ExpectedGoalsOf, Distribution, OutcomeTotal, Share, Positive, WellFormed;
    ReadyProfilesSucceed(home, away, exp);
    TeamsExchange(home, away, exp);
    OutputsBounded(home, away, exp);
    var e := ExpectedGoalsOf(home, away, exp).value;
    DistributionPositive(exp(-e.homeRate), e.homeRate);
    DistributionPositive(exp(-e.awayRate), e.awayRate);
    DistributionLength(exp(-e.homeRate), e.homeRate);
    DistributionLength(exp(-e.awayRate), e.awayRate);
    MassesPositive(HomeGoals(e, exp), AwayGoals(e, exp));
    SharesMirror(m, HomeGoals(e, exp), AwayGoals(e, exp));
  }

  /** The whole analysis of a pairing: with three results a team, no guard along the way can fire. */
  method Analyze(home: Profile, away: Profile, exp: real -> real) returns (r: Result<MarketProbabilities, DataError>)
    requires forall x :: exp(x) > 0.0
    requires WellFormed(home) && WellFormed(away)
    requires home.resultSampleSize >= MINIMUM_RESULTS_PER_TEAM && away.resultSampleSize >= MINIMUM_RESULTS_PER_TEAM
    ensures r.Ok? && Exact(r.value) && SchemaAccepts(r.value)
    ensures ExpectedGoalsOf(home, away, exp).Ok?
    ensures var e := ExpectedGoalsOf(home, away, exp).value;
            && OutcomeTotal(HomeGoals(e, exp), AwayGoals(e, exp)) > 0.0
            && Represents(r.value, HomeGoals(e, exp), AwayGoals(e, exp))
  {
    hide ExpectedGoalsOf, Distribution, OutcomeTotal, WellFormed, Represents, Exact, SchemaAccepts;
    ReadyProfilesSucceed(home, away, exp);
    OutputsBounded(home, away, exp);
    var expected := ExpectedGoalsOf(home, away, exp);
    r := PoissonMarketProbabilities(expected.value.homeRate, expected.value.awayRate, exp);
  }
}
