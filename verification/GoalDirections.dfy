/** Which way the expected goals move: better figures raise a side's rate, and lower the other side's. */
module GoalDirections {
  import opened Wrappers
  import opened PoissonMarkets
  import opened PoissonShares
  import opened ExpectedGoals

  // ---------------------------------------------------------------------------------------------
  // Signals
  // ---------------------------------------------------------------------------------------------

  /** Both are known or neither is, and `x` is at least `y`. */
  predicate NotLess(x: Option<real>, y: Option<real>) {
    (x.Some? <==> y.Some?) && (x.Some? ==> x.value >= y.value)
  }

  lemma QuotientOrder(a: real, b: real, n: real)
    requires n > 0.0
    ensures a <= b ==> a / n <= b / n
    ensures a < b ==> a / n < b / n
    ensures -n <= a ==> -1.0 <= a / n
    ensures a <= n ==> a / n <= 1.0
  {
    var (p, q) := (a / n, b / n);
    assert p * n == a && q * n == b;
    if a <= b { Cancel(p, q, n); }
    if a < b && p == q { assert p * n == q * n; }
    if -n <= a {
      assert (-1.0) * n == -n;
      Cancel(-1.0, p, n);
    }
    if a <= n {
      assert 1.0 * n == n;
      Cancel(p, 1.0, n);
    }
  }

  lemma DifferenceRises(x: Option<real>, x': Option<real>, y: Option<real>, y': Option<real>, scale: real)
    requires scale > 0.0 && NotLess(x', x) && NotLess(y, y')
    ensures NotLess(DifferenceSignal(x', y', scale), DifferenceSignal(x, y, scale))
  {
    if x.Some? && y.Some? { QuotientOrder(x.value - y.value, x'.value - y'.value, scale); }
  }

  /** The difference grows, and stays within the scale. */
  predicate Gains(x: Option<real>, x': Option<real>, y: Option<real>, y': Option<real>, scale: real) {
    && x.Some? && x'.Some? && y.Some? && y'.Some?
    && -scale <= x.value - y.value < x'.value - y'.value <= scale
  }

  lemma DifferenceGains(x: Option<real>, x': Option<real>, y: Option<real>, y': Option<real>, scale: real)
    requires scale > 0.0 && Gains(x, x', y, y', scale)
    ensures DifferenceSignal(x, y, scale).Some? && DifferenceSignal(x', y', scale).Some?
    ensures DifferenceSignal(x, y, scale).value < DifferenceSignal(x', y', scale).value
  {
    QuotientOrder(x.value - y.value, x'.value - y'.value, scale);
    QuotientOrder(x'.value - y'.value, scale, scale);
  }

  predicate SignalsNotLess(s': Signals, s: Signals) {
    && NotLess(s'.recentForm, s.recentForm) && NotLess(s'.standings, s.standings) && NotLess(s'.homeAway, s.homeAway)
    && NotLess(s'.shots, s.shots) && NotLess(s'.possession, s.possession) && NotLess(s'.corners, s.corners)
    && NotLess(s'.cards, s.cards)
  }

  predicate Above(x: Option<real>, y: Option<real>) { x.Some? && y.Some? && x.value > y.value }

  predicate SomeSignalAbove(s': Signals, s: Signals) {
    || Above(s'.recentForm, s.recentForm) || Above(s'.standings, s.standings) || Above(s'.homeAway, s.homeAway)
    || Above(s'.shots, s.shots) || Above(s'.possession, s.possession) || Above(s'.corners, s.corners)
    || Above(s'.cards, s.cards)
  }

  lemma AdjustmentRises(s: Signals, s': Signals)
    requires SignalsNotLess(s', s)
    ensures LogAdjustment(s) <= LogAdjustment(s')
    ensures SomeSignalAbove(s', s) ==> LogAdjustment(s) < LogAdjustment(s')
  {
    hide Weigh, NotLess, Above;
    WeightKeepsOrder(0.18, s.recentForm, s'.recentForm);
    WeightKeepsOrder(0.16, s.standings, s'.standings);
    WeightKeepsOrder(0.12, s.homeAway, s'.homeAway);
    WeightKeepsOrder(0.08, s.shots, s'.shots);
    WeightKeepsOrder(0.06, s.possession, s'.possession);
    WeightKeepsOrder(0.05, s.corners, s'.corners);
    WeightKeepsOrder(0.04, s.cards, s'.cards);
  }

  lemma WeightKeepsOrder(weight: real, v: Option<real>, v': Option<real>)
    requires weight > 0.0 && NotLess(v', v)
    ensures Weigh(weight, v) <= Weigh(weight, v')
    ensures Above(v', v) ==> Weigh(weight, v) < Weigh(weight, v')
  {
    if v.Some? { ProductOrder(weight, v.value, v'.value); }
  }

  lemma ProductOrder(k: real, x: real, y: real)
    requires k > 0.0 && x <= y
    ensures k * x <= k * y && (x < y ==> k * x < k * y)
  {
    assert k * y - k * x == k * (y - x);
  }

  /** What each signal counts for, alone: form most, then the standings, down to the cards; goals for nothing. */
  lemma EachSignalAlone(goals: real, v: real)
    ensures LogAdjustment(Signals(goals, None, None, None, None, None, None, None)) == 0.0
    ensures LogAdjustment(Signals(goals, Some(v), None, None, None, None, None, None)) == 0.18 * v
    ensures LogAdjustment(Signals(goals, None, Some(v), None, None, None, None, None)) == 0.16 * v
    ensures LogAdjustment(Signals(goals, None, None, Some(v), None, None, None, None)) == 0.12 * v
    ensures LogAdjustment(Signals(goals, None, None, None, Some(v), None, None, None)) == 0.08 * v
    ensures LogAdjustment(Signals(goals, None, None, None, None, Some(v), None, None)) == 0.06 * v
    ensures LogAdjustment(Signals(goals, None, None, None, None, None, Some(v), None)) == 0.05 * v
    ensures LogAdjustment(Signals(goals, None, None, None, None, None, None, Some(v))) == 0.04 * v
  {
  }

  // ---------------------------------------------------------------------------------------------
  // A better side
  // ---------------------------------------------------------------------------------------------

  /** The same goals and nothing worse: form, venue form, points, shots, possession, corners; rank, cards no higher. */
  ghost predicate NoWorse(p': Profile, p: Profile) {
    && p'.goalsFor == p.goalsFor && p'.goalsAgainst == p.goalsAgainst
    && p'.venueGoalsFor == p.venueGoalsFor && p'.venueGoalsAgainst == p.venueGoalsAgainst
    && NotLess(p'.form, p.form) && NotLess(p'.venueForm, p.venueForm) && NotLess(p'.shots, p.shots)
    && NotLess(p'.possession, p.possession) && NotLess(p'.corners, p.corners)
    && NotLess(p'.standingPoints, p.standingPoints) && NotLess(p.cards, p'.cards)
    && (p'.standingRank.Some? <==> p.standingRank.Some?)
    && (p.standingRank.Some? ==> p'.standingRank.value <= p.standingRank.value)
  }

  /** Against `away`, one of the figures is better, and the difference is within what its signal can show. */
  ghost predicate SomethingBetter(p': Profile, p: Profile, away: Profile) {
    || Gains(p.form, p'.form, away.form, away.form, 3.0)
    || Gains(p.venueForm, p'.venueForm, away.venueForm, away.venueForm, 3.0)
    || Gains(p.shots, p'.shots, away.shots, away.shots, 8.0)
    || Gains(p.possession, p'.possession, away.possession, away.possession, 20.0)
    || Gains(p.corners, p'.corners, away.corners, away.corners, 6.0)
    || Gains(away.cards, away.cards, p.cards, p'.cards, 4.0)
    || Gains(p.standingPoints, p'.standingPoints, away.standingPoints, away.standingPoints, 3.0)
    || (&& p.standingRank.Some? && p'.standingRank.Some? && away.standingRank.Some?
        && -10 <= away.standingRank.value - p.standingRank.value
           < away.standingRank.value - p'.standingRank.value <= 10)
  }

  /** The standing signal is at least what it was, and above it if points or rank gained. */
  lemma StandingRises(p: Profile, p': Profile, away: Profile)
    requires NoWorse(p', p)
    ensures NotLess(StandingSignal(p', away), StandingSignal(p, away))
    ensures Gains(p.standingPoints, p'.standingPoints, away.standingPoints, away.standingPoints, 3.0) ==>
              Above(StandingSignal(p', away), StandingSignal(p, away))
    ensures (&& p.standingRank.Some? && p'.standingRank.Some? && away.standingRank.Some?
             && -10 <= away.standingRank.value - p.standingRank.value
                < away.standingRank.value - p'.standingRank.value <= 10) ==>
              Above(StandingSignal(p', away), StandingSignal(p, away))
  {
    hide DifferenceSignal;
    DifferenceRises(p.standingPoints, p'.standingPoints, away.standingPoints, away.standingPoints, 3.0);
    if Gains(p.standingPoints, p'.standingPoints, away.standingPoints, away.standingPoints, 3.0) {
      DifferenceGains(p.standingPoints, p'.standingPoints, away.standingPoints, away.standingPoints, 3.0);
    }
    if p.standingRank.Some? && away.standingRank.Some? {
      var a := (away.standingRank.value - p.standingRank.value) as real;
      var b := (away.standingRank.value - p'.standingRank.value) as real;
      QuotientOrder(a, b, 10.0);
      QuotientOrder(b, 10.0, 10.0);
    }
  }

  lemma SignalsRise(p: Profile, p': Profile, away: Profile, x: real, y: real)
    requires NoWorse(p', p)
    ensures SignalsNotLess(SignalsOf(p', away, x, y), SignalsOf(p, away, x, y))
  {
    hide DifferenceSignal, StandingSignal, NotLess;
    assert NotLess(away.form, away.form) && NotLess(away.venueForm, away.venueForm) && NotLess(away.shots, away.shots)
           && NotLess(away.possession, away.possession) && NotLess(away.corners, away.corners)
           && NotLess(away.cards, away.cards) by { NotLessItself(away); }
    DifferenceRises(p.form, p'.form, away.form, away.form, 3.0);
    StandingRises(p, p', away);
    DifferenceRises(p.venueForm, p'.venueForm, away.venueForm, away.venueForm, 3.0);
    DifferenceRises(p.shots, p'.shots, away.shots, away.shots, 8.0);
    DifferenceRises(p.possession, p'.possession, away.possession, away.possession, 20.0);
    DifferenceRises(p.corners, p'.corners, away.corners, away.corners, 6.0);
    DifferenceRises(away.cards, away.cards, p.cards, p'.cards, 4.0);
  }

  lemma NotLessItself(p: Profile)
    ensures NotLess(p.form, p.form) && NotLess(p.venueForm, p.venueForm) && NotLess(p.shots, p.shots)
    ensures NotLess(p.possession, p.possession) && NotLess(p.corners, p.corners) && NotLess(p.cards, p.cards)
  {
  }

  lemma SomeSignalRises(p: Profile, p': Profile, away: Profile, x: real, y: real)
    requires NoWorse(p', p) && SomethingBetter(p', p, away)
    ensures SomeSignalAbove(SignalsOf(p', away, x, y), SignalsOf(p, away, x, y))
  {
    hide DifferenceSignal, StandingSignal, NotLess, Gains;
    StandingRises(p, p', away);
    if Gains(p.form, p'.form, away.form, away.form, 3.0) {
      DifferenceGains(p.form, p'.form, away.form, away.form, 3.0);
    } else if Gains(p.venueForm, p'.venueForm, away.venueForm, away.venueForm, 3.0) {
      DifferenceGains(p.venueForm, p'.venueForm, away.venueForm, away.venueForm, 3.0);
    } else if Gains(p.shots, p'.shots, away.shots, away.shots, 8.0) {
      DifferenceGains(p.shots, p'.shots, away.shots, away.shots, 8.0);
    } else if Gains(p.possession, p'.possession, away.possession, away.possession, 20.0) {
      DifferenceGains(p.possession, p'.possession, away.possession, away.possession, 20.0);
    } else if Gains(p.corners, p'.corners, away.corners, away.corners, 6.0) {
      DifferenceGains(p.corners, p'.corners, away.corners, away.corners, 6.0);
    } else if Gains(away.cards, away.cards, p.cards, p'.cards, 4.0) {
      DifferenceGains(away.cards, away.cards, p.cards, p'.cards, 4.0);
    }
  }

  // ---------------------------------------------------------------------------------------------
  // Rates
  // ---------------------------------------------------------------------------------------------

  ghost predicate Rising(exp: real -> real) {
    (forall x :: exp(x) > 0.0) && forall x, y :: x <= y ==> exp(x) <= exp(y)
  }

  ghost predicate StrictlyRising(exp: real -> real) {
    (forall x :: exp(x) > 0.0) && forall x, y :: x < y ==> exp(x) < exp(y)
  }

  lemma RateRises(base: real, x: real, y: real, exp: real -> real)
    requires base >= 0.0 && Rising(exp) && x <= y
    ensures Rate(base, x, exp) <= Rate(base, y, exp)
  {
    hide Times, ClampGoalRate;
    assert exp(x) <= exp(y);
    TimesOrdered(base, exp(x), exp(y));
    ClampKeepsOrder(Times(base, exp(x)), Times(base, exp(y)));
  }

  lemma ClampKeepsOrder(x: real, y: real)
    requires x <= y
    ensures ClampGoalRate(x) <= ClampGoalRate(y)
  {
  }

  predicate Unclamped(rate: real) { 0.05 < rate < 4.5 }

  lemma RateRisesStrictly(base: real, x: real, y: real, exp: real -> real)
    requires base >= 0.0 && StrictlyRising(exp) && x < y
    requires Unclamped(Rate(base, x, exp)) && Unclamped(Rate(base, y, exp))
    ensures Rate(base, x, exp) < Rate(base, y, exp)
  {
    hide Times;
    assert 0.0 < exp(x) < exp(y);
    TimesOrderedStrictly(base, exp(x), exp(y));
  }

  lemma TimesOrderedStrictly(x: real, y: real, z: real)
    requires x >= 0.0 && y < z
    ensures Times(x, y) < Times(x, z) || (Times(x, y) == 0.0 && Times(x, z) == 0.0)
  {
    if x > 0.0 { ProductOrder(x, y, z); }
  }

  lemma {:induction false} AvailableWithin(values: seq<Option<real>>)
    requires forall i :: 0 <= i < |values| ==> OptionWithin(values[i], 0.0, 100.0)
    ensures Within(Available(values), 0.0, 100.0)
  {
    if values != [] { AvailableWithin(values[..|values| - 1]); }
  }

  lemma BaseIsNotNegative(attack: Profile, defence: Profile)
    requires WellFormed(attack) && WellFormed(defence)
    ensures Base(attack, defence).Some? ==> Base(attack, defence).value >= 0.0
  {
    var values := [attack.goalsFor, defence.goalsAgainst, attack.venueGoalsFor, defence.venueGoalsAgainst];
    AvailableWithin(values);
    if Available(values) != [] { AverageWithin(Available(values), 0.0, 100.0); }
  }

  /** Better figures for the home side, one or several, never lower its expected goals nor raise those of the guests. */
  lemma BetterHomeSideGains(home: Profile, home': Profile, away: Profile, exp: real -> real)
    requires Rising(exp) && WellFormed(home) && WellFormed(home') && WellFormed(away) && NoWorse(home', home)
    requires ExpectedGoalsOf(home, away, exp).Ok?
    ensures ExpectedGoalsOf(home', away, exp).Ok?
    ensures var (e, e') := (ExpectedGoalsOf(home, away, exp).value, ExpectedGoalsOf(home', away, exp).value);
            e.homeRate <= e'.homeRate && e'.awayRate <= e.awayRate
  {
    hide Rising, WellFormed, SignalsOf, LogAdjustment, SignalsNotLess, Rate, RequiredAverage;
    var (x, y) := (Base(home, away).value, Base(away, home).value);
    assert Base(home', away) == Base(home, away) && Base(away, home') == Base(away, home);
    BaseIsNotNegative(home, away);
    BaseIsNotNegative(away, home);
    SignalsRise(home, home', away, x, y);
    var (s, s') := (SignalsOf(home, away, x, y), SignalsOf(home', away, x, y));
    AdjustmentRises(s, s');
    RateRises(x, LogAdjustment(s), LogAdjustment(s'), exp);
    RateRises(y, -LogAdjustment(s'), -LogAdjustment(s), exp);
  }

  /** And where the rate is not clamped, a figure that is truly better raises it. */
  lemma BetterHomeSideGainsStrictly(home: Profile, home': Profile, away: Profile, exp: real -> real)
    requires StrictlyRising(exp) && WellFormed(home) && WellFormed(away)
    requires NoWorse(home', home) && SomethingBetter(home', home, away)
    requires ExpectedGoalsOf(home, away, exp).Ok? && ExpectedGoalsOf(home', away, exp).Ok?
    requires Unclamped(ExpectedGoalsOf(home, away, exp).value.homeRate)
    requires Unclamped(ExpectedGoalsOf(home', away, exp).value.homeRate)
    ensures ExpectedGoalsOf(home, away, exp).value.homeRate < ExpectedGoalsOf(home', away, exp).value.homeRate
  {
    hide StrictlyRising, WellFormed, SignalsOf, LogAdjustment, SignalsNotLess, SomeSignalAbove, Rate, RequiredAverage,
         SomethingBetter;
    var (x, y) := (Base(home, away).value, Base(away, home).value);
    assert Base(home', away) == Base(home, away) && Base(away, home') == Base(away, home);
    BaseIsNotNegative(home, away);
    SignalsRise(home, home', away, x, y);
    SomeSignalRises(home, home', away, x, y);
    var (s, s') := (SignalsOf(home, away, x, y), SignalsOf(home', away, x, y));
    AdjustmentRises(s, s');
    RateRisesStrictly(x, LogAdjustment(s), LogAdjustment(s'), exp);
  }

  /** The same for the guests. */
  lemma BetterGuestsGain(home: Profile, away: Profile, away': Profile, exp: real -> real)
    requires Rising(exp) && WellFormed(home) && WellFormed(away) && WellFormed(away') && NoWorse(away', away)
    requires ExpectedGoalsOf(home, away, exp).Ok?
    ensures ExpectedGoalsOf(home, away', exp).Ok?
    ensures var (e, e') := (ExpectedGoalsOf(home, away, exp).value, ExpectedGoalsOf(home, away', exp).value);
            e.awayRate <= e'.awayRate && e'.homeRate <= e.homeRate
  {
    hide ExpectedGoalsOf, Rising, WellFormed, NoWorse, Opposite;
    TeamsExchange(home, away, exp);
    TeamsExchange(home, away', exp);
    BetterHomeSideGains(away, away', home, exp);
  }

  // ---------------------------------------------------------------------------------------------
  // Goals
  // ---------------------------------------------------------------------------------------------

  lemma {:induction false} AvailableRises(values: seq<Option<real>>, values': seq<Option<real>>)
    requires |values| == |values'| && forall i :: 0 <= i < |values| ==> NotLess(values'[i], values[i])
    ensures |Available(values')| == |Available(values)| && Sum(Available(values)) <= Sum(Available(values'))
  {
    hide Available, Sum;
    if values == [] {
      assert values == values';
    } else {
      var (rest, rest') := (values[..|values| - 1], values'[..|values| - 1]);
      var (last, last') := (values[|values| - 1], values'[|values| - 1]);
      AvailableRises(rest, rest');
      assert values == rest + [last] && values' == rest' + [last'];
      OneMoreValue(rest, last);
      OneMoreValue(rest', last');
    }
  }

  /** A known value is appended and added; an unknown one is left out. */
  lemma {:induction false} OneMoreValue(values: seq<Option<real>>, v: Option<real>)
    ensures Available(values + [v]) == if v.Some? then Available(values) + [v.value] else Available(values)
    ensures Sum(Available(values + [v])) == Sum(Available(values)) + if v.Some? then v.value else 0.0
  {
    assert (values + [v])[..|values|] == values;
    if v.Some? { AverageTimesCount(Available(values), v.value); }
  }

  lemma AverageRises(values: seq<Option<real>>, values': seq<Option<real>>)
    requires |values| == |values'| && forall i :: 0 <= i < |values| ==> NotLess(values'[i], values[i])
    ensures NotLess(RequiredAverage(values'), RequiredAverage(values))
  {
    AvailableRises(values, values');
    var n := |Available(values)|;
    if n > 0 { QuotientOrder(Sum(Available(values)), Sum(Available(values')), n as real); }
  }

  /** More goals scored by the home side or conceded by the guests never lower the home rate; the other rate stands. */
  lemma MoreGoalsRaiseTheRate(home: Profile, away: Profile, scored: Option<real>, venueScored: Option<real>,
                              conceded: Option<real>, venueConceded: Option<real>, exp: real -> real)
    requires forall x :: exp(x) > 0.0
    requires NotLess(scored, home.goalsFor) && NotLess(venueScored, home.venueGoalsFor)
    requires NotLess(conceded, away.goalsAgainst) && NotLess(venueConceded, away.venueGoalsAgainst)
    requires ExpectedGoalsOf(home, away, exp).Ok?
    ensures var home' := home.(goalsFor := scored, venueGoalsFor := venueScored);
            var away' := away.(goalsAgainst := conceded, venueGoalsAgainst := venueConceded);
            && ExpectedGoalsOf(home', away', exp).Ok?
            && var (e, e') := (ExpectedGoalsOf(home, away, exp).value, ExpectedGoalsOf(home', away', exp).value);
               e.homeRate <= e'.homeRate && e.awayRate == e'.awayRate
  {
    hide RequiredAverage, NotLess, DifferenceSignal, StandingSignal, LogAdjustment;
    var home' := home.(goalsFor := scored, venueGoalsFor := venueScored);
    var away' := away.(goalsAgainst := conceded, venueGoalsAgainst := venueConceded);
    AverageRises([home.goalsFor, away.goalsAgainst, home.venueGoalsFor, away.venueGoalsAgainst],
                 [scored, conceded, venueScored, venueConceded]);
    BothKnown(Base(home', away'), Base(home, away));
    assert Base(away', home') == Base(away, home);
    assert StandingSignal(home', away') == StandingSignal(home, away) by { SameStandings(home, away, home', away'); }
    var (x, x', y) := (Base(home, away).value, Base(home', away').value, Base(away, home).value);
    var (s, s') := (SignalsOf(home, away, x, y), SignalsOf(home', away', x', y));
    assert LogAdjustment(s) == LogAdjustment(s') by { GoalsWeighNothing(s, s'); }
    RateRisesWithBase(x, x', LogAdjustment(s), exp);
  }

  lemma BothKnown(x: Option<real>, y: Option<real>)
    requires NotLess(x, y)
    ensures (x.Some? <==> y.Some?) && (x.Some? ==> y.value <= x.value)
  {
  }

  lemma SameStandings(home: Profile, away: Profile, home': Profile, away': Profile)
    requires home'.standingRank == home.standingRank && home'.standingPoints == home.standingPoints
    requires away'.standingRank == away.standingRank && away'.standingPoints == away.standingPoints
    ensures StandingSignal(home', away') == StandingSignal(home, away)
  {
  }

  lemma GoalsWeighNothing(s: Signals, s': Signals)
    requires s' == s.(goals := s'.goals)
    ensures LogAdjustment(s) == LogAdjustment(s')
  {
    hide Weigh;
  }

  lemma RateRisesWithBase(base: real, base': real, x: real, exp: real -> real)
    requires base <= base' && exp(x) > 0.0
    ensures Rate(base, x, exp) <= Rate(base', x, exp)
  {
    hide Times, ClampGoalRate;
    var k := exp(x);
    TimesOrdered(k, base, base');
    TimesAdds(k, base, 0.0);
    TimesAdds(k, base', 0.0);
    ClampKeepsOrder(Times(base, k), Times(base', k));
  }

  /** The signals only shift goals between the sides: unclamped, the product of the rates is that of the two bases. */
  lemma SignalsShiftGoals(home: Profile, away: Profile, exp: real -> real)
    requires forall x :: exp(x) > 0.0
    requires forall x :: exp(x) * exp(-x) == 1.0
    requires ExpectedGoalsOf(home, away, exp).Ok?
    requires Unclamped(ExpectedGoalsOf(home, away, exp).value.homeRate)
    requires Unclamped(ExpectedGoalsOf(home, away, exp).value.awayRate)
    ensures var e := ExpectedGoalsOf(home, away, exp).value;
            e.homeRate * e.awayRate == Base(home, away).value * Base(away, home).value
  {
    hide Base, LogAdjustment, SignalsOf;
    var (x, y) := (Base(home, away).value, Base(away, home).value);
    var t := LogAdjustment(SignalsOf(home, away, x, y));
    FourFactors(x, exp(t), y, exp(-t));
    UnclampedIsTheProduct(x, t, exp);
    UnclampedIsTheProduct(y, -t, exp);
  }

  lemma UnclampedIsTheProduct(base: real, x: real, exp: real -> real)
    requires Unclamped(Rate(base, x, exp))
    ensures Rate(base, x, exp) == base * exp(x)
  {
  }

  lemma FourFactors(x: real, a: real, y: real, b: real)
    requires a * b == 1.0
    ensures (x * a) * (y * b) == x * y
  {
    assert (x * a) * (y * b) == (x * y) * (a * b);
  }

  /** The base of a rate is the mean of the four goal averages, or of the two overall ones where venues are unknown. */
  lemma BaseIsTheMean(attack: Profile, defence: Profile)
    requires attack.goalsFor.Some? && defence.goalsAgainst.Some?
    ensures attack.venueGoalsFor.Some? && defence.venueGoalsAgainst.Some? ==>
              Base(attack, defence) ==
              Some((attack.goalsFor.value + defence.goalsAgainst.value + attack.venueGoalsFor.value
                    + defence.venueGoalsAgainst.value) / 4.0)
    ensures attack.venueGoalsFor.None? && defence.venueGoalsAgainst.None? ==>
              Base(attack, defence) == Some((attack.goalsFor.value + defence.goalsAgainst.value) / 2.0)
  {
    hide Available, Average;
    var (a, b, c, d) := (attack.goalsFor, defence.goalsAgainst, attack.venueGoalsFor, defence.venueGoalsAgainst);
    AvailableOfFour(a, b, c, d);
    if c.Some? && d.Some? { MeanOfFour(a.value, b.value, c.value, d.value); }
    if c.None? && d.None? { MeanOfTwo(a.value, b.value); }
  }

  lemma AvailableOfFour(a: Option<real>, b: Option<real>, c: Option<real>, d: Option<real>)
    requires a.Some? && b.Some?
    ensures c.Some? && d.Some? ==> Available([a, b, c, d]) == [a.value, b.value, c.value, d.value]
    ensures c.None? && d.None? ==> Available([a, b, c, d]) == [a.value, b.value]
  {
    hide Available, Sum;
    NothingAvailable();
    OneMoreValue([], a);
    OneMoreValue([a], b);
    OneMoreValue([a, b], c);
    OneMoreValue([a, b, c], d);
    assert [] + [a] == [a] && [a] + [b] == [a, b] && [a, b] + [c] == [a, b, c] && [a, b, c] + [d] == [a, b, c, d];
  }

  lemma MeanOfFour(a: real, b: real, c: real, d: real)
    ensures Average([a, b, c, d]) == Some((a + b + c + d) / 4.0)
  {
    hide Sum;
    MeanOfTwo(a, b);
    AverageTimesCount([a, b], c);
    AverageTimesCount([a, b, c], d);
    assert [a, b] + [c] == [a, b, c] && [a, b, c] + [d] == [a, b, c, d];
    assert Sum([a, b, c, d]) == a + b + c + d && |[a, b, c, d]| == 4;
  }

  lemma MeanOfTwo(a: real, b: real)
    ensures Sum([a, b]) == a + b && Average([a, b]) == Some((a + b) / 2.0)
  {
    hide Sum;
    AverageTimesCount([], a);
    AverageTimesCount([a], b);
    assert [] + [a] == [a] && [a] + [b] == [a, b];
    assert Sum([a, b]) == a + b && |[a, b]| == 2;
  }

  lemma NothingAvailable()
    ensures Available([]) == [] && Sum([]) == 0.0
  {
  }

  // ---------------------------------------------------------------------------------------------
  // Results
  // ---------------------------------------------------------------------------------------------

  /** A match as its two teams saw it: the goals of the one are conceded by the other, and no third team played. */
  lemma TwoSidesOfAScore(m: MatchObservation, team: int, scored: int, conceded: int)
    requires m.homeTeam != m.awayTeam
    ensures ScoreFor(m, m.homeTeam) == Some(Score(scored, conceded)) <==>
              ScoreFor(m, m.awayTeam) == Some(Score(conceded, scored))
    ensures team != m.homeTeam && team != m.awayTeam ==> ScoreFor(m, team) == None
  {
  }

  /** The home team's goals are the home goals: of full time if both are usable, else the current ones if those are. */
  lemma HomeTeamScoresHomeGoals(m: MatchObservation, scored: int, conceded: int)
    ensures ScoreFor(m, m.homeTeam) == Some(Score(scored, conceded)) <==>
            && 0 <= scored <= 100 && 0 <= conceded <= 100
            && (|| (m.fulltimeHome == Some(scored) && m.fulltimeAway == Some(conceded))
                || (&& m.goalsHome == Some(scored) && m.goalsAway == Some(conceded)
                    && !(&& m.fulltimeHome.Some? && 0 <= m.fulltimeHome.value <= 100
                         && m.fulltimeAway.Some? && 0 <= m.fulltimeAway.value <= 100)))
  {
  }

  /** Three points to the winner, none to the loser, one each for a draw. */
  lemma PointsAreShared(scored: int, conceded: int)
    ensures var (us, them) := (PointsFor(Score(scored, conceded)), PointsFor(Score(conceded, scored)));
            && (scored > conceded ==> us == 3.0 && them == 0.0)
            && (scored == conceded ==> us == 1.0 && them == 1.0)
  {
  }

  /** More goals never cost points, and conceding more never earns them. */
  lemma GoalsEarnPoints(s: Score, s': Score)
    requires s.scored <= s'.scored && s'.conceded <= s.conceded
    ensures PointsFor(s) <= PointsFor(s')
  {
  }

  /** Home results come from matches the team hosted, away results from those it was a guest in, each with its score. */
  lemma {:induction false} VenueResultsAreOwn(history: seq<MatchObservation>, team: int, home: bool)
    ensures forall s :: s in VenueScores(history, team, home) <==>
              exists m :: m in history && (if home then m.homeTeam == team else m.awayTeam == team)
                          && ScoreFor(m, team) == Some(s)
  {
    hide ScoreFor;
    if history != [] {
      var (rest, last) := (history[..|history| - 1], history[|history| - 1]);
      VenueResultsAreOwn(rest, team, home);
      assert forall m :: m in history <==> m in rest || m == last;
    }
  }

  /** A profile looks at five matches, or at all of a shorter history. */
  lemma FirstFiveCount(history: seq<MatchObservation>)
    ensures FirstFew(history) <= history && |FirstFew(history)| == if |history| < 5 then |history| else 5
  {
  }

  /** The figures of a match are from its statistics of that team, shots on goal only in place of unknown shots. */
  lemma FiguresAreOwn(m: MatchObservation, team: int, statistics: StatisticIndex, cardEvents: CardIndex, v: real)
    ensures var known := (m.matchId, team) in statistics;
            && (MetricIn(m, team, PossessionMetric, statistics, cardEvents) == Some(v) <==>
                  known && statistics[(m.matchId, team)].possession == Some(v))
            && (MetricIn(m, team, CornersMetric, statistics, cardEvents) == Some(v) <==>
                  known && statistics[(m.matchId, team)].corners == Some(v))
            && (MetricIn(m, team, ShotsMetric, statistics, cardEvents) == Some(v) <==>
                  known && var s := statistics[(m.matchId, team)];
                  s.shots == Some(v) || (s.shots.None? && s.shotsOnGoal == Some(v)))
  {
  }

  /** Points per game times games are the points; without a game there is no such figure. */
  lemma PointsPerGame(s: Standing, played: int, points: int)
    requires s.played == Some(played) && s.points == Some(points)
    ensures StandingPointsPerGame(Some(s)).Some? <==> played > 0
    ensures played > 0 ==> StandingPointsPerGame(Some(s)).value * (played as real) == points as real
    ensures StandingPointsPerGame(Some(s.(played := None))) == StandingPointsPerGame(Some(s.(points := None))) == None
  {
  }

  /** A red card weighs as two yellow ones, and the events count only where the statistics lack either number. */
  lemma RedCountsTwice(s: Statistics, events: Option<real>, yellow: real, red: real, n: real)
    requires s.yellowCards == Some(yellow) && s.redCards == Some(red)
    ensures var counted := Cards(Some(s), events);
            && counted.Some? && Cards(Some(s), None) == counted
            && Cards(Some(s.(yellowCards := Some(yellow + n))), events) == Some(counted.value + n)
            && Cards(Some(s.(redCards := Some(red - n), yellowCards := Some(yellow + 2.0 * n))), events) == counted
            && Cards(Some(s.(redCards := Some(0.0))), events) == Some(yellow)
    ensures Cards(Some(s.(yellowCards := None)), events) == Cards(Some(s.(redCards := None)), events)
                                                         == Cards(None, events) == events
  {
  }

  /** A signal is the share of a lead in its scale, and a lead beyond the scale counts as the whole of it. */
  predicate ShareOf(signal: Option<real>, lead: real, scale: real) {
    && signal.Some?
    && (if lead > scale then signal.value == 1.0
        else if lead < -scale then signal.value == -1.0
        else signal.value * scale == lead)
  }

  lemma DifferenceIsShare(x: real, y: real, scale: real)
    requires scale > 0.0
    ensures ShareOf(DifferenceSignal(Some(x), Some(y), scale), x - y, scale)
  {
    var lead := x - y;
    var q := lead / scale;
    assert q * scale == lead;
    if lead > scale {
      QuotientOrder(scale, lead, scale);
    } else if lead < -scale {
      QuotientOrder(lead, -scale, scale);
    } else {
      QuotientOrder(lead, scale, scale);
      QuotientOrder(-scale, lead, scale);
    }
  }

  /** Which leads count in full: 3 points of form, 8 shots, 20 per cent of the ball, 6 corners, 4 cards fewer. */
  lemma LeadsCountInShares(home: Profile, away: Profile, x: real, y: real)
    ensures var s := SignalsOf(home, away, x, y);
            && (home.form.Some? && away.form.Some? ==> ShareOf(s.recentForm, home.form.value - away.form.value, 3.0))
            && (home.venueForm.Some? && away.venueForm.Some? ==>
                  ShareOf(s.homeAway, home.venueForm.value - away.venueForm.value, 3.0))
            && (home.shots.Some? && away.shots.Some? ==> ShareOf(s.shots, home.shots.value - away.shots.value, 8.0))
            && (home.possession.Some? && away.possession.Some? ==>
                  ShareOf(s.possession, home.possession.value - away.possession.value, 20.0))
            && (home.corners.Some? && away.corners.Some? ==>
                  ShareOf(s.corners, home.corners.value - away.corners.value, 6.0))
            && (home.cards.Some? && away.cards.Some? ==> ShareOf(s.cards, away.cards.value - home.cards.value, 4.0))
  {
    hide DifferenceSignal, ShareOf, StandingSignal;
    if home.form.Some? && away.form.Some? { DifferenceIsShare(home.form.value, away.form.value, 3.0); }
    if home.venueForm.Some? && away.venueForm.Some? {
      DifferenceIsShare(home.venueForm.value, away.venueForm.value, 3.0);
    }
    if home.shots.Some? && away.shots.Some? { DifferenceIsShare(home.shots.value, away.shots.value, 8.0); }
    if home.possession.Some? && away.possession.Some? {
      DifferenceIsShare(home.possession.value, away.possession.value, 20.0);
    }
    if home.corners.Some? && away.corners.Some? { DifferenceIsShare(home.corners.value, away.corners.value, 6.0); }
    if home.cards.Some? && away.cards.Some? { DifferenceIsShare(away.cards.value, home.cards.value, 4.0); }
  }

  /** The standings count for ten places, or three points a game, or the mean of the two shares. */
  lemma StandingsCountInShares(home: Profile, away: Profile, rank: Option<real>, points: Option<real>)
    requires rank.Some? <==> home.standingRank.Some? && away.standingRank.Some?
    requires points.Some? <==> home.standingPoints.Some? && away.standingPoints.Some?
    requires rank.Some? ==> ShareOf(rank, (away.standingRank.value - home.standingRank.value) as real, 10.0)
    requires points.Some? ==> ShareOf(points, home.standingPoints.value - away.standingPoints.value, 3.0)
    ensures StandingSignal(home, away) ==
            if rank.Some? && points.Some? then Some((rank.value + points.value) / 2.0)
            else if rank.Some? then rank else points
  {
    hide DifferenceSignal, ShareOf, Clamp;
    if points.Some? {
      DifferenceIsShare(home.standingPoints.value, away.standingPoints.value, 3.0);
      ShareIsUnique(points, DifferenceSignal(home.standingPoints, away.standingPoints, 3.0),
                    home.standingPoints.value - away.standingPoints.value, 3.0);
    } else {
      NoDifference(home.standingPoints, away.standingPoints, 3.0);
    }
    if rank.Some? {
      var lead := (away.standingRank.value - home.standingRank.value) as real;
      PlacesAreShare(lead);
      ShareIsUnique(rank, Some(Clamp(lead / 10.0)), lead, 10.0);
    }
  }

  lemma NoDifference(x: Option<real>, y: Option<real>, scale: real)
    requires scale > 0.0 && (x.None? || y.None?)
    ensures DifferenceSignal(x, y, scale) == None
  {
  }

  lemma PlacesAreShare(lead: real)
    ensures ShareOf(Some(Clamp(lead / 10.0)), lead, 10.0)
  {
    hide ShareOf;
    DifferenceIsShare(lead, 0.0, 10.0);
  }

  lemma ShareIsUnique(v: Option<real>, v': Option<real>, lead: real, scale: real)
    requires scale > 0.0 && ShareOf(v, lead, scale) && ShareOf(v', lead, scale)
    ensures v == v'
  {
    if !(lead > scale) && !(lead < -scale) { FactorIsUnique(v.value, v'.value, scale, lead); }
  }

  lemma FactorIsUnique(p: real, q: real, n: real, product: real)
    requires n > 0.0 && p * n == product && q * n == product
    ensures p == q
  {
    Cancel(p, q, n);
    Cancel(q, p, n);
  }

  /** Times their number, an average is the sum; and a sum grows by what is appended. */
  lemma {:induction false} AverageTimesCount(values: seq<real>, v: real)
    ensures values != [] ==> Average(values).Some? && Average(values).value * (|values| as real) == Sum(values)
    ensures Sum([]) == 0.0 && Sum(values + [v]) == Sum(values) + v
  {
    assert (values + [v])[..|values|] == values;
  }
}
