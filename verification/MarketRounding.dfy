/** Shares rounded to millionths, and the consistency checks their schema makes. */
module MarketRounding {
  import opened Wrappers
  import opened PoissonMarkets
  import opened PoissonShares

  const ONE: int := 1_000_000

  /** The nearest millionth, ties to the even one. */
  function Round6(x: real): int {
    var y := x * 1_000_000.0;
    var below := y.Floor;
    var rest := y - below as real;
    if rest < 0.5 || (rest == 0.5 && below % 2 == 0) then below else below + 1
  }

  /** Probabilities in millionths. */
  datatype MarketProbabilities = MarketProbabilities(
    homeWin: int, draw: int, awayWin: int,
    homeOrDraw: int, awayOrDraw: int, homeOrAway: int,
    over25: int, under25: int, btts: int)

  datatype DataError = InvalidPoissonRate | InvalidProbabilityTotal | GoalFeaturesMissing

  predicate InUnit(n: int) { 0 <= n <= ONE }

  predicate Near(a: int, b: int) { -1 <= a - b <= 1 }

  /** The schema's validation, its tolerance being one millionth. */
  predicate SchemaAccepts(p: MarketProbabilities) {
    && InUnit(p.homeWin) && InUnit(p.draw) && InUnit(p.awayWin)
    && InUnit(p.homeOrDraw) && InUnit(p.awayOrDraw) && InUnit(p.homeOrAway)
    && InUnit(p.over25) && InUnit(p.under25) && InUnit(p.btts)
    && Near(p.homeWin + p.draw + p.awayWin, ONE)
    && Near(p.over25 + p.under25, ONE)
    && Near(p.homeOrDraw, p.homeWin + p.draw)
    && Near(p.awayOrDraw, p.awayWin + p.draw)
    && Near(p.homeOrAway, p.homeWin + p.awayWin)
  }

  /** Nothing is left to the tolerance. */
  predicate Exact(p: MarketProbabilities) {
    && p.homeWin + p.draw + p.awayWin == ONE
    && p.over25 + p.under25 == ONE
    && p.homeOrDraw == ONE - p.awayWin && p.awayOrDraw == ONE - p.homeWin && p.homeOrAway == ONE - p.draw
  }

  lemma RoundIsNearest(x: real)
    ensures -0.5 <= Round6(x) as real - x * 1_000_000.0 <= 0.5
    ensures 0.0 <= x <= 1.0 ==> InUnit(Round6(x))
  {
  }

  /**
   Rounding two of three shares can never use more than the whole: the third, as the residual, stays between
   zero and one, and within one millionth of its own share. When nothing is left for it, ties to even decide.
   */
  lemma ResidualIsAProbability(x: real, y: real, z: real)
    requires x >= 0.0 && y >= 0.0 && z >= 0.0 && x + y + z == 1.0
    ensures InUnit(ONE - Round6(x) - Round6(y))
    ensures -1.0 <= (ONE - Round6(x) - Round6(y)) as real - z * 1_000_000.0 <= 1.0
  {
    var (fx, fy) := ((x * 1_000_000.0).Floor, (y * 1_000_000.0).Floor);
    var (rx, ry) := (x * 1_000_000.0 - fx as real, y * 1_000_000.0 - fy as real);
    assert x * 1_000_000.0 + y * 1_000_000.0 <= 1_000_000.0;
    RoundIsNearest(x);
    RoundIsNearest(y);
    if rx + ry > 1.0 {
      assert (fx + fy + 1) as real < 1_000_000.0;
    } else if rx + ry == 1.0 {
      assert (fx + fy + 1) as real <= 1_000_000.0;
    } else {
      assert Round6(x) + Round6(y) <= fx + fy + 1;
    }
  }

  ghost predicate IsNearest(n: int, x: real) { -0.5 <= n as real - x * 1_000_000.0 <= 0.5 }

  /** While something is left for the third share, any rounding of the others to the nearest keeps within the whole. */
  lemma AnyNearestWillDo(x: real, y: real, z: real, a: int, b: int)
    requires z > 0.0 && x + y + z == 1.0 && IsNearest(a, x) && IsNearest(b, y)
    ensures ONE - a - b >= 0
  {
    assert (a + b) as real < 1_000_001.0;
  }

  /** With nothing left for it, rounding both ties up would use more than the whole. */
  lemma TiesMatterAtZero()
    ensures var (x, y) := (0.0000005, 0.9999995);
            x + y == 1.0 && IsNearest(1, x) && IsNearest(ONE, y) && ONE - 1 - ONE < 0
            && ONE - Round6(x) - Round6(y) == 0
  {
  }

  /** Millionths of a share. */
  ghost function Rounded(m: Market, h: seq<real>, a: seq<real>): int
    requires OutcomeTotal(h, a) != 0.0
  {
    Round6(Share(m, h, a))
  }

  lemma SharesAreProbabilities(h: seq<real>, a: seq<real>)
    requires Positive(h) && Positive(a) && |h| == |a| == GOALS
    ensures OutcomeTotal(h, a) > 0.0
    ensures forall m: Market :: 0.0 < Share(m, h, a) <= 1.0
    ensures Share(HomeWin, h, a) + Share(Draw, h, a) + Share(AwayWin, h, a) == 1.0
  {
    hide Mass, Times;
    MassesPositive(h, a);
    var t := OutcomeTotal(h, a);
    assert MarketMass(HomeWin, h, a) > 0.0 && MarketMass(Draw, h, a) > 0.0 && MarketMass(AwayWin, h, a) > 0.0;
    forall m: Market ensures 0.0 < Share(m, h, a) <= 1.0 {
      assert m == HomeWin || m == Draw || m == AwayWin || m == OverTwo || m == BothScore;
      Quotient(MarketMass(m, h, a), t);
    }
    SumOfQuotients(MarketMass(HomeWin, h, a), MarketMass(Draw, h, a), MarketMass(AwayWin, h, a), t);
  }

  lemma Quotient(x: real, t: real)
    requires 0.0 < x <= t
    ensures 0.0 < x / t <= 1.0
  {
  }

  lemma SumOfQuotients(x: real, y: real, z: real, t: real)
    requires t > 0.0 && x + y + z == t
    ensures x / t + y / t + z / t == 1.0
  {
    assert x / t + y / t + z / t == (x + y + z) / t;
  }

  /** The probabilities a pair of positive distributions gives. */
  ghost predicate Represents(p: MarketProbabilities, h: seq<real>, a: seq<real>)
    requires OutcomeTotal(h, a) != 0.0
  {
    && p.homeWin == Rounded(HomeWin, h, a) && p.draw == Rounded(Draw, h, a)
    && p.over25 == Rounded(OverTwo, h, a) && p.btts == Rounded(BothScore, h, a)
    && -1.0 <= p.awayWin as real - Share(AwayWin, h, a) * 1_000_000.0 <= 1.0
  }

  /** Rounding keeps the order. */
  lemma RoundIsMonotone(x: real, y: real)
    requires x <= y
    ensures Round6(x) <= Round6(y)
  {
    var (u, v) := (x * 1_000_000.0, y * 1_000_000.0);
    assert u <= v && u.Floor <= v.Floor;
  }

  /** Published probabilities move with the home rate as the shares do. */
  lemma PublishedMoveWithHomeRate(
    p: MarketProbabilities, p': MarketProbabilities, s: real, low: real, s': real, high: real, t: real, awayRate: real)
    requires s > 0.0 && s' > 0.0 && t > 0.0 && 0.0 < low <= high && awayRate > 0.0
    requires var (h, h', a) := (Distribution(s, low), Distribution(s', high), Distribution(t, awayRate));
             && OutcomeTotal(h, a) != 0.0 && OutcomeTotal(h', a) != 0.0
             && Represents(p, h, a) && Represents(p', h', a) && Exact(p) && Exact(p')
    ensures p.homeWin <= p'.homeWin && p.over25 <= p'.over25 && p.btts <= p'.btts
    ensures p.awayOrDraw >= p'.awayOrDraw && p.under25 >= p'.under25
  {
    hide Share, OutcomeTotal, Distribution, Round6;
    var (h, h', a) := (Distribution(s, low), Distribution(s', high), Distribution(t, awayRate));
    forall m: Market | Helped(m)
      ensures Rounded(m, h, a) <= Rounded(m, h', a)
    {
      RaisingHomeRate(m, s, low, s', high, t, t, awayRate);
      RoundIsMonotone(Share(m, h, a), Share(m, h', a));
    }
    assert Helped(HomeWin) && Helped(OverTwo) && Helped(BothScore);
  }

  /** And with the away rate: the published home win falls, over 2.5 and both-score rise. */
  lemma PublishedMoveWithAwayRate(
    p: MarketProbabilities, p': MarketProbabilities, s: real, homeRate: real, t: real, low: real, t': real, high: real)
    requires s > 0.0 && t > 0.0 && t' > 0.0 && 0.0 < low <= high && homeRate > 0.0
    requires var (h, a, a') := (Distribution(s, homeRate), Distribution(t, low), Distribution(t', high));
             && OutcomeTotal(h, a) != 0.0 && OutcomeTotal(h, a') != 0.0
             && Represents(p, h, a) && Represents(p', h, a') && Exact(p) && Exact(p')
    ensures p.homeWin >= p'.homeWin && p.over25 <= p'.over25 && p.btts <= p'.btts
    ensures p.awayOrDraw <= p'.awayOrDraw && p.under25 >= p'.under25
  {
    hide Share, OutcomeTotal, Distribution, Round6;
    var (h, a, a') := (Distribution(s, homeRate), Distribution(t, low), Distribution(t', high));
    RaisingAwayRate(HomeWin, s, s, homeRate, t, low, t', high);
    RaisingAwayRate(OverTwo, s, s, homeRate, t, low, t', high);
    RaisingAwayRate(BothScore, s, s, homeRate, t, low, t', high);
    RoundIsMonotone(Share(HomeWin, h, a'), Share(HomeWin, h, a));
    RoundIsMonotone(Share(OverTwo, h, a), Share(OverTwo, h, a'));
    RoundIsMonotone(Share(BothScore, h, a), Share(BothScore, h, a'));
  }

  /**
   The engine, for any positive function in place of exp: a rate that is not positive is refused; any other
   pair gives probabilities that represent the two distributions, sum exactly, and pass the schema.
   */
  method PoissonMarketProbabilities(homeRate: real, awayRate: real, exp: real -> real)
    returns (r: Result<MarketProbabilities, DataError>)
    requires forall x :: exp(x) > 0.0
    ensures homeRate <= 0.0 || awayRate <= 0.0 ==> r == Err(InvalidPoissonRate)
    ensures homeRate > 0.0 && awayRate > 0.0 ==>
              var (h, a) := (Distribution(exp(-homeRate), homeRate), Distribution(exp(-awayRate), awayRate));
              && OutcomeTotal(h, a) > 0.0
              && r.Ok? && Represents(r.value, h, a) && Exact(r.value) && SchemaAccepts(r.value)
  {
    hide Distribution, Mass, Round6, Positive;
    if homeRate <= 0.0 || awayRate <= 0.0 {
      return Err(InvalidPoissonRate);
    }
    var h := PoissonDistribution(exp(-homeRate), homeRate);
    var a := PoissonDistribution(exp(-awayRate), awayRate);
    DistributionPositive(exp(-homeRate), homeRate);
    DistributionPositive(exp(-awayRate), awayRate);
    assert |h| == |a| == GOALS by {
      DistributionLength(exp(-homeRate), homeRate);
      DistributionLength(exp(-awayRate), awayRate);
    }
    SharesAreProbabilities(h, a);
    var homeWin, draw, awayWin, overTwo, bothScore := AccumulateMarkets(h, a);
    var total := homeWin + draw + awayWin;
    if total <= 0.0 {
      return Err(InvalidProbabilityTotal);
    }
    ResidualIsAProbability(Share(HomeWin, h, a), Share(Draw, h, a), Share(AwayWin, h, a));
    forall m: Market ensures InUnit(Rounded(m, h, a)) {
      RoundIsNearest(Share(m, h, a));
    }
    var homeRounded, drawRounded := Round6(homeWin / total), Round6(draw / total);
    var awayRounded := ONE - homeRounded - drawRounded;
    var overRounded := Round6(overTwo / total);
    assert homeRounded == Rounded(HomeWin, h, a) && drawRounded == Rounded(Draw, h, a);
    assert overRounded == Rounded(OverTwo, h, a);
    r := Ok(MarketProbabilities(
              homeRounded, drawRounded, awayRounded,
              homeRounded + drawRounded, awayRounded + drawRounded, homeRounded + awayRounded,
              overRounded, ONE - overRounded, Round6(bothScore / total)));
    assert r.value.btts == Rounded(BothScore, h, a);
  }

  lemma DistributionLength(seed: real, rate: real)
    ensures |Distribution(seed, rate)| == GOALS
  {
  }
}
