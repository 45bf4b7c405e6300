/** Market shares: what they depend on, and how they move with the rates. */
module PoissonShares {
  import opened PoissonMarkets

  /** What the code calls `total`. */
  ghost function OutcomeTotal(h: seq<real>, a: seq<real>): real {
    MarketMass(HomeWin, h, a) + MarketMass(Draw, h, a) + MarketMass(AwayWin, h, a)
  }

  /** The unrounded share of a market. */
  ghost function Share(m: Market, h: seq<real>, a: seq<real>): real
    requires OutcomeTotal(h, a) != 0.0
  {
    MarketMass(m, h, a) / OutcomeTotal(h, a)
  }

  ghost function Weights(rate: real): seq<real> {
    seq(GOALS, k requires 0 <= k < GOALS => Weight(rate, k))
  }

  // ---------------------------------------------------------------------------------------------
  // Positivity
  // ---------------------------------------------------------------------------------------------

  ghost predicate Positive(p: seq<real>) {
    forall i :: 0 <= i < |p| ==> p[i] > 0.0
  }

  lemma TimesPositive(x: real, y: real)
    requires x > 0.0 && y > 0.0
    ensures Times(x, y) > 0.0
  {
  }

  lemma {:induction false} TotalPositive(p: seq<real>, n: nat)
    requires Positive(p) && n <= |p|
    ensures if n == 0 then Total(p, n) == 0.0 else Total(p, n) >= p[0] > 0.0
  {
    if n > 0 { TotalPositive(p, n - 1); }
  }

  lemma {:induction false} RowNonNegative(m: Market, a: seq<real>, home: nat, n: nat)
    requires Positive(a) && n <= |a|
    ensures Row(m, a, home, n) >= 0.0
    ensures (exists j :: 0 <= j < n && Counts(m, home, j)) ==> Row(m, a, home, n) > 0.0
  {
    if n > 0 { RowNonNegative(m, a, home, n - 1); }
  }

  lemma {:induction false} MassNonNegative(m: Market, h: seq<real>, a: seq<real>, rows: nat)
    requires Positive(h) && Positive(a) && rows <= |h|
    ensures Mass(m, h, a, rows, |a|) >= 0.0
    ensures (exists i, j :: 0 <= i < rows && 0 <= j < |a| && Counts(m, i, j)) ==> Mass(m, h, a, rows, |a|) > 0.0
  {
    hide Times;
    if rows > 0 {
      MassNonNegative(m, h, a, rows - 1);
      var row := Row(m, a, rows - 1, |a|);
      RowNonNegative(m, a, rows - 1, |a|);
      if row > 0.0 {
        TimesPositive(h[rows - 1], row);
      } else {
        TimesAdds(h[rows - 1], 0.0, 0.0);
      }
      if exists i, j :: 0 <= i < rows && 0 <= j < |a| && Counts(m, i, j) {
        var i, j :| 0 <= i < rows && 0 <= j < |a| && Counts(m, i, j);
        if i == rows - 1 {
          assert row > 0.0;
        } else {
          assert 0 <= i < rows - 1 && 0 <= j < |a| && Counts(m, i, j);
        }
      }
    }
  }

  /** Every market has some mass and no outcome has it all. */
  lemma {:induction false} MassesPositive(h: seq<real>, a: seq<real>)
    requires Positive(h) && Positive(a) && |h| == |a| == GOALS
    ensures forall m: Market :: MarketMass(m, h, a) > 0.0
    ensures OutcomeTotal(h, a) > 0.0
    ensures OutcomeTotal(h, a) == Times(Total(h, |h|), Total(a, |a|))
    ensures MarketMass(OverTwo, h, a) < OutcomeTotal(h, a) && MarketMass(BothScore, h, a) < OutcomeTotal(h, a)
  {
    hide Times;
    forall m: Market ensures MarketMass(m, h, a) > 0.0 {
      MassNonNegative(m, h, a, |h|);
      assert Counts(HomeWin, 1, 0) && Counts(Draw, 0, 0) && Counts(AwayWin, 0, 1);
      assert Counts(OverTwo, 2, 1) && Counts(BothScore, 1, 1);
    }
    MarketIdentities(h, a);
    TimesPositive(h[0], a[0]);
    TimesPositive(h[0], a[1]);
    TimesPositive(h[0], a[2]);
    TimesPositive(h[1], a[0]);
    TimesPositive(h[1], a[1]);
    TimesPositive(h[2], a[0]);
    TotalPositive(h, |h|);
    TotalPositive(a, |a|);
    BothScoreLeavesZeros(Total(h, |h|), Total(a, |a|), h[0], a[0]);
  }

  lemma BothScoreLeavesZeros(x: real, y: real, x0: real, y0: real)
    requires 0.0 < x0 <= x && 0.0 < y0 <= y
    ensures Times(x - x0, y - y0) < Times(x, y)
  {
    hide Times;
    TimesOrdered(x - x0, y - y0, y);
    TimesAdds(y, x - x0, x0);
    TimesAdds(x0, y, 0.0);
    TimesPositive(x0, y);
  }

  lemma TimesOrdered(x: real, y: real, z: real)
    requires x >= 0.0 && y <= z
    ensures Times(x, y) <= Times(x, z)
  {
  }

  // ---------------------------------------------------------------------------------------------
  // The seed drops out
  // ---------------------------------------------------------------------------------------------

  lemma TimesAssociates(a: real, b: real, c: real, d: real)
    ensures Times(Times(a, b), Times(c, d)) == Times(Times(a, c), Times(b, d))
  {
    assert (a * b) * (c * d) == (a * c) * (b * d);
  }

  lemma {:induction false} ScaledRow(m: Market, seed: real, rate: real, home: nat, n: nat)
    requires n <= GOALS
    ensures Row(m, Distribution(seed, rate), home, n) == Times(seed, Row(m, Weights(rate), home, n))
  {
    hide Times, Weight;
    if n > 0 {
      ScaledRow(m, seed, rate, home, n - 1);
      assert Scaled(seed, rate, n - 1) == Times(seed, Weight(rate, n - 1)) by { ScaledIsTimes(seed, rate, n - 1); }
      TimesAdds(seed, Row(m, Weights(rate), home, n - 1), Weight(rate, n - 1));
    } else {
      TimesAdds(seed, 0.0, 0.0);
    }
  }

  lemma {:induction false} ScaledIsTimes(seed: real, rate: real, k: nat)
    ensures Scaled(seed, rate, k) == Times(seed, Weight(rate, k))
  {
  }

  lemma {:induction false} ScaledMass(m: Market, s: real, x: real, t: real, y: real, rows: nat)
    requires rows <= GOALS
    ensures Mass(m, Distribution(s, x), Distribution(t, y), rows, GOALS)
            == Times(Times(s, t), Mass(m, Weights(x), Weights(y), rows, GOALS))
  {
    hide Times, Weight, Scaled, Row;
    if rows > 0 {
      ScaledMass(m, s, x, t, y, rows - 1);
      ScaledIsTimes(s, x, rows - 1);
      ScaledRow(m, t, y, rows - 1, GOALS);
      var (w, row) := (Weight(x, rows - 1), Row(m, Weights(y), rows - 1, GOALS));
      TimesAssociates(s, w, t, row);
      TimesAdds(Times(s, t), Mass(m, Weights(x), Weights(y), rows - 1, GOALS), Times(w, row));
    } else {
      TimesAdds(Times(s, t), 0.0, 0.0);
    }
  }

  lemma CommonFactor(k: real, x: real, y: real)
    requires k > 0.0 && y > 0.0
    ensures Times(k, y) != 0.0 && Times(k, x) / Times(k, y) == x / y
  {
    var q := x / y;
    assert q * y == x;
    assert (k * y) * q == k * x;
    assert k * y > 0.0;
  }

  lemma WeightsPositive(rate: real)
    requires rate > 0.0
    ensures Positive(Weights(rate))
  {
    hide Weight;
    forall k | 0 <= k < GOALS ensures Weight(rate, k) > 0.0 { WeightPositive(rate, k); }
  }

  lemma DistributionPositive(seed: real, rate: real)
    requires seed > 0.0 && rate > 0.0
    ensures Positive(Distribution(seed, rate))
  {
    hide Weight, Times;
    forall k | 0 <= k < GOALS ensures Scaled(seed, rate, k) > 0.0 {
      WeightPositive(rate, k);
      ScaledIsTimes(seed, rate, k);
      TimesPositive(seed, Weight(rate, k));
    }
  }

  /** Whatever positive seeds stand for exp(-rate), the shares are those of the bare weights. */
  lemma SeedsDropOut(m: Market, s: real, x: real, t: real, y: real)
    requires s > 0.0 && t > 0.0 && x > 0.0 && y > 0.0
    ensures OutcomeTotal(Distribution(s, x), Distribution(t, y)) > 0.0 && OutcomeTotal(Weights(x), Weights(y)) > 0.0
    ensures Share(m, Distribution(s, x), Distribution(t, y)) == Share(m, Weights(x), Weights(y))
  {
    hide Times, Mass, Positive;
    WeightsPositive(x);
    WeightsPositive(y);
    MassesPositive(Weights(x), Weights(y));
    TimesPositive(s, t);
    var k := Times(s, t);
    forall n: Market
      ensures MarketMass(n, Distribution(s, x), Distribution(t, y)) == Times(k, MarketMass(n, Weights(x), Weights(y)))
    {
      ScaledMass(n, s, x, t, y, GOALS);
    }
    var (hw, d) := (MarketMass(HomeWin, Weights(x), Weights(y)), MarketMass(Draw, Weights(x), Weights(y)));
    TimesAdds(k, hw, d);
    TimesAdds(k, hw + d, MarketMass(AwayWin, Weights(x), Weights(y)));
    TimesPositive(k, OutcomeTotal(Weights(x), Weights(y)));
    CommonFactor(k, MarketMass(m, Weights(x), Weights(y)), OutcomeTotal(Weights(x), Weights(y)));
  }

  // ---------------------------------------------------------------------------------------------
  // Raising a rate
  // ---------------------------------------------------------------------------------------------

  /** Likelihood-ratio order of the recurrence: the higher rate favours the higher score. */
  lemma {:induction false} LikelihoodRatio(low: real, high: real, i: nat, k: nat)
    requires 0.0 < low <= high && i <= k
    ensures Times(Weight(high, k), Weight(low, i)) >= Times(Weight(low, k), Weight(high, i))
    decreases k
  {
    hide Times, NextWeight;
    if i < k {
      LikelihoodRatio(low, high, i, k - 1);
      WeightPositive(high, k - 1);
      WeightPositive(low, i);
      RatioStep(Weight(high, k - 1), Weight(low, i), Weight(low, k - 1), Weight(high, i), low, high, k as real);
    } else {
      TimesAdds(Weight(high, k), Weight(low, k), 0.0);
    }
  }

  lemma QuotientsOrdered(low: real, high: real, n: real)
    requires 0.0 < low <= high && n > 0.0
    ensures 0.0 < low / n <= high / n
  {
  }

  lemma FactorOut(a: real, b: real, rate: real, n: real)
    requires n != 0.0
    ensures Times(NextWeight(a, rate, n), b) == Times(rate / n, Times(a, b))
  {
    var p := rate / n;
    assert p * n == rate;
    assert a * (p * n) == (a * p) * n;
    assert a * rate / n == a * p;
    assert (a * p) * b == p * (a * b);
  }

  lemma RatioStep(a: real, b: real, c: real, d: real, low: real, high: real, n: real)
    requires 0.0 < low <= high && n > 0.0 && a > 0.0 && b > 0.0 && Times(a, b) >= Times(c, d)
    ensures Times(NextWeight(a, high, n), b) >= Times(NextWeight(c, low, n), d)
  {
    hide Times, NextWeight;
    QuotientsOrdered(low, high, n);
    FactorOut(a, b, high, n);
    FactorOut(c, d, low, n);
    TimesPositive(a, b);
    TimesOrdered(low / n, Times(c, d), Times(a, b));
    TimesOrdered(Times(a, b), low / n, high / n);
    TimesAdds(Times(a, b), low / n, 0.0);
    TimesAdds(Times(a, b), high / n, 0.0);
  }

  /** The sum of a row quantity `g`, weighted by `w`. */
  ghost function Weighted(w: seq<real>, g: seq<real>, n: nat): real
    requires n <= |w| && n <= |g|
  {
    if n == 0 then 0.0 else Weighted(w, g, n - 1) + Times(w[n - 1], g[n - 1])
  }

  ghost predicate Rising(g: seq<real>) {
    forall i, k :: 0 <= i <= k < |g| ==> g[i] <= g[k]
  }

  ghost predicate RatioOrdered(low: seq<real>, high: seq<real>) {
    |low| == |high| && forall i, k :: 0 <= i <= k < |low| ==> Times(high[k], low[i]) >= Times(low[k], high[i])
  }

  /** How far the last row, weighted by `w`, lies above the rows before it, weighted by `v`. */
  ghost function Lead(w: real, top: real, v: seq<real>, g: seq<real>, n: nat): real
    requires n <= |v| && n <= |g|
  {
    Times(w, Times(top, Total(v, n)) - Weighted(v, g, n))
  }

  lemma LeadStep(w: real, top: real, sum: real, weighted: real, v: real, g: real)
    ensures Times(w, Times(top, sum + v) - (weighted + Times(v, g)))
            == Times(w, Times(top, sum) - weighted) + Times(top - g, Times(w, v))
  {
    assert top * (sum + v) == top * sum + top * v;
    assert (top - g) * v == top * v - v * g;
    var (x, y) := (top * sum - weighted, (top - g) * v);
    assert w * (x + y) == w * x + w * y;
    assert w * ((top - g) * v) == (top - g) * (w * v);
  }

  lemma {:induction false} LeadGrows(low: seq<real>, high: seq<real>, g: seq<real>, k: nat, n: nat)
    requires RatioOrdered(low, high) && Rising(g) && |g| == |low| && n <= k < |low|
    ensures Lead(high[k], g[k], low, g, n) >= Lead(low[k], g[k], high, g, n)
  {
    hide Times;
    if n > 0 {
      LeadGrows(low, high, g, k, n - 1);
      LeadStep(high[k], g[k], Total(low, n - 1), Weighted(low, g, n - 1), low[n - 1], g[n - 1]);
      LeadStep(low[k], g[k], Total(high, n - 1), Weighted(high, g, n - 1), high[n - 1], g[n - 1]);
      TimesOrdered(g[k] - g[n - 1], Times(low[k], high[n - 1]), Times(high[k], low[n - 1]));
    } else {
      TimesAdds(g[k], 0.0, 0.0);
      TimesAdds(high[k], 0.0, 0.0);
      TimesAdds(low[k], 0.0, 0.0);
    }
  }

  lemma CrossStep(mh: real, sl: real, ml: real, sh: real, wh: real, wl: real, g: real)
    ensures Times(mh + Times(wh, g), sl + wl) - Times(ml + Times(wl, g), sh + wh)
            == Times(mh, sl) - Times(ml, sh) + (Times(wh, Times(g, sl) - ml) - Times(wl, Times(g, sh) - mh))
  {
    assert (mh + wh * g) * (sl + wl) == mh * sl + mh * wl + (wh * g) * sl + (wh * g) * wl;
    assert (ml + wl * g) * (sh + wh) == ml * sh + ml * wh + (wl * g) * sh + (wl * g) * wh;
    assert (wh * g) * wl == (wl * g) * wh;
    assert wh * (g * sl - ml) == (wh * g) * sl - ml * wh;
    assert wl * (g * sh - mh) == (wl * g) * sh - mh * wl;
  }

  /** A rising quantity has the higher mean under the weights that favour the higher rows. */
  lemma {:induction false} MeanRises(low: seq<real>, high: seq<real>, g: seq<real>, n: nat)
    requires RatioOrdered(low, high) && Rising(g) && |g| == |low| && n <= |low|
    ensures Times(Weighted(high, g, n), Total(low, n)) >= Times(Weighted(low, g, n), Total(high, n))
  {
    hide Times;
    if n > 0 {
      MeanRises(low, high, g, n - 1);
      LeadGrows(low, high, g, n - 1, n - 1);
      CrossStep(Weighted(high, g, n - 1), Total(low, n - 1), Weighted(low, g, n - 1), Total(high, n - 1),
                high[n - 1], low[n - 1], g[n - 1]);
    }
  }

  // ---------------------------------------------------------------------------------------------
  // From means to markets
  // ---------------------------------------------------------------------------------------------

  /** What each home score contributes to a market; with `sign` -1.0, the opposite. */
  ghost function Rows(m: Market, a: seq<real>, sign: real): seq<real> {
    seq(GOALS, i requires 0 <= i < GOALS => Times(sign, Row(m, a, i, |a|)))
  }

  lemma {:induction false} WeightedRows(m: Market, w: seq<real>, a: seq<real>, sign: real, n: nat)
    requires n <= GOALS == |w|
    ensures Weighted(w, Rows(m, a, sign), n) == Times(sign, Mass(m, w, a, n, |a|))
  {
    hide Times, Row;
    if n > 0 {
      WeightedRows(m, w, a, sign, n - 1);
      var row := Row(m, a, n - 1, |a|);
      TimesAdds(sign, Mass(m, w, a, n - 1, |a|), Times(w[n - 1], row));
      ThreeFactors(w[n - 1], sign, row);
    } else {
      TimesAdds(sign, 0.0, 0.0);
    }
  }

  lemma ThreeFactors(x: real, y: real, z: real)
    ensures Times(x, Times(y, z)) == Times(y, Times(x, z))
  {
    assert x * (y * z) == y * (x * z);
  }

  /** A home win, three goals and both teams scoring count on when the home side scores more; an away win does not. */
  predicate Helped(m: Market) { m.HomeWin? || m.OverTwo? || m.BothScore? }

  lemma {:induction false} RowsOrdered(m: Market, a: seq<real>, i: nat, k: nat, n: nat)
    requires Positive(a) && i <= k && n <= |a|
    ensures Helped(m) ==> Row(m, a, i, n) <= Row(m, a, k, n)
    ensures m.AwayWin? ==> Row(m, a, k, n) <= Row(m, a, i, n)
  {
    if n > 0 { RowsOrdered(m, a, i, k, n - 1); }
  }

  lemma RowsRise(m: Market, a: seq<real>)
    requires Positive(a) && |a| == GOALS && (Helped(m) || m.AwayWin?)
    ensures Rising(Rows(m, a, if Helped(m) then 1.0 else -1.0))
  {
    hide Row;
    var g := Rows(m, a, if Helped(m) then 1.0 else -1.0);
    forall i, k | 0 <= i <= k < |g| ensures g[i] <= g[k] {
      RowsOrdered(m, a, i, k, |a|);
    }
  }

  lemma WeightsOrdered(low: real, high: real)
    requires 0.0 < low <= high
    ensures RatioOrdered(Weights(low), Weights(high))
  {
    hide Times, Weight;
    forall i, k | 0 <= i <= k < GOALS
      ensures Times(Weight(high, k), Weight(low, i)) >= Times(Weight(low, k), Weight(high, i)) {
      LikelihoodRatio(low, high, i, k);
    }
  }

  lemma CrossDivide(mh: real, sh: real, ml: real, sl: real, t: real)
    requires sh > 0.0 && sl > 0.0 && t > 0.0 && Times(mh, sl) >= Times(ml, sh)
    ensures Times(sh, t) > 0.0 && Times(sl, t) > 0.0
    ensures mh / Times(sh, t) >= ml / Times(sl, t)
  {
    var (p, q) := (mh / (sh * t), ml / (sl * t));
    assert sh * t > 0.0 && sl * t > 0.0;
    assert p * (sh * t) == mh && q * (sl * t) == ml;
    var k := (sh * t) * sl;
    assert k > 0.0;
    assert p * k == mh * sl;
    assert q * k == ml * sh;
    Uncancel(p, q, k);
  }

  lemma Uncancel(p: real, q: real, k: real)
    requires k > 0.0 && p * k >= q * k
    ensures p >= q
  {
  }

  /** On the bare weights: the share of a helped market rises with the home rate, that of an away win falls. */
  lemma WeightSharesMove(m: Market, low: real, high: real, awayRate: real)
    requires 0.0 < low <= high && awayRate > 0.0 && (Helped(m) || m.AwayWin?)
    ensures OutcomeTotal(Weights(low), Weights(awayRate)) > 0.0 && OutcomeTotal(Weights(high), Weights(awayRate)) > 0.0
    ensures Helped(m) ==> Share(m, Weights(low), Weights(awayRate)) <= Share(m, Weights(high), Weights(awayRate))
    ensures m.AwayWin? ==> Share(m, Weights(low), Weights(awayRate)) >= Share(m, Weights(high), Weights(awayRate))
  {
    hide Times, Mass, Positive, Rows, Rising, RatioOrdered, Weighted;
    var (l, h, a) := (Weights(low), Weights(high), Weights(awayRate));
    var sign := if Helped(m) then 1.0 else -1.0;
    WeightsPositive(low);
    WeightsPositive(high);
    WeightsPositive(awayRate);
    MassesPositive(l, a);
    MassesPositive(h, a);
    TotalsPositive(l, h, a);
    RowsRise(m, a);
    WeightsOrdered(low, high);
    assert |Rows(m, a, sign)| == GOALS by { RowCount(m, a, sign); }
    MeanRises(l, h, Rows(m, a, sign), GOALS);
    WeightedRows(m, l, a, sign, GOALS);
    WeightedRows(m, h, a, sign, GOALS);
    var (ml, mh) := (MarketMass(m, l, a), MarketMass(m, h, a));
    var (sl, sh, t) := (Total(l, GOALS), Total(h, GOALS), Total(a, GOALS));
    SignedCross(sign, mh, sl, ml, sh);
    if Helped(m) {
      CrossDivide(mh, sh, ml, sl, t);
    } else {
      CrossDivide(ml, sl, mh, sh, t);
    }
  }

  lemma RowCount(m: Market, a: seq<real>, sign: real)
    ensures |Rows(m, a, sign)| == GOALS
  {
  }

  lemma {:induction false} TotalsPositive(l: seq<real>, h: seq<real>, a: seq<real>)
    requires Positive(l) && Positive(h) && Positive(a) && |l| == |h| == |a| == GOALS
    ensures Total(l, GOALS) > 0.0 && Total(h, GOALS) > 0.0 && Total(a, GOALS) > 0.0
  {
    TotalPositive(l, GOALS);
    TotalPositive(h, GOALS);
    TotalPositive(a, GOALS);
  }

  lemma SignedCross(sign: real, mh: real, sl: real, ml: real, sh: real)
    requires sign == 1.0 || sign == -1.0
    requires Times(Times(sign, mh), sl) >= Times(Times(sign, ml), sh)
    ensures if sign == 1.0 then Times(mh, sl) >= Times(ml, sh) else Times(ml, sh) >= Times(mh, sl)
  {
    if sign == 1.0 {
      assert Times(sign, mh) == mh && Times(sign, ml) == ml;
    } else {
      assert Times(sign, mh) == -mh && Times(sign, ml) == -ml;
      assert (-mh) * sl == -(mh * sl) && (-ml) * sh == -(ml * sh);
    }
  }

  /**
   Raising the home rate, with the seeds whatever positive numbers they are, never lowers the share of a home
   win, of three goals or more, or of both teams scoring, and never raises the share of an away win.
   */
  lemma RaisingHomeRate(m: Market, s: real, low: real, s': real, high: real, t: real, t': real, awayRate: real)
    requires s > 0.0 && s' > 0.0 && t > 0.0 && t' > 0.0 && 0.0 < low <= high && awayRate > 0.0
    requires Helped(m) || m.AwayWin?
    ensures var (h, h') := (Distribution(s, low), Distribution(s', high));
            var (a, a') := (Distribution(t, awayRate), Distribution(t', awayRate));
            && OutcomeTotal(h, a) > 0.0 && OutcomeTotal(h', a') > 0.0
            && (Helped(m) ==> Share(m, h, a) <= Share(m, h', a'))
            && (m.AwayWin? ==> Share(m, h, a) >= Share(m, h', a'))
  {
    hide Share, OutcomeTotal, Distribution, Weights;
    SeedsDropOut(m, s, low, t, awayRate);
    SeedsDropOut(m, s', high, t', awayRate);
    WeightSharesMove(m, low, high, awayRate);
  }

  /** Exchanging the two sides exchanges the shares of the two wins and fixes the other three. */
  lemma SharesMirror(m: Market, h: seq<real>, a: seq<real>)
    requires OutcomeTotal(h, a) != 0.0
    ensures OutcomeTotal(a, h) == OutcomeTotal(h, a)
    ensures Share(m, h, a) == Share(Mirror(m), a, h)
  {
    hide Mass;
    forall n: Market ensures MarketMass(n, h, a) == MarketMass(Mirror(n), a, h) {
      MarketsMirror(n, h, a);
    }
    assert Mirror(HomeWin) == AwayWin && Mirror(AwayWin) == HomeWin && Mirror(Draw) == Draw;
  }

  /** The dual for the away rate: the share of an away win rises with it, that of a home win falls. */
  lemma RaisingAwayRate(m: Market, s: real, s': real, homeRate: real, t: real, low: real, t': real, high: real)
    requires s > 0.0 && s' > 0.0 && t > 0.0 && t' > 0.0 && 0.0 < low <= high && homeRate > 0.0
    requires m.AwayWin? || m.OverTwo? || m.BothScore? || m.HomeWin?
    ensures var (h, h') := (Distribution(s, homeRate), Distribution(s', homeRate));
            var (a, a') := (Distribution(t, low), Distribution(t', high));
            && OutcomeTotal(h, a) > 0.0 && OutcomeTotal(h', a') > 0.0
            && (!m.HomeWin? ==> Share(m, h, a) <= Share(m, h', a'))
            && (m.HomeWin? ==> Share(m, h, a) >= Share(m, h', a'))
  {
    hide Share, OutcomeTotal, Distribution;
    RaisingHomeRate(Mirror(m), t, low, t', high, s, s', homeRate);
    SharesMirror(Mirror(m), Distribution(t, low), Distribution(s, homeRate));
    SharesMirror(Mirror(m), Distribution(t', high), Distribution(s', homeRate));
    assert Mirror(Mirror(m)) == m;
  }
}
