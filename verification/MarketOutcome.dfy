/**
 The two implementations of the outcome rules: the one that computes an outcome from the scores, and the
 database trigger that checks it before a resolution is stored.
 */
module MarketOutcome {
  import opened Wrappers

  datatype Market =
    | FirstHalfMoreGoals | SecondHalfMoreGoals | EqualHalfGoals
    | FirstHalfOver05 | SecondHalfOver05 | SecondHalfOver15
    | HomeOrDraw | AwayOrDraw | HomeOrAway
    | UnknownMarket(name: string)

  datatype Outcome = Success | Failure | Unsettled

  /** The four score columns of an observation; they are nullable integers. */
  datatype Scores = Scores(halfHome: Option<int>, halfAway: Option<int>, fullHome: Option<int>, fullAway: Option<int>)

  predicate OutOfRange(n: Option<int>) { n.Some? && (n.value < 0 || n.value > 100) }

  predicate InRange(n: Option<int>) { n.Some? && 0 <= n.value <= 100 }

  function Decide(success: bool): Outcome { if success then Success else Failure }

  predicate IsDoubleChance(m: Market) { m.HomeOrDraw? || m.AwayOrDraw? || m.HomeOrAway? }

  /** `evaluate_market_outcome`; `Unsettled` is VOID. */
  function EvaluateMarketOutcome(m: Market, s: Scores): Outcome {
    if OutOfRange(s.halfHome) || OutOfRange(s.halfAway) then Unsettled
    else if OutOfRange(s.fullHome) || OutOfRange(s.fullAway) then Unsettled
    else if s.fullHome.None? || s.fullAway.None? then Unsettled
    else
      var (home, away) := (s.fullHome.value, s.fullAway.value);
      if m.HomeOrDraw? then Decide(home >= away)
      else if m.AwayOrDraw? then Decide(away >= home)
      else if m.HomeOrAway? then Decide(home != away)
      else if s.halfHome.None? || s.halfAway.None? then Unsettled
      else
        var first := s.halfHome.value + s.halfAway.value;
        var full := home + away;
        if first > full then Unsettled
        else
          var second := full - first;
          match m
          case FirstHalfMoreGoals => Decide(first > second)
          case SecondHalfMoreGoals => Decide(second > first)
          case EqualHalfGoals => Decide(first == second)
          case FirstHalfOver05 => Decide(first >= 1)
          case SecondHalfOver05 => Decide(second >= 1)
          case SecondHalfOver15 => Decide(second >= 2)
          case _ => Unsettled
  }

  /** The text of a score in the payload is all digits: present and not negative. */
  predicate Digits(n: Option<int>) { n.Some? && n.value >= 0 }

  /** The outcome the trigger expects of a settled resolution, or None where it raises. */
  function TriggerExpects(m: Market, s: Scores): Option<Outcome> {
    if !Digits(s.fullHome) || !Digits(s.fullAway) then None
    else if s.fullHome.value > 100 || s.fullAway.value > 100 then None
    else if m.HomeOrDraw? then Some(Decide(s.fullHome.value >= s.fullAway.value))
    else if m.AwayOrDraw? then Some(Decide(s.fullAway.value >= s.fullHome.value))
    else if m.HomeOrAway? then Some(Decide(s.fullHome.value != s.fullAway.value))
    else if !Digits(s.halfHome) || !Digits(s.halfAway) then None
    else if s.halfHome.value > 100 || s.halfAway.value > 100 then None
    else
      var first := s.halfHome.value + s.halfAway.value;
      var full := s.fullHome.value + s.fullAway.value;
      if first > full then None
      else
        match m
        case FirstHalfMoreGoals => Some(Decide(first > full - first))
        case SecondHalfMoreGoals => Some(Decide(full - first > first))
        case EqualHalfGoals => Some(Decide(first == full - first))
        case FirstHalfOver05 => Some(Decide(first >= 1))
        case SecondHalfOver05 => Some(Decide(full - first >= 1))
        case SecondHalfOver15 => Some(Decide(full - first >= 2))
        case _ => None
  }

  /** A settled outcome is always the one the trigger expects. */
  lemma SettledIsExpected(m: Market, s: Scores)
    ensures EvaluateMarketOutcome(m, s) != Unsettled ==> TriggerExpects(m, s) == Some(EvaluateMarketOutcome(m, s))
  {
  }

  /**
   The converse fails: for a double-chance market the trigger never looks at the half-time scores, so it would
   accept an outcome that the code voids because a half-time score is out of range.
   */
  lemma TriggerIsLaxer()
    ensures var s := Scores(Some(101), Some(0), Some(1), Some(0));
            EvaluateMarketOutcome(HomeOrDraw, s) == Unsettled && TriggerExpects(HomeOrDraw, s) == Some(Success)
  {
  }

  /** That is the only disagreement: for all markets and scores the two agree except exactly there. */
  lemma DisagreementIsExact(m: Market, s: Scores)
    ensures (TriggerExpects(m, s) ==
             if EvaluateMarketOutcome(m, s) == Unsettled then None else Some(EvaluateMarketOutcome(m, s)))
            <==> !(IsDoubleChance(m) && InRange(s.fullHome) && InRange(s.fullAway)
                   && (OutOfRange(s.halfHome) || OutOfRange(s.halfAway)))
  {
  }

  // ---------------------------------------------------------------------------------------------
  // The outcomes, on the goals
  // ---------------------------------------------------------------------------------------------

  /** The half-time and full-time scores of a match that was played and recorded. */
  function Goals(halfHome: int, halfAway: int, fullHome: int, fullAway: int): Scores {
    Scores(Some(halfHome), Some(halfAway), Some(fullHome), Some(fullAway))
  }

  /** A score column that voids nothing: missing, or a plausible number. */
  predicate Unsuspicious(n: Option<int>) { n.None? || 0 <= n.value <= 100 }

  /** One outcome of a double chance: whether the side that may win or draw does not lose, or whether somebody wins. */
  lemma DoubleChances(halfHome: Option<int>, halfAway: Option<int>, home: int, away: int)
    requires Unsuspicious(halfHome) && Unsuspicious(halfAway) && 0 <= home <= 100 && 0 <= away <= 100
    ensures var s := Scores(halfHome, halfAway, Some(home), Some(away));
            && EvaluateMarketOutcome(HomeOrDraw, s) == (if home >= away then Success else Failure)
            && EvaluateMarketOutcome(AwayOrDraw, s) == (if away >= home then Success else Failure)
            && EvaluateMarketOutcome(HomeOrAway, s) == (if home != away then Success else Failure)
  {
  }

  /** Exactly one of the three fails: that of the other side's win, or of a draw. */
  lemma OneDoubleChanceFails(halfHome: Option<int>, halfAway: Option<int>, home: int, away: int)
    requires Unsuspicious(halfHome) && Unsuspicious(halfAway) && 0 <= home <= 100 && 0 <= away <= 100
    ensures var s := Scores(halfHome, halfAway, Some(home), Some(away));
            var failing := if home > away then AwayOrDraw else if home < away then HomeOrDraw else HomeOrAway;
            forall m :: IsDoubleChance(m) ==>
              EvaluateMarketOutcome(m, s) == if m == failing then Failure else Success
  {
    DoubleChances(halfHome, halfAway, home, away);
  }

  /** The markets that compare the halves: exactly one succeeds, decided by where more goals fell. */
  lemma HalvesCompared(halfHome: int, halfAway: int, home: int, away: int)
    requires 0 <= halfHome <= 100 && 0 <= halfAway <= 100 && 0 <= home <= 100 && 0 <= away <= 100
    requires halfHome + halfAway <= home + away
    ensures var s := Goals(halfHome, halfAway, home, away);
            var first := halfHome + halfAway;
            var second := home + away - first;
            && EvaluateMarketOutcome(FirstHalfMoreGoals, s) == (if first > second then Success else Failure)
            && EvaluateMarketOutcome(SecondHalfMoreGoals, s) == (if second > first then Success else Failure)
            && EvaluateMarketOutcome(EqualHalfGoals, s) == (if first == second then Success else Failure)
  {
  }

  /** The over markets fail exactly when the half has fewer goals than the line needs: one, one and two. */
  lemma OverLines(halfHome: int, halfAway: int, home: int, away: int)
    requires 0 <= halfHome <= 100 && 0 <= halfAway <= 100 && 0 <= home <= 100 && 0 <= away <= 100
    requires halfHome + halfAway <= home + away
    ensures var s := Goals(halfHome, halfAway, home, away);
            var second := home + away - halfHome - halfAway;
            && EvaluateMarketOutcome(FirstHalfOver05, s) == (if halfHome + halfAway == 0 then Failure else Success)
            && EvaluateMarketOutcome(SecondHalfOver05, s) == (if second == 0 then Failure else Success)
            && EvaluateMarketOutcome(SecondHalfOver15, s) == (if second <= 1 then Failure else Success)
  {
  }

  /**
   Nothing is decided exactly when a score is implausible, one the market needs is missing, or half-time has more goals
   than full time.
   */
  lemma UndecidedExactly(m: Market, s: Scores)
    ensures EvaluateMarketOutcome(m, s) == Unsettled <==>
            || !Unsuspicious(s.halfHome) || !Unsuspicious(s.halfAway)
            || !Unsuspicious(s.fullHome) || !Unsuspicious(s.fullAway)
            || s.fullHome.None? || s.fullAway.None?
            || (m != HomeOrDraw && m != AwayOrDraw && m != HomeOrAway
                && (|| m.UnknownMarket? || s.halfHome.None? || s.halfAway.None?
                    || s.halfHome.value + s.halfAway.value > s.fullHome.value + s.fullAway.value))
  {
  }

  function OtherSide(m: Market): Market {
    match m case HomeOrDraw => AwayOrDraw case AwayOrDraw => HomeOrDraw case _ => m
  }

  /** Exchanging the teams exchanges home-or-draw with away-or-draw and leaves every other market where it was. */
  lemma TeamsSwap(m: Market, s: Scores)
    ensures EvaluateMarketOutcome(OtherSide(m), Scores(s.halfAway, s.halfHome, s.fullAway, s.fullHome))
            == EvaluateMarketOutcome(m, s)
  {
  }
}
