/** The cricket formulas: batter metrics with the performance tier, and bowler
    metrics computed from overs written in cricket notation. */
module Cricket {
  import opened Wrappers
  import opened PyNumeric
  import opened Models

  // ── Performance tier ────────────────────────────────────────────────────

  /** Tiers from lowest to highest. */
  function TierRank(t: Tier): nat {
    match t
    case Struggling => 0
    case Developing => 1
    case Quality => 2
    case Elite => 3
  }

  /** Whether a score is high enough for a tier: 20, 35 and 50 are the
      inclusive lower bounds; every score reaches Struggling. */
  predicate Reaches(score: real, t: Tier) {
    match t
    case Struggling => true
    case Developing => score >= 20.0
    case Quality => score >= 35.0
    case Elite => score >= 50.0
  }

  /** The score the tier is judged on: the average weighs 0.6, the strike
      rate 0.04. */
  function TierScore(average: real, strikeRate: real): (score: real)
    ensures score == 0.6 * average + 0.04 * strikeRate
    ensures 0.0 <= average && 0.0 <= strikeRate ==> 0.0 <= score
  {
    (average * 0.6) + (strikeRate * 0.4 / 10.0)
  }

  /** The highest tier whose threshold the score reaches. */
  function PerformanceTier(average: real, strikeRate: real): (t: Tier)
    ensures Reaches(TierScore(average, strikeRate), t)
    ensures forall u :: TierRank(t) < TierRank(u) ==> !Reaches(TierScore(average, strikeRate), u)
  {
    var score := TierScore(average, strikeRate);
    if score >= 50.0 then Elite
    else if score >= 35.0 then Quality
    else if score >= 20.0 then Developing
    else Struggling
  }

  /** A higher score never gives a lower tier. */
  lemma TierMonotone(average1: real, strikeRate1: real, average2: real, strikeRate2: real)
    requires TierScore(average1, strikeRate1) <= TierScore(average2, strikeRate2)
    ensures TierRank(PerformanceTier(average1, strikeRate1)) <= TierRank(PerformanceTier(average2, strikeRate2))
  {
    var t1 := PerformanceTier(average1, strikeRate1);
    assert Reaches(TierScore(average2, strikeRate2), t1);
  }

  // ── Batter ──────────────────────────────────────────────────────────────

  const DismissalsZeroDetail := "Dismissals cannot be zero."

  /** Innings in which the batter was out. */
  function Dismissals(x: BatterInput): (d: int)
    ensures 0 <= x.timesNotOut < x.inningsPlayed ==> 1 <= d <= x.inningsPlayed
    ensures d == 0 <==> x.timesNotOut == x.inningsPlayed
  {
    x.inningsPlayed - x.timesNotOut
  }

  /** Share of the runs scored in boundaries, in percent; 0.0 when no runs
      were scored. */
  function BoundaryPercentage(x: BatterInput): (p: real)
    ensures x.runsScored == 0 ==> p == 0.0
    ensures x.runsScored > 0 && x.fours >= 0 && x.sixes >= 0 ==> p >= 0.0
    ensures IsCents(p)
    ensures x.runsScored > 0 ==>
      var exact := (((x.fours * 4) + (x.sixes * 6)) as real / x.runsScored as real) * 100.0;
      exact - 0.005 <= p <= exact + 0.005
  {
    var boundaryRuns := (x.fours * 4) + (x.sixes * 6);
    if x.runsScored > 0 then Round2((boundaryRuns as real / x.runsScored as real) * 100.0) else 0.0
  }

  /** The batter handler: refuses a record with no dismissals, divides by
      `balls_faced` unguarded, and otherwise reports the rounded metrics. */
  function AnalyzeBatter(x: BatterInput): (r: Result<BatterOutput, Failure>)
    ensures Dismissals(x) == 0 ==> r == Err(Domain(DismissalsZeroDetail))
    ensures Dismissals(x) != 0 && x.ballsFaced == 0 ==> r == Err(ZeroDivision)
    ensures r.Ok? <==> Dismissals(x) != 0 && x.ballsFaced != 0
    ensures r.Ok? ==>
      var out := r.value;
      && out.playerName == x.playerName
      && IsCents(out.battingAverage) && IsCents(out.strikeRate)
      && IsCents(out.boundaryPercentage) && IsCents(out.impactScore)
      && x.runsScored as real / Dismissals(x) as real - 0.005 <= out.battingAverage
      && out.battingAverage <= x.runsScored as real / Dismissals(x) as real + 0.005
      && (x.runsScored as real / x.ballsFaced as real) * 100.0 - 0.005 <= out.strikeRate
      && out.strikeRate <= (x.runsScored as real / x.ballsFaced as real) * 100.0 + 0.005
      && out.performanceTier == PerformanceTier(out.battingAverage, out.strikeRate)
      && out.boundaryPercentage == BoundaryPercentage(x)
      && (out.battingAverage * 0.40) + (out.strikeRate * 0.35 / 10.0) + (out.boundaryPercentage * 0.25 / 10.0) - 0.005
           <= out.impactScore
      && out.impactScore
           <= (out.battingAverage * 0.40) + (out.strikeRate * 0.35 / 10.0) + (out.boundaryPercentage * 0.25 / 10.0) + 0.005
  {
    var dismissals := Dismissals(x);
    if dismissals == 0 then Err(Domain(DismissalsZeroDetail))
    else if x.ballsFaced == 0 then Err(ZeroDivision)
    else
      var battingAvg := Round2(x.runsScored as real / dismissals as real);
      var strikeRate := Round2((x.runsScored as real / x.ballsFaced as real) * 100.0);
      var boundaryPct := BoundaryPercentage(x);
      var impact := Round2((battingAvg * 0.40) + (strikeRate * 0.35 / 10.0) + (boundaryPct * 0.25 / 10.0));
      Ok(BatterOutput(x.playerName, battingAvg, strikeRate, boundaryPct, impact,
                      PerformanceTier(battingAvg, strikeRate)))
  }

  /** On a record that passed validation there is at least one dismissal, so
      the "Dismissals cannot be zero." refusal cannot happen, and every
      metric is defined and non-negative; the average is the rounded runs per
      dismissal and never exceeds the runs scored. */
  lemma ValidBatterAnalysed(x: BatterInput)
    requires BatterInvariant(x)
    ensures Dismissals(x) >= 1
    ensures AnalyzeBatter(x).Ok?
    ensures var out := AnalyzeBatter(x).value;
      && out.battingAverage == Round2(x.runsScored as real / Dismissals(x) as real)
      && 0.0 <= out.battingAverage <= x.runsScored as real
      && 0.0 <= out.strikeRate
      && 0.0 <= out.boundaryPercentage
      && 0.0 <= out.impactScore
      && (x.runsScored > 0 ==>
            out.boundaryPercentage == Round2((((x.fours * 4) + (x.sixes * 6)) as real / x.runsScored as real) * 100.0))
  {
    var runs := x.runsScored as real;
    var d := Dismissals(x) as real;
    var avg := Round2(runs / d);
    assert 0.0 <= avg <= runs by {
      QuotientAtMost(runs, d);
      Round2Monotone(runs / d, runs);
      IntegerIsCents(x.runsScored);
      Round2OfCents(runs);
    }
    var sr := Round2((runs / x.ballsFaced as real) * 100.0);
    assert 0.0 <= sr by {
      assert 0.0 <= runs / x.ballsFaced as real;
    }
    var bp := BoundaryPercentage(x);
    assert 0.0 <= bp;
    var out := AnalyzeBatter(x).value;
    assert out.battingAverage == avg && out.strikeRate == sr && out.boundaryPercentage == bp;
    assert out.impactScore == Round2((avg * 0.40) + (sr * 0.35 / 10.0) + (bp * 0.25 / 10.0));
  }

  lemma QuotientAtMost(a: real, b: real)
    requires a >= 0.0 && b >= 1.0
    ensures 0.0 <= a / b <= a
  {
    assert a / b * b == a;
  }

  // ── Bowler ──────────────────────────────────────────────────────────────

  /** Balls bowled, read from overs in cricket notation: the whole overs are
      six balls each, and the first decimal digit, rounded, counts balls. */
  function BallsFromOvers(overs: real): (balls: int)
    ensures 0.0 <= overs ==> 6 * Trunc(overs) <= balls <= 6 * Trunc(overs) + 10
  {
    var fullOvers := Trunc(overs);
    var extraBalls := RoundHalfEven((overs - fullOvers as real) * 10.0);
    (fullOvers * 6) + extraBalls
  }

  /** `n.d` overs, for a digit `d`, is `6 * n + d` balls. */
  lemma OversNotation(n: nat, d: int)
    requires 0 <= d <= 9
    ensures BallsFromOvers(n as real + d as real / 10.0) == 6 * n + d
  {
    var overs := n as real + d as real / 10.0;
    assert Trunc(overs) == n;
    assert (overs - n as real) * 10.0 == d as real;
    RoundHalfEvenOfInteger(d);
  }

  /** Nothing rejects a digit from 6 to 9: `n.d` then counts the same balls as
      `(n + 1).(d - 6)`, so 8.7 overs reads as 9.1. */
  lemma OversDigitOverflow(n: nat, d: int)
    requires 6 <= d <= 9
    ensures BallsFromOvers(n as real + d as real / 10.0)
         == BallsFromOvers((n + 1) as real + (d - 6) as real / 10.0)
  {
    OversNotation(n, d);
    OversNotation(n + 1, d - 6);
  }

  /** A positive overs value yields at least one ball exactly when it exceeds
      0.05: below that its tenths digit rounds to zero. */
  lemma BallsPositiveIff(overs: real)
    requires overs > 0.0
    ensures BallsFromOvers(overs) > 0 <==> overs > 0.05
  {
    var fullOvers := Trunc(overs);
    var extra := RoundHalfEven((overs - fullOvers as real) * 10.0);
    if overs < 1.0 {
      assert fullOvers == 0;
      assert BallsFromOvers(overs) == extra;
      if overs <= 0.05 {
        assert extra <= 1;
      }
    } else {
      assert fullOvers >= 1;
      assert extra >= 0;
    }
  }

  /** Three or more wickets win a match; one or two contribute. */
  function WicketImpactOf(wickets: int): (impact: WicketImpact)
    ensures impact == MatchWinner <==> wickets >= 3
    ensures impact == UsefulContributor <==> 1 <= wickets <= 2
    ensures impact == Wicketless <==> wickets <= 0
  {
    if wickets >= 3 then MatchWinner
    else if wickets >= 1 then UsefulContributor
    else Wicketless
  }

  /** The bowler handler: the economy rate divides by the overs unguarded;
      average and strike rate are absent, not zero, without a wicket. */
  function AnalyzeBowler(x: BowlerInput): (r: Result<BowlerOutput, Failure>)
    ensures r.Err? <==> BallsFromOvers(x.oversBowled) == 0
    ensures r.Err? ==> r.error == ZeroDivision
    ensures r.Ok? ==>
      var out := r.value;
      var balls := BallsFromOvers(x.oversBowled) as real;
      && out.playerName == x.playerName
      && IsCents(out.economyRate)
      && x.runsConceded as real / (balls / 6.0) - 0.005 <= out.economyRate
      && out.economyRate <= x.runsConceded as real / (balls / 6.0) + 0.005
      && (out.bowlingAverage.None? <==> x.wicketsTaken <= 0)
      && (out.bowlingStrikeRate.None? <==> x.wicketsTaken <= 0)
      && (x.wicketsTaken > 0 ==>
            && out.bowlingAverage == Some(Round2(x.runsConceded as real / x.wicketsTaken as real))
            && out.bowlingStrikeRate == Some(Round2(balls / x.wicketsTaken as real)))
      && out.wicketImpact == WicketImpactOf(x.wicketsTaken)
  {
    var totalBalls := BallsFromOvers(x.oversBowled);
    if totalBalls == 0 then Err(ZeroDivision)
    else
      var totalOversDecimal := totalBalls as real / 6.0;
      var economy := Round2(x.runsConceded as real / totalOversDecimal);
      var bowlingAvg := if x.wicketsTaken > 0 then Some(Round2(x.runsConceded as real / x.wicketsTaken as real)) else None;
      var bowlingSr := if x.wicketsTaken > 0 then Some(Round2(totalBalls as real / x.wicketsTaken as real)) else None;
      Ok(BowlerOutput(x.playerName, economy, bowlingAvg, bowlingSr, WicketImpactOf(x.wicketsTaken)))
  }

  /** On a record that passed validation the handler fails exactly when the
      overs are too few to hold a ball (0.05 or less, which validation lets
      through); otherwise the economy rate is non-negative, average and strike
      rate are absent exactly when no wicket fell, and "Wicketless" is the
      impact exactly then. */
  lemma ValidBowlerAnalysed(x: BowlerInput)
    requires BowlerInvariant(x)
    ensures AnalyzeBowler(x).Ok? <==> x.oversBowled > 0.05
    ensures AnalyzeBowler(x).Ok? ==>
      var out := AnalyzeBowler(x).value;
      && 0.0 <= out.economyRate
      && (out.bowlingAverage.None? <==> x.wicketsTaken == 0)
      && (out.bowlingStrikeRate.None? <==> x.wicketsTaken == 0)
      && (out.wicketImpact == Wicketless <==> x.wicketsTaken == 0)
  {
    BallsPositiveIff(x.oversBowled);
  }
}
