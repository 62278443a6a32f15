/** Concrete requests and what the calculator answers to them. */
module Scenarios {
  import opened Wrappers
  import opened PyNumeric
  import opened Models
  import opened Cricket
  import opened Basketball
  import opened Routes

  /** 500 runs over 8 dismissals average 62.5. */
  lemma BatterBasic()
    ensures var r := PostBatter(BatterInput("Virat Kohli", 500, 420, 10, 2, 45, 10));
      r.Ok? && r.value.battingAverage == 62.5
  {
    var x := BatterInput("Virat Kohli", 500, 420, 10, 2, 45, 10);
    assert BatterInvariant(x);
    assert AnalyzeBatter(x).value.battingAverage == Round2(500.0 / 8.0) by {
      ValidBatterAnalysed(x);
    }
    assert Round2(500.0 / 8.0) == 62.5 by {
      assert 500.0 / 8.0 == 62.5;
      assert IsCents(62.5) by {
        assert 62.5 * 100.0 == 6250 as real;
      }
      Round2OfCents(62.5);
    }
  }

  /** Three not-outs in three innings is rejected, and for that reason alone. */
  lemma BatterNotOutsEqualInnings()
    ensures PostBatter(BatterInput("Bad", 100, 90, 3, 3, 10, 2)) == Err(Invalid([NotOutsError]))
  {
    var x := BatterInput("Bad", 100, 90, 3, 3, 10, 2);
    var before, after := BatterChecksBefore(x), BatterChecksAfter(x);
    assert Passes(before[0]) && Passes(before[1]) && Passes(before[2]);
    assert Failing(before) == [];
    assert Passes(after[0]) && Passes(after[1]);
    assert Failing(after) == [];
    assert NotOutErrors(x) == [NotOutsError];
    assert Failing(before) + NotOutErrors(x) + Failing(after) == [NotOutsError];
    assert ValidateBatter(x) == Err([NotOutsError]);
  }

  /** Four wickets make a match-winner. */
  lemma BowlerFourWickets()
    ensures var r := PostBowler(BowlerInput("Bumrah", 10.0, 32, 4, 2));
      r.Ok? && r.value.wicketImpact == MatchWinner && r.value.wicketImpact.Label() == "Match-winner"
  {
  }

  /** Without a wicket the bowling average is absent. */
  lemma BowlerNoWickets()
    ensures var r := PostBowler(BowlerInput("Expensive", 5.0, 55, 0, 0));
      r.Ok? && r.value.bowlingAverage == None
  {
  }

  /** 25 points, 10 assists and 5 rebounds score 36 and beat 30 points,
      4 assists and 3 rebounds, which score 35.2. */
  lemma ComparePointGod()
    ensures var r := ComparePlayers(25.0, 5.0, 10.0, 30.0, 3.0, 4.0, "Point God", "Scorer");
      && r["Point God"] == Score(36.0)
      && r["Scorer"] == Score(35.2)
      && r[EdgeKey] == Edge("Point God")
  {
    Round2OfCents(36.0);
    Round2OfCents(35.2);
  }

  /** 26.5 points with 8.1 rebounds is a Star / All-Around. */
  lemma TatumIsStar()
    ensures var r := PostBasketballPlayer(BasketballInput(
              "Tatum", 26.5, 8.1, 4.9, 1.1, 0.8, 2.3, 35.2, 9.2, 20.1, 5.8, 6.9, 2.3));
      r.Ok? && r.value.roleClassification == StarAllAround
      && r.value.roleClassification.Label() == "Star / All-Around"
  {
  }

  /** Two unnamed players with equal lines tie, and the tie goes to the
      first one, "Player 1". */
  lemma CompareTieDefaultNames()
    ensures var r := ComparePlayers(18.0, 6.0, 4.0, 18.0, 6.0, 4.0, DefaultName1, DefaultName2);
      && r[EdgeKey] == Edge("Player 1")
      && r["Player 2"] == Score(25.6)
  {
    assert CompositeScore(18.0, 6.0, 4.0) == 25.6 by {
      assert IsCents(25.6) by {
        assert 25.6 * 100.0 == 2560 as real;
      }
      Round2OfCents(25.6);
    }
  }

  /** 0.04 overs passes validation, rounds to no ball at all, and the
      economy rate then divides by zero. */
  lemma BowlerTooFewOvers()
    ensures PostBowler(BowlerInput("Part-timer", 0.04, 10, 0, 0)) == Err(ZeroDivision)
  {
    assert BallsFromOvers(0.04) == 0;
  }

  /** 8.7 overs is read as 55 balls, the same as 9.1 overs. */
  lemma BowlerSevenTenths()
    ensures BallsFromOvers(8.7) == BallsFromOvers(9.1) == 55
  {
    OversNotation(8, 7);
    OversNotation(9, 1);
    assert 8.0 + 7.0 / 10.0 == 8.7;
    assert 9.0 + 1.0 / 10.0 == 9.1;
  }
}
