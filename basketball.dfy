/** The basketball formulas: per-36-minute rates, true shooting, an
    efficiency composite, the usage proxy, the role classification, and the
    two-player comparison. */
module Basketball {
  import opened Wrappers
  import opened PyNumeric
  import opened Models

  // ── Role classification ─────────────────────────────────────────────────

  /** The order in which the role rules are tried, first to last. */
  function Precedence(role: Role): nat {
    match role
    case StarAllAround => 0
    case PrimaryScorer => 1
    case Playmaker => 2
    case RebounderAnchor => 3
    case RotationContributor => 4
    case RolePlayer => 5
  }

  /** The rule each role stands for; Role Player is the catch-all. */
  predicate RoleRule(role: Role, pts: real, reb: real, ast: real) {
    match role
    case StarAllAround => pts >= 20.0 && (reb >= 8.0 || ast >= 7.0)
    case PrimaryScorer => pts >= 20.0
    case Playmaker => ast >= 7.0
    case RebounderAnchor => reb >= 9.0
    case RotationContributor => pts >= 12.0
    case RolePlayer => true
  }

  /** The first role, in precedence order, whose rule the player meets. */
  function ClassifyRole(pts: real, reb: real, ast: real): (role: Role)
    ensures RoleRule(role, pts, reb, ast)
    ensures forall earlier :: Precedence(earlier) < Precedence(role) ==> !RoleRule(earlier, pts, reb, ast)
  {
    if pts >= 20.0 && (reb >= 8.0 || ast >= 7.0) then StarAllAround
    else if pts >= 20.0 then PrimaryScorer
    else if ast >= 7.0 then Playmaker
    else if reb >= 9.0 then RebounderAnchor
    else if pts >= 12.0 then RotationContributor
    else RolePlayer
  }

  /** First-match semantics pins the role down: any role whose rule holds and
      that no earlier rule pre-empts is the one classified. */
  lemma ClassifyRoleUnique(role: Role, pts: real, reb: real, ast: real)
    requires RoleRule(role, pts, reb, ast)
    requires forall earlier :: Precedence(earlier) < Precedence(role) ==> !RoleRule(earlier, pts, reb, ast)
    ensures ClassifyRole(pts, reb, ast) == role
  {
    var chosen := ClassifyRole(pts, reb, ast);
    assert !(Precedence(chosen) < Precedence(role));
    assert !(Precedence(role) < Precedence(chosen));
  }

  /** Twenty points or more always make a Star / All-Around or a Primary
      Scorer, and only such a player is one. */
  lemma ScorerRoles(pts: real, reb: real, ast: real)
    ensures ClassifyRole(pts, reb, ast) in {StarAllAround, PrimaryScorer} <==> pts >= 20.0
  {
    var role := ClassifyRole(pts, reb, ast);
    if pts >= 20.0 {
      assert RoleRule(PrimaryScorer, pts, reb, ast);
      assert Precedence(role) <= 1;
    }
  }

  // ── Player metrics ──────────────────────────────────────────────────────

  /** Twice the shooting possessions: field-goal attempts plus 0.44 per free
      throw attempted. */
  function TsDenominator(x: BasketballInput): real {
    2.0 * (x.fieldGoalsAttempted + 0.44 * x.freeThrowsAttempted)
  }

  /** Weighted box-score contributions minus weighted turnovers. */
  function EfficiencyNet(x: BasketballInput): real {
    var positive := x.points + x.rebounds * 1.2 + x.assists * 1.5 + x.steals * 2.0 + x.blocks * 2.0;
    var negative := x.turnovers * 1.5;
    positive - negative
  }

  /** Attempts plus turnovers, the possessions the player used. */
  function PossessionsUsed(x: BasketballInput): real {
    x.fieldGoalsAttempted + 0.44 * x.freeThrowsAttempted + x.turnovers
  }

  /** The player handler: every rate divides by the minutes unguarded; true
      shooting is 0.0 when its denominator is not positive. */
  function AnalyzeBasketballPlayer(x: BasketballInput): (r: Result<BasketballOutput, Failure>)
    ensures r.Err? <==> x.minutesPlayed == 0.0
    ensures r.Err? ==> r.error == ZeroDivision
    ensures r.Ok? ==>
      var out := r.value;
      && out.playerName == x.playerName
      && out.roleClassification == ClassifyRole(x.points, x.rebounds, x.assists)
      && IsCents(out.pointsPer36) && IsCents(out.trueShootingPercentage)
      && IsCents(out.playerEfficiencyRating) && IsCents(out.usageProxy)
      && (x.points / x.minutesPlayed) * 36.0 - 0.005 <= out.pointsPer36
      && out.pointsPer36 <= (x.points / x.minutesPlayed) * 36.0 + 0.005
      && (EfficiencyNet(x) / x.minutesPlayed) * 36.0 - 0.005 <= out.playerEfficiencyRating
      && out.playerEfficiencyRating <= (EfficiencyNet(x) / x.minutesPlayed) * 36.0 + 0.005
      && (PossessionsUsed(x) / x.minutesPlayed) * 36.0 - 0.005 <= out.usageProxy
      && out.usageProxy <= (PossessionsUsed(x) / x.minutesPlayed) * 36.0 + 0.005
      && (TsDenominator(x) <= 0.0 ==> out.trueShootingPercentage == 0.0)
      && (TsDenominator(x) > 0.0 ==>
            && (x.points / TsDenominator(x)) * 100.0 - 0.005 <= out.trueShootingPercentage
            && out.trueShootingPercentage <= (x.points / TsDenominator(x)) * 100.0 + 0.005)
  {
    if x.minutesPlayed == 0.0 then Err(ZeroDivision)
    else
      var ptsPer36 := Round2((x.points / x.minutesPlayed) * 36.0);
      var tsDenominator := TsDenominator(x);
      var tsPct := if tsDenominator > 0.0 then Round2((x.points / tsDenominator) * 100.0) else 0.0;
      var per := Round2((EfficiencyNet(x) / x.minutesPlayed) * 36.0);
      var usage := Round2((PossessionsUsed(x) / x.minutesPlayed) * 36.0);
      var role := ClassifyRole(x.points, x.rebounds, x.assists);
      Ok(BasketballOutput(x.playerName, ptsPer36, tsPct, per, usage, role))
  }

  /** On a record that passed validation no division fails, the true-shooting
      denominator is positive (so its 0.0 fallback is never used), and the
      scoring, shooting and usage rates are non-negative. */
  lemma ValidBasketballAnalysed(x: BasketballInput)
    requires BasketballInvariant(x)
    ensures AnalyzeBasketballPlayer(x).Ok?
    ensures TsDenominator(x) > 0.0
    ensures var out := AnalyzeBasketballPlayer(x).value;
      && out.trueShootingPercentage == Round2((x.points / TsDenominator(x)) * 100.0)
      && 0.0 <= out.pointsPer36
      && 0.0 <= out.trueShootingPercentage
      && 0.0 <= out.usageProxy
  {
    assert 0.0 <= x.points / x.minutesPlayed;
    assert 0.0 <= x.points / TsDenominator(x);
    assert 0.0 <= PossessionsUsed(x) / x.minutesPlayed;
  }

  // ── Comparison ──────────────────────────────────────────────────────────

  const DefaultName1 := "Player 1"
  const DefaultName2 := "Player 2"
  const EdgeKey := "edge"

  /** One entry of the comparison response: a player's score, or the name of
      the player with the edge. */
  datatype CompareEntry = Score(compositeScore: real) | Edge(winner: string)

  /** Points count fully, rebounds 0.8 and assists 0.7, rounded to cents. */
  function CompositeScore(pts: real, reb: real, ast: real): (s: real)
    ensures IsCents(s)
    ensures pts + reb * 0.8 + ast * 0.7 - 0.005 <= s <= pts + reb * 0.8 + ast * 0.7 + 0.005
  {
    Round2(pts * 1.0 + reb * 0.8 + ast * 0.7)
  }

  /** The comparison response, keyed by player name: the first player wins
      ties. The response is a dictionary built in order, so a second name
      equal to the first, or a name equal to "edge", overwrites that key. */
  function ComparePlayers(
    player1Pts: real, player1Reb: real, player1Ast: real,
    player2Pts: real, player2Reb: real, player2Ast: real,
    player1Name: string, player2Name: string): (r: map<string, CompareEntry>)
    ensures var s1, s2 := CompositeScore(player1Pts, player1Reb, player1Ast), CompositeScore(player2Pts, player2Reb, player2Ast);
      && EdgeKey in r
      && (s1 >= s2 ==> r[EdgeKey] == Edge(player1Name))
      && (s1 < s2 ==> r[EdgeKey] == Edge(player2Name))
      && (player2Name != EdgeKey ==> player2Name in r && r[player2Name] == Score(s2))
      && (player1Name != player2Name && player1Name != EdgeKey ==> player1Name in r && r[player1Name] == Score(s1))
      && r.Keys == {player1Name, player2Name, EdgeKey}
  {
    var score1 := CompositeScore(player1Pts, player1Reb, player1Ast);
    var score2 := CompositeScore(player2Pts, player2Reb, player2Ast);
    var winner := if score1 >= score2 then player1Name else player2Name;
    map[player1Name := Score(score1)][player2Name := Score(score2)][EdgeKey := Edge(winner)]
  }

  /** Listing the players the other way round names the same winner unless
      the two scores are equal, in which case whoever is listed first wins. */
  lemma CompareOrderMatters(
    pts1: real, reb1: real, ast1: real, pts2: real, reb2: real, ast2: real,
    name1: string, name2: string)
    ensures var forward := ComparePlayers(pts1, reb1, ast1, pts2, reb2, ast2, name1, name2)[EdgeKey];
            var backward := ComparePlayers(pts2, reb2, ast2, pts1, reb1, ast1, name2, name1)[EdgeKey];
      && (CompositeScore(pts1, reb1, ast1) != CompositeScore(pts2, reb2, ast2) ==> forward == backward)
      && (CompositeScore(pts1, reb1, ast1) == CompositeScore(pts2, reb2, ast2) ==>
            forward == Edge(name1) && backward == Edge(name2))
  {
  }
}
