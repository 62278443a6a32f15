/** The request and response records of the sports-statistics calculator and
    the field constraints its request records declare.

    The service checks every field of a request record against its bound and
    collects one error per offending field, in the order the fields are
    declared; only a record with no error reaches the formulas. */
module Models {
  import opened Wrappers

  // ── Errors ──────────────────────────────────────────────────────────────

  /** A per-field bound: at least `bound`, or strictly above `bound`. */
  datatype Constraint = Ge(bound: real) | Gt(bound: real)

  datatype Problem =
    | Violated(constraint: Constraint)
    | NotLessThan(other: string)   // the cricket cross-field rule

  datatype FieldError = FieldError(field: string, problem: Problem)

  /** How a request can fail: rejected by validation, refused by a formula
      whose input makes it undefined, or an unguarded division by zero. */
  datatype Failure =
    | Invalid(errors: seq<FieldError>)
    | Domain(detail: string)
    | ZeroDivision

  function ErrorsOf<T>(r: Result<T, seq<FieldError>>): seq<FieldError> {
    if r.Err? then r.error else []
  }

  // ── Field checks ────────────────────────────────────────────────────────

  /** One declared field constraint applied to the value a request carries. */
  datatype FieldCheck = FieldCheck(field: string, value: real, constraint: Constraint)

  predicate Holds(c: Constraint, v: real) {
    match c
    case Ge(b) => v >= b
    case Gt(b) => v > b
  }

  predicate Passes(c: FieldCheck) {
    Holds(c.constraint, c.value)
  }

  function ErrorFor(c: FieldCheck): FieldError {
    FieldError(c.field, Violated(c.constraint))
  }

  /** The errors of a run of field checks, one per failing check, in order. */
  function Failing(checks: seq<FieldCheck>): (errs: seq<FieldError>)
    ensures |errs| <= |checks|
    ensures errs == [] <==> forall i :: 0 <= i < |checks| ==> Passes(checks[i])
    ensures forall i :: 0 <= i < |checks| && !Passes(checks[i]) ==> ErrorFor(checks[i]) in errs
    ensures forall e :: e in errs ==> e.problem.Violated?
  {
    if checks == [] then []
    else
      var c := checks[0];
      var here := if Passes(c) then [] else [ErrorFor(c)];
      var rest := Failing(checks[1..]);
      assert forall i :: 1 <= i < |checks| ==> checks[i] == checks[1..][i - 1];
      here + rest
  }

  /** Every reported error is the error of a check that failed. */
  lemma {:induction false} FailingSound(checks: seq<FieldCheck>)
    ensures forall k :: 0 <= k < |Failing(checks)| ==>
      exists i :: 0 <= i < |checks| && !Passes(checks[i]) && Failing(checks)[k] == ErrorFor(checks[i])
  {
    if checks != [] {
      var c := checks[0];
      var here := if Passes(c) then [] else [ErrorFor(c)];
      var rest := Failing(checks[1..]);
      FailingSound(checks[1..]);
      assert Failing(checks) == here + rest;
      forall k | 0 <= k < |Failing(checks)|
        ensures exists i :: 0 <= i < |checks| && !Passes(checks[i]) && Failing(checks)[k] == ErrorFor(checks[i])
      {
        if k < |here| {
          assert Failing(checks)[k] == ErrorFor(checks[0]);
        } else {
          var i :| 0 <= i < |checks[1..]| && !Passes(checks[1..][i]) && rest[k - |here|] == ErrorFor(checks[1..][i]);
          assert checks[i + 1] == checks[1..][i];
          assert Failing(checks)[k] == ErrorFor(checks[i + 1]);
        }
      }
    } else {
      assert Failing(checks) == [];
    }
  }

  /** The errors of consecutive runs of checks are the errors of the first
      run followed by those of the second: checks are reported one by one,
      in declaration order. */
  lemma {:induction false} FailingConcat(a: seq<FieldCheck>, b: seq<FieldCheck>)
    ensures Failing(a + b) == Failing(a) + Failing(b)
  {
    if a == [] {
      assert a + b == b;
    } else {
      assert (a + b)[0] == a[0];
      assert (a + b)[1..] == a[1..] + b;
      FailingConcat(a[1..], b);
    }
  }

  /** Of two failing checks, the one declared first is reported first. */
  lemma FailingInOrder(checks: seq<FieldCheck>, i: nat, j: nat)
    requires i < j < |checks|
    requires !Passes(checks[i]) && !Passes(checks[j])
    ensures exists k1, k2 ::
      && 0 <= k1 < k2 < |Failing(checks)|
      && Failing(checks)[k1] == ErrorFor(checks[i])
      && Failing(checks)[k2] == ErrorFor(checks[j])
  {
    var front, back := checks[..j], checks[j..];
    assert front + back == checks;
    FailingConcat(front, back);
    assert front[i] == checks[i];
    var k1 :| 0 <= k1 < |Failing(front)| && Failing(front)[k1] == ErrorFor(checks[i]);
    assert back[0] == checks[j];
    assert Failing(back)[0] == ErrorFor(checks[j]);
    var k2 := |Failing(front)|;
    assert Failing(checks)[k1] == ErrorFor(checks[i]);
    assert Failing(checks)[k2] == ErrorFor(checks[j]);
  }

  /** Checks on pairwise distinct fields. */
  predicate DistinctFields(checks: seq<FieldCheck>) {
    forall i, j :: 0 <= i < j < |checks| ==> checks[i].field != checks[j].field
  }

  /** When no two checks name the same field, a field is reported exactly
      when its own check fails. */
  lemma FailingExact(checks: seq<FieldCheck>)
    requires DistinctFields(checks)
    ensures forall i :: 0 <= i < |checks| ==> (ErrorFor(checks[i]) in Failing(checks) <==> !Passes(checks[i]))
  {
    forall i | 0 <= i < |checks|
      ensures ErrorFor(checks[i]) in Failing(checks) <==> !Passes(checks[i])
    {
      forall j | 0 <= j < |checks| && j != i
        ensures checks[j].field != checks[i].field
      {
        if j < i {
          assert checks[j].field != checks[i].field;
        } else {
          assert checks[i].field != checks[j].field;
        }
      }
      FailingReportsOnlyFailures(checks, i);
    }
  }

  /** A check whose field no other check names is reported exactly when it
      fails. */
  lemma {:induction false} FailingReportsOnlyFailures(checks: seq<FieldCheck>, i: nat)
    requires i < |checks|
    requires forall j :: 0 <= j < |checks| && j != i ==> checks[j].field != checks[i].field
    ensures ErrorFor(checks[i]) in Failing(checks) <==> !Passes(checks[i])
  {
    var c := checks[0];
    var rest := Failing(checks[1..]);
    assert Failing(checks) == (if Passes(c) then [] else [ErrorFor(c)]) + rest;
    if i == 0 {
      if Passes(c) {
        if ErrorFor(c) in rest {
          // every error in `rest` comes from a later check, and none of those names this field
          RestNeverNames(checks[1..], c.field);
          assert false;
        }
      }
    } else {
      forall j | 0 <= j < |checks[1..]| && j != i - 1
        ensures checks[1..][j].field != checks[1..][i - 1].field
      {
        assert checks[1..][j] == checks[j + 1];
      }
      FailingReportsOnlyFailures(checks[1..], i - 1);
      assert checks[1..][i - 1] == checks[i];
      assert c.field != checks[i].field;
    }
  }

  /** A field that no check names is never reported. */
  lemma {:induction false} RestNeverNames(checks: seq<FieldCheck>, field: string)
    requires forall j :: 0 <= j < |checks| ==> checks[j].field != field
    ensures forall e :: e in Failing(checks) ==> e.field != field
  {
    if checks != [] {
      forall j | 0 <= j < |checks[1..]| ensures checks[1..][j].field != field {
        assert checks[1..][j] == checks[j + 1];
      }
      RestNeverNames(checks[1..], field);
    }
  }

  // ── Cricket batter ──────────────────────────────────────────────────────

  datatype BatterInput = BatterInput(
    playerName: string,
    runsScored: int,
    ballsFaced: int,
    inningsPlayed: int,
    timesNotOut: int,
    fours: int,
    sixes: int)

  datatype Tier = Elite | Quality | Developing | Struggling {
    function Label(): string {
      match this
      case Elite => "Elite"
      case Quality => "Quality"
      case Developing => "Developing"
      case Struggling => "Struggling"
    }
  }

  datatype BatterOutput = BatterOutput(
    playerName: string,
    battingAverage: real,
    strikeRate: real,
    boundaryPercentage: real,
    impactScore: real,
    performanceTier: Tier)

  /** What a well-formed batter record satisfies. */
  predicate BatterInvariant(x: BatterInput) {
    && x.runsScored >= 0
    && x.ballsFaced >= 1
    && x.inningsPlayed >= 1
    && 0 <= x.timesNotOut < x.inningsPlayed
    && x.fours >= 0
    && x.sixes >= 0
  }

  function BatterChecksBefore(x: BatterInput): seq<FieldCheck> {
    [ FieldCheck("runs_scored", x.runsScored as real, Ge(0.0)),
      FieldCheck("balls_faced", x.ballsFaced as real, Ge(1.0)),
      FieldCheck("innings_played", x.inningsPlayed as real, Ge(1.0)) ]
  }

  function BatterChecksAfter(x: BatterInput): seq<FieldCheck> {
    [ FieldCheck("fours", x.fours as real, Ge(0.0)),
      FieldCheck("sixes", x.sixes as real, Ge(0.0)) ]
  }

  const NotOutsError := FieldError("times_not_out", NotLessThan("innings_played"))

  /** The errors of `times_not_out`: its own bound first; the comparison with
      `innings_played` runs only once both fields have passed their bounds. */
  function NotOutErrors(x: BatterInput): (errs: seq<FieldError>)
    ensures errs == [] <==> x.timesNotOut >= 0 && (x.inningsPlayed < 1 || x.timesNotOut < x.inningsPlayed)
    ensures NotOutsError in errs <==> 1 <= x.inningsPlayed <= x.timesNotOut
  {
    if x.timesNotOut < 0 then [FieldError("times_not_out", Violated(Ge(0.0)))]
    else if x.inningsPlayed >= 1 && x.timesNotOut >= x.inningsPlayed then [NotOutsError]
    else []
  }

  function ValidateBatter(x: BatterInput): (r: Result<BatterInput, seq<FieldError>>)
    ensures r.Ok? <==> BatterInvariant(x)
    ensures r.Ok? ==> r.value == x
    ensures r.Err? ==> r.error != []
  {
    var before, after := BatterChecksBefore(x), BatterChecksAfter(x);
    assert (forall i :: 0 <= i < |before| ==> Passes(before[i])) <==>
      Passes(before[0]) && Passes(before[1]) && Passes(before[2]);
    assert (forall i :: 0 <= i < |after| ==> Passes(after[i])) <==> Passes(after[0]) && Passes(after[1]);
    var errs := BatterErrors(x);
    if errs == [] then Ok(x) else Err(errs)
  }

  /** The bounds checked before `times_not_out`, that field's own errors, and
      the bounds checked after it, in declaration order. */
  function BatterErrors(x: BatterInput): seq<FieldError> {
    Failing(BatterChecksBefore(x)) + NotOutErrors(x) + Failing(BatterChecksAfter(x))
  }

  /** Every batter field that breaks its rule is reported, and only those;
      in particular `times_not_out >= innings_played` is always rejected
      once `innings_played` itself is in range. */
  lemma BatterErrorsExact(x: BatterInput)
    ensures var errs := ErrorsOf(ValidateBatter(x));
      && (FieldError("runs_scored", Violated(Ge(0.0))) in errs <==> x.runsScored < 0)
      && (FieldError("balls_faced", Violated(Ge(1.0))) in errs <==> x.ballsFaced < 1)
      && (FieldError("innings_played", Violated(Ge(1.0))) in errs <==> x.inningsPlayed < 1)
      && (FieldError("times_not_out", Violated(Ge(0.0))) in errs <==> x.timesNotOut < 0)
      && (NotOutsError in errs <==> 1 <= x.inningsPlayed <= x.timesNotOut)
      && (FieldError("fours", Violated(Ge(0.0))) in errs <==> x.fours < 0)
      && (FieldError("sixes", Violated(Ge(0.0))) in errs <==> x.sixes < 0)
  {
    assert ErrorsOf(ValidateBatter(x)) == BatterErrors(x);
    BeforeCheckReported(x, 0);
    BeforeCheckReported(x, 1);
    BeforeCheckReported(x, 2);
    AfterCheckReported(x, 0);
    AfterCheckReported(x, 1);
    NotOutReported(x, FieldError("times_not_out", Violated(Ge(0.0))));
    NotOutReported(x, NotOutsError);
  }

  lemma BeforeCheckReported(x: BatterInput, i: nat)
    requires i < 3
    ensures ErrorFor(BatterChecksBefore(x)[i]) in BatterErrors(x) <==> !Passes(BatterChecksBefore(x)[i])
  {
    var before, after := BatterChecksBefore(x), BatterChecksAfter(x);
    var e := ErrorFor(before[i]);
    assert e !in NotOutErrors(x);
    assert e in Failing(before) <==> !Passes(before[i]) by {
      FailingReportsOnlyFailures(before, i);
    }
    assert e !in Failing(after) by {
      assert forall j :: 0 <= j < |after| ==> after[j].field != e.field;
      RestNeverNames(after, e.field);
    }
  }

  lemma AfterCheckReported(x: BatterInput, i: nat)
    requires i < 2
    ensures ErrorFor(BatterChecksAfter(x)[i]) in BatterErrors(x) <==> !Passes(BatterChecksAfter(x)[i])
  {
    var before, after := BatterChecksBefore(x), BatterChecksAfter(x);
    var e := ErrorFor(after[i]);
    assert e !in NotOutErrors(x);
    assert e in Failing(after) <==> !Passes(after[i]) by {
      FailingReportsOnlyFailures(after, i);
    }
    assert e !in Failing(before) by {
      assert forall j :: 0 <= j < |before| ==> before[j].field != e.field;
      RestNeverNames(before, e.field);
    }
  }

  lemma NotOutReported(x: BatterInput, e: FieldError)
    requires e.field == "times_not_out"
    ensures e in BatterErrors(x) <==> e in NotOutErrors(x)
  {
    var before, after := BatterChecksBefore(x), BatterChecksAfter(x);
    assert e !in Failing(before) by {
      RestNeverNames(before, "times_not_out");
    }
    assert e !in Failing(after) by {
      RestNeverNames(after, "times_not_out");
    }
  }

  // ── Cricket bowler ──────────────────────────────────────────────────────

  /** `oversBowled` is in cricket notation: whole overs, then balls as tenths. */
  datatype BowlerInput = BowlerInput(
    playerName: string,
    oversBowled: real,
    runsConceded: int,
    wicketsTaken: int,
    maidens: int)

  datatype WicketImpact = MatchWinner | UsefulContributor | Wicketless {
    function Label(): string {
      match this
      case MatchWinner => "Match-winner"
      case UsefulContributor => "Useful contributor"
      case Wicketless => "Wicketless"
    }
  }

  datatype BowlerOutput = BowlerOutput(
    playerName: string,
    economyRate: real,
    bowlingAverage: Option<real>,
    bowlingStrikeRate: Option<real>,
    wicketImpact: WicketImpact)

  predicate BowlerInvariant(x: BowlerInput) {
    && x.oversBowled > 0.0
    && x.runsConceded >= 0
    && x.wicketsTaken >= 0
    && x.maidens >= 0
  }

  function BowlerChecks(x: BowlerInput): seq<FieldCheck> {
    [ FieldCheck("overs_bowled", x.oversBowled, Gt(0.0)),
      FieldCheck("runs_conceded", x.runsConceded as real, Ge(0.0)),
      FieldCheck("wickets_taken", x.wicketsTaken as real, Ge(0.0)),
      FieldCheck("maidens", x.maidens as real, Ge(0.0)) ]
  }

  /** Only the four bounds are checked: nothing rejects a tenths digit of 6
      to 9 or an overs value too small to hold one ball. */
  function ValidateBowler(x: BowlerInput): (r: Result<BowlerInput, seq<FieldError>>)
    ensures r.Ok? <==> BowlerInvariant(x)
    ensures r.Ok? ==> r.value == x
    ensures r.Err? ==> r.error != []
    ensures x.oversBowled <= 0.0 ==> FieldError("overs_bowled", Violated(Gt(0.0))) in ErrorsOf(r)
    ensures x.wicketsTaken < 0 ==> FieldError("wickets_taken", Violated(Ge(0.0))) in ErrorsOf(r)
    ensures forall i :: 0 <= i < |BowlerChecks(x)| ==>
      (ErrorFor(BowlerChecks(x)[i]) in ErrorsOf(r) <==> !Passes(BowlerChecks(x)[i]))
  {
    var checks := BowlerChecks(x);
    assert (forall i :: 0 <= i < |checks| ==> Passes(checks[i])) <==>
      Passes(checks[0]) && Passes(checks[1]) && Passes(checks[2]) && Passes(checks[3]);
    var errs := Failing(checks);
    BowlerFieldsDistinct(x);
    FailingExact(checks);
    assert !Passes(checks[0]) ==> ErrorFor(checks[0]) in errs;
    assert !Passes(checks[2]) ==> ErrorFor(checks[2]) in errs;
    if errs == [] then Ok(x) else Err(errs)
  }

  lemma BowlerFieldsDistinct(x: BowlerInput)
    ensures DistinctFields(BowlerChecks(x))
  {
    var checks := BowlerChecks(x);
    forall i, j | 0 <= i < j < |checks| ensures checks[i].field != checks[j].field {
      if i == 0 {} else if i == 1 {} else {}
    }
  }

  // ── Basketball player ───────────────────────────────────────────────────

  /** Per-game averages, so every statistic is a real number. */
  datatype BasketballInput = BasketballInput(
    playerName: string,
    points: real,
    rebounds: real,
    assists: real,
    steals: real,
    blocks: real,
    turnovers: real,
    minutesPlayed: real,
    fieldGoalsMade: real,
    fieldGoalsAttempted: real,
    freeThrowsMade: real,
    freeThrowsAttempted: real,
    threePointersMade: real)

  datatype Role =
    | StarAllAround
    | PrimaryScorer
    | Playmaker
    | RebounderAnchor
    | RotationContributor
    | RolePlayer
  {
    function Label(): string {
      match this
      case StarAllAround => "Star / All-Around"
      case PrimaryScorer => "Primary Scorer"
      case Playmaker => "Playmaker"
      case RebounderAnchor => "Rebounder / Anchor"
      case RotationContributor => "Rotation Contributor"
      case RolePlayer => "Role Player"
    }
  }

  datatype BasketballOutput = BasketballOutput(
    playerName: string,
    pointsPer36: real,
    trueShootingPercentage: real,
    playerEfficiencyRating: real,
    usageProxy: real,
    roleClassification: Role)

  predicate BasketballInvariant(x: BasketballInput) {
    && x.points >= 0.0
    && x.rebounds >= 0.0
    && x.assists >= 0.0
    && x.steals >= 0.0
    && x.blocks >= 0.0
    && x.turnovers >= 0.0
    && x.minutesPlayed > 0.0
    && x.fieldGoalsMade >= 0.0
    && x.fieldGoalsAttempted > 0.0
    && x.freeThrowsMade >= 0.0
    && x.freeThrowsAttempted >= 0.0
    && x.threePointersMade >= 0.0
  }

  function BasketballChecks(x: BasketballInput): seq<FieldCheck> {
    [ FieldCheck("points", x.points, Ge(0.0)),
      FieldCheck("rebounds", x.rebounds, Ge(0.0)),
      FieldCheck("assists", x.assists, Ge(0.0)),
      FieldCheck("steals", x.steals, Ge(0.0)),
      FieldCheck("blocks", x.blocks, Ge(0.0)),
      FieldCheck("turnovers", x.turnovers, Ge(0.0)),
      FieldCheck("minutes_played", x.minutesPlayed, Gt(0.0)),
      FieldCheck("field_goals_made", x.fieldGoalsMade, Ge(0.0)),
      FieldCheck("field_goals_attempted", x.fieldGoalsAttempted, Gt(0.0)),
      FieldCheck("free_throws_made", x.freeThrowsMade, Ge(0.0)),
      FieldCheck("free_throws_attempted", x.freeThrowsAttempted, Ge(0.0)),
      FieldCheck("three_pointers_made", x.threePointersMade, Ge(0.0)) ]
  }

  function ValidateBasketball(x: BasketballInput): (r: Result<BasketballInput, seq<FieldError>>)
    ensures r.Ok? <==> BasketballInvariant(x)
    ensures r.Ok? ==> r.value == x
    ensures r.Err? ==> r.error != []
    ensures x.minutesPlayed <= 0.0 ==> FieldError("minutes_played", Violated(Gt(0.0))) in ErrorsOf(r)
    ensures x.fieldGoalsAttempted <= 0.0 ==> FieldError("field_goals_attempted", Violated(Gt(0.0))) in ErrorsOf(r)
    ensures forall i :: 0 <= i < |BasketballChecks(x)| ==>
      (ErrorFor(BasketballChecks(x)[i]) in ErrorsOf(r) <==> !Passes(BasketballChecks(x)[i]))
  {
    var checks := BasketballChecks(x);
    BasketballChecksPass(x);
    var errs := Failing(checks);
    BasketballFieldsDistinct(x);
    FailingExact(checks);
    assert !Passes(checks[6]) ==> ErrorFor(checks[6]) in errs;
    assert !Passes(checks[8]) ==> ErrorFor(checks[8]) in errs;
    if errs == [] then Ok(x) else Err(errs)
  }

  /** The twelve declared bounds all hold exactly on a well-formed record. */
  lemma BasketballChecksPass(x: BasketballInput)
    ensures (forall i :: 0 <= i < |BasketballChecks(x)| ==> Passes(BasketballChecks(x)[i])) <==> BasketballInvariant(x)
  {
    var checks := BasketballChecks(x);
    if BasketballInvariant(x) {
      forall i | 0 <= i < |checks| ensures Passes(checks[i]) {
      }
    }
    if forall i :: 0 <= i < |checks| ==> Passes(checks[i]) {
      assert Passes(checks[0]) && Passes(checks[1]) && Passes(checks[2]) && Passes(checks[3]);
      assert Passes(checks[4]) && Passes(checks[5]) && Passes(checks[6]) && Passes(checks[7]);
      assert Passes(checks[8]) && Passes(checks[9]) && Passes(checks[10]) && Passes(checks[11]);
    }
  }

  lemma BasketballFieldsDistinct(x: BasketballInput)
    ensures DistinctFields(BasketballChecks(x))
  {
    var checks := BasketballChecks(x);
    forall i, j | 0 <= i < j < |checks| ensures checks[i].field != checks[j].field {
      if i == 0 {} else if i == 1 {} else if i == 2 {} else if i == 3 {} else if i == 4 {} else if i == 5 {}
      else if i == 6 {} else if i == 7 {} else if i == 8 {} else if i == 9 {} else {}
    }
  }
}
