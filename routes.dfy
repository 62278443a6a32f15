/** What each calculator request yields: its record is validated first, and
    only a record that passes reaches the handler's formulas. */
module Routes {
  import opened Wrappers
  import opened Models
  import opened Cricket
  import opened Basketball

  /** A batter request succeeds exactly on a well-formed record; the only
      failure it can report is a validation failure, so the handler's
      "Dismissals cannot be zero." refusal is never seen. */
  function PostBatter(x: BatterInput): (r: Result<BatterOutput, Failure>)
    ensures r.Ok? <==> BatterInvariant(x)
    ensures r.Err? ==> r.error.Invalid? && r.error.errors != []
    ensures 1 <= x.inningsPlayed <= x.timesNotOut ==> r.Err? && NotOutsError in r.error.errors
    ensures r.Ok? ==> r == AnalyzeBatter(x)
  {
    BatterErrorsExact(x);
    match ValidateBatter(x)
    case Err(errs) => Err(Invalid(errs))
    case Ok(valid) =>
      ValidBatterAnalysed(valid);
      AnalyzeBatter(valid)
  }

  /** A bowler request fails either validation or, for a well-formed record
      whose overs are 0.05 or less, on the division by zero overs. */
  function PostBowler(x: BowlerInput): (r: Result<BowlerOutput, Failure>)
    ensures r.Ok? <==> BowlerInvariant(x) && x.oversBowled > 0.05
    ensures r.Err? ==> r.error.Invalid? || r.error == ZeroDivision
    ensures r == Err(ZeroDivision) <==> BowlerInvariant(x) && x.oversBowled <= 0.05
    ensures r.Ok? ==> r == AnalyzeBowler(x)
  {
    match ValidateBowler(x)
    case Err(errs) => Err(Invalid(errs))
    case Ok(valid) =>
      ValidBowlerAnalysed(valid);
      AnalyzeBowler(valid)
  }

  /** A basketball request succeeds exactly on a well-formed record. */
  function PostBasketballPlayer(x: BasketballInput): (r: Result<BasketballOutput, Failure>)
    ensures r.Ok? <==> BasketballInvariant(x)
    ensures r.Err? ==> r.error.Invalid? && r.error.errors != []
    ensures r.Ok? ==> r == AnalyzeBasketballPlayer(x)
  {
    match ValidateBasketball(x)
    case Err(errs) => Err(Invalid(errs))
    case Ok(valid) =>
      ValidBasketballAnalysed(valid);
      AnalyzeBasketballPlayer(valid)
  }
}
