# Sports Stats calculator — a Dafny model

This project models the sports-statistics calculator of the Sports Stats API
(`app/main.py`). It covers the validation of cricket batter, cricket bowler and
basketball player requests, the batter metrics with the performance tier, the
bowler metrics computed from overs in cricket notation, the basketball rates
with the role classification, and the two-player basketball comparison.

Everything in the calculator is pure arithmetic and threshold classification,
so the model is functional: datatypes for the request and response records,
functions for the validators and handlers, and lemmas for what they guarantee.

- `wrappers.dfy` (`Wrappers`): `Option` for the bowling average and strike
  rate, which are absent without a wicket, and `Result` for the outcomes.
- `py_numeric.dfy` (`PyNumeric`): Python's `int()` on a float (`Trunc`) and
  `round()` (`RoundHalfEven`, `Round2` for two places), over exact reals.
- `models.dfy` (`Models`): request and response records, the per-field bounds
  as data (`FieldCheck`), the validators, and the `Failure` outcomes:
  `Invalid` (rejected by validation, HTTP 422), `Domain` (the handler's own
  refusal, HTTP 400) and `ZeroDivision` (an uncaught division by zero, which
  the service turns into a server error).
- `cricket.dfy` (`Cricket`): `PerformanceTier`, `AnalyzeBatter`,
  `BallsFromOvers`, `WicketImpactOf`, `AnalyzeBowler`.
- `basketball.dfy` (`Basketball`): `ClassifyRole`, `AnalyzeBasketballPlayer`,
  `CompositeScore`, `ComparePlayers`.
- `routes.dfy` (`Routes`): each POST request as "validate, then run the
  handler".
- `scenarios.dfy` (`Scenarios`): concrete requests from the repository's tests,
  and two that show the overs-notation gaps.

Behaviour of the code that the model keeps, and that a reader might not expect:

- The validator reports every offending field, in declaration order. The
  `times_not_out < innings_played` rule is checked only when `times_not_out`
  passed its own bound and `innings_played` passed its bound. So
  `innings_played = 0, times_not_out = 5` reports only `innings_played`. A
  plain reading of the cross-field rule would report both; the model follows
  the code.
- The handlers are modelled on any record, not only on validated ones. That
  makes the zero-dismissals refusal reachable in `AnalyzeBatter`, and
  `Routes.PostBatter` proves that it never surfaces after validation.
- Only the bowler's four bounds are validated. A tenths digit of 6 to 9 is
  accepted (8.7 overs counts as 55 balls, like 9.1). An overs value in
  (0, 0.05] passes validation, counts as zero balls, and the economy rate then
  divides by zero. `Routes.PostBowler` states exactly when that happens.
- The comparison response is a dictionary built key by key. If both names are
  equal, or a name is `"edge"`, a later key overwrites an earlier one.

## Model

| member | source | states |
|---|---|---|
| `PyNumeric.Trunc` | app/main.py:135 | `int(overs)` is the integer part, found by truncating toward zero: it is within 1 of the value, on the side of zero |
| `PyNumeric.RoundHalfEven` | app/main.py:136 | `round(x)` is an integer within 0.5 of `x`; when `x` is exactly between two integers, the result is the even one |
| `PyNumeric.Round2` | app/main.py:118-119 | `round(x, 2)` is within 0.005 of `x`, has at most two decimals, and is non-negative for non-negative `x` |
| `PyNumeric.Round2Monotone` | app/main.py:118-123 | rounding to two places never reverses the order of two values |
| `PyNumeric.Round2OfCents` | app/main.py:118-123 | a value that already has two decimals is left unchanged by `round(x, 2)` |
| `Models.Failing` | app/main.py:15-20 | there are no more field errors than bounds; there are none exactly when every bound holds; every failing bound is reported, always as a bound violation |
| `Models.FailingSound` | app/main.py:15-20 | every reported error is the error of a bound that failed, so a bound that holds is never blamed |
| `Models.FailingConcat` | app/main.py:15-20 | the errors of consecutive fields are the errors of the earlier fields followed by those of the later ones, so each field contributes its own error in declaration order |
| `Models.FailingInOrder` | app/main.py:15-20 | of two failing fields, the one declared first is reported first |
| `Models.FailingExact` | app/main.py:15-20 | when no two fields share a name, a field is reported if and only if its own bound fails |
| `Models.FailingReportsOnlyFailures` | app/main.py:15-20 | a field whose name no other field shares is reported exactly when its bound fails |
| `Models.NotOutErrors` | app/main.py:18-27 | `times_not_out` fails either its `ge=0` bound or, once `innings_played` is valid, the rule `times_not_out < innings_played`; the cross-field error appears exactly when `1 <= innings_played <= times_not_out` |
| `Models.ValidateBatter` | app/main.py:13-27 | a batter record is accepted, unchanged, exactly when runs >= 0, balls >= 1, innings >= 1, 0 <= not-outs < innings, fours >= 0 and sixes >= 0; a rejection carries at least one error |
| `Models.BatterErrorsExact` | app/main.py:15-27 | each batter field error is reported if and only if that field breaks its rule, so `times_not_out >= innings_played` is always rejected when innings are valid |
| `Models.ValidateBowler` | app/main.py:37-42 | a bowler record is accepted, unchanged, exactly when overs > 0 and runs, wickets and maidens >= 0; each of the four fields is reported if and only if it breaks its bound |
| `Models.ValidateBasketball` | app/main.py:53-66 | a basketball record is accepted, unchanged, exactly when every statistic is >= 0 and minutes and field-goal attempts are > 0; each of the twelve fields is reported if and only if it breaks its bound |
| `Cricket.TierScore` | app/main.py:79 | the tier score weighs the average 0.6 and the strike rate 0.04, and is non-negative for non-negative inputs |
| `Cricket.PerformanceTier` | app/main.py:78-87 | the tier is the highest one whose inclusive threshold (20, 35, 50) the score `avg*0.6 + sr*0.04` reaches, with Struggling below all three |
| `Cricket.TierMonotone` | app/main.py:78-87 | a higher tier score never yields a lower tier |
| `Cricket.Dismissals` | app/main.py:115 | a record with 0 <= not-outs < innings has between 1 and innings dismissals; there are none exactly when every innings was not out |
| `Cricket.BoundaryPercentage` | app/main.py:120-121 | the boundary percentage is 0.0 when no runs were scored, so it never divides by zero; otherwise it is within 0.005 of the share of the runs hit as fours and sixes, in percent. It always has two decimals and is non-negative for valid counts |
| `Cricket.AnalyzeBatter` | app/main.py:114-131 | no dismissals gives the "Dismissals cannot be zero." refusal; otherwise it fails only on zero balls faced. On success, average and strike rate are within 0.005 of runs per dismissal and runs per 100 balls, the boundary percentage is the value of `BoundaryPercentage`, the impact score is within 0.005 of 0.40 × average + 0.035 × strike rate + 0.025 × boundary percentage (taken on the rounded values), every metric has two decimals, and the tier is judged on the rounded average and strike rate |
| `Cricket.ValidBatterAnalysed` | app/main.py:115-123 | for a validated batter: dismissals >= 1, the handler succeeds, the average is the rounded runs per dismissal, lies between 0 and the runs scored, and all metrics are non-negative |
| `Cricket.BallsFromOvers` | app/main.py:135-137 | for non-negative overs, the whole overs count six balls each and the fractional part adds 0 to 10 balls more (not 0 to 5) |
| `Cricket.OversNotation` | app/main.py:135-137 | `n.d` overs with a single digit `d` counts `6n + d` balls |
| `Cricket.OversDigitOverflow` | app/main.py:135-137 | a tenths digit from 6 to 9 is not rejected: `n.d` counts the same balls as `(n+1).(d-6)` |
| `Cricket.BallsPositiveIff` | app/main.py:135-139 | positive overs count at least one ball if and only if they exceed 0.05 |
| `Cricket.WicketImpactOf` | app/main.py:142-147 | "Match-winner" iff wickets >= 3, "Useful contributor" iff wickets is 1 or 2, "Wicketless" iff no wicket |
| `Cricket.AnalyzeBowler` | app/main.py:134-154 | it fails, on a division by zero, exactly when the overs count no ball. Otherwise the economy is within 0.005 of the runs per over; average and strike rate are absent iff no wicket fell, and otherwise are the rounded runs and balls per wicket; the impact follows the wickets |
| `Cricket.ValidBowlerAnalysed` | app/main.py:134-147 | for a validated bowler the handler succeeds iff overs > 0.05; then the economy is non-negative, and average, strike rate and "Wicketless" are each absent or present exactly when wickets == 0 |
| `Basketball.ClassifyRole` | app/main.py:89-101 | the role's own rule holds and no rule earlier in precedence order holds (first match wins) |
| `Basketball.ClassifyRoleUnique` | app/main.py:89-101 | any role whose rule holds and that no earlier rule pre-empts is the role classified, so exactly one label results |
| `Basketball.ScorerRoles` | app/main.py:90-93 | the role is "Star / All-Around" or "Primary Scorer" if and only if points >= 20 |
| `Basketball.AnalyzeBasketballPlayer` | app/main.py:157-173 | it fails, on a division by zero, exactly when minutes are 0. Otherwise points per 36, PER and usage are within 0.005 of their per-36-minute values; true shooting is 0.0 when its denominator is not positive and otherwise within 0.005 of points per shooting possession; the role is the classified one |
| `Basketball.ValidBasketballAnalysed` | app/main.py:158-160 | for a validated player the handler succeeds and the true-shooting denominator is positive, so true shooting is the rounded formula; points per 36, true shooting and usage are non-negative |
| `Basketball.CompositeScore` | app/main.py:181-182 | a composite score has two decimals and is within 0.005 of points + 0.8 rebounds + 0.7 assists |
| `Basketball.ComparePlayers` | app/main.py:181-184 | the edge goes to player 1 iff score1 >= score2, so ties favour player 1; the keys are the two names and "edge", and a name's score survives unless a later key overwrites it |
| `Basketball.CompareOrderMatters` | app/main.py:183 | swapping the players names the same winner when the scores differ, and the first-listed player when they tie |
| `Routes.PostBatter` | app/main.py:113-117 | a batter request succeeds iff its record is valid, and then answers with the handler's metrics for that record; the only failure is a validation failure, so zero dismissals never reach the formula; not-outs >= innings with valid innings is always rejected with the cross-field error |
| `Routes.PostBowler` | app/main.py:133-139 | a bowler request succeeds iff the record is valid and overs exceed 0.05, and then answers with the handler's metrics for that record; a valid record with overs of 0.05 or less fails on the division by zero |
| `Routes.PostBasketballPlayer` | app/main.py:156-160 | a basketball request succeeds iff its record is valid, and then answers with the handler's metrics for that record; otherwise it reports validation errors |
| `Scenarios.BatterBasic` | tests/test_api.py:19-24 | 500 runs, 10 innings, 2 not-outs give a batting average of 62.5 |
| `Scenarios.BatterNotOutsEqualInnings` | tests/test_api.py:26-30 | 3 not-outs in 3 innings is rejected with exactly the cross-field error |
| `Scenarios.BowlerFourWickets` | tests/test_api.py:32-37 | 4 wickets in 10.0 overs is labelled "Match-winner" |
| `Scenarios.BowlerNoWickets` | tests/test_api.py:39-43 | no wicket in 5.0 overs leaves the bowling average absent |
| `Scenarios.ComparePointGod` | tests/test_api.py:54-59 | 25/5/10 scores 36, 30/3/4 scores 35.2, and "Point God" has the edge |
| `Scenarios.TatumIsStar` | tests/test_api.py:45-52 | 26.5 points and 8.1 rebounds are labelled "Star / All-Around" |
| `Scenarios.CompareTieDefaultNames` | app/main.py:176-184 | two players with equal lines and the default names tie at 25.6, and the edge goes to "Player 1" |
| `Scenarios.BowlerTooFewOvers` | app/main.py:135-139 | 0.04 overs passes validation but counts zero balls, so the economy rate divides by zero |
| `Scenarios.BowlerSevenTenths` | app/main.py:135-137 | 8.7 overs and 9.1 overs both count 55 balls |

## Left out

- PyNumeric.Round2: rounds the exact rational value, ties to even. Python rounds the binary float, so results can differ at values that floats cannot represent exactly (2.675 rounds to 2.67 in Python). No property here depends on float behaviour.
- PyNumeric.RoundHalfEven: the same applies to the overs digit. `(8.3 - 8) * 10` is not exactly 3 in floats, but rounds to 3 in both.
- Every statistic is an exact real. Float overflow, NaN and infinities are not modelled. Those inputs come only from JSON that the validator would have to parse.
- The FastAPI application object, the route decorators, the `/` and `/health` payloads, and the mapping of outcomes to HTTP status codes are transport, so they are left out. The `Failure` variants name the three outcomes instead.
- Pydantic's type coercion is left out, along with missing-field errors, JSON parsing and the exact wording and structure of validation messages. Records arrive already typed. An error is modelled as a field name plus the bound or rule it broke.
- The comparison's query parameters are modelled as plain reals, because the service puts no bounds on them. Its default names "Player 1" and "Player 2" are the constants `DefaultName1` and `DefaultName2`. A caller passes them explicitly, because a function has no default arguments.
- The model uses `maidens`, `field_goals_made`, `free_throws_made` and `three_pointers_made` only in validation, because no formula in the source reads them.
- The housing-price service (`FastAPI-Lab/src/main.py`, `predict.py`, `train.py`) is not part of this model. It loads a serialized scikit-learn model from disk and calls it, trains with library code, and formats a float for output. None of that is self-contained logic.
