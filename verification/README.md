# Campaign budget goal seek, in Dafny

The Campaign Budget API works out how much to give one advertising line item, the *target
ad*, so that the whole campaign costs a requested total budget, within a tolerance. The cost
has four parts:

- the sum of every ad budget;
- an agency fee, a rate applied to that sum;
- a third-party fee, a rate applied to the budgets of the ads that use a third-party tool;
- fixed costs.

`BudgetCalculator.GoalSeek` runs two precondition checks, each of which throws when it fails:

1. the other ads must leave room in the total budget;
2. the target ad must be in the list.

It then bisects over the target ad's budget on [0, total budget]. Each pass writes the
candidate into the request's target ad and recomputes the cost. It returns a success response
with the cost breakdown as soon as a cost is within the tolerance. It returns a failure response
once the loop guard of line 35 is false. `BudgetRequestValidator` checks the request's fields
before a controller calls the calculator. `BudgetResponse` is the record both outcomes come back
in.

The model, one module per source unit:

| file | module | what it holds |
|---|---|---|
| `wrappers.dfy` | `Wrappers` | `Option` |
| `budget_request.dfy` | `BudgetRequests` | The request and its ads. The sums the calculator takes, `List.FindIndex`, and the in-place budget write as a new list. |
| `budget_response.dfy` | `BudgetResponses` | The response record, `Success`, `Failure`, and the failure branch of `ToString`. |
| `budget_calculator.dfy` | `BudgetCalculator` | `GoalSeek` and its loop. |
| `budget_request_validator.dfy` | `BudgetRequestValidator` | The ten checks of the eight rules, and the set of errors they produce. |
| `capped_bisection.dfy` | `CappedBisection` | The corrected loop of the finding below, and its convergence theorem. |
| `calculator_examples.dfy` | `CalculatorExamples` | The repository's unit tests as exact facts about the model, plus the finding's counterexample. |

### How `GoalSeek` is modelled

- **Results and exceptions.** `GoalSeek` is a function that returns a `Run`:
  - the outcome: a returned response, or one of the exceptions;
  - the request as the caller sees it afterwards;
  - the number of loop passes.
- **The in-place write.** The source writes each candidate into `request.AdBudgets[i].Budget`.
  Only the last write remains visible, so `Run.after` is the request with that last candidate
  written in.
- **Two views of the loop.**
  - `Search` and `Pass` are the loop as a recursive function over its local variables, the
    `Bracket`.
  - `Bisect` and `GoalSeekLoop` are the same loop written as a `while` statement with the source's
    local variables. Their contracts prove they compute the same thing as the recursive form.
- **Costs of a pass.** `CandidateCosts` gives a pass's costs in closed form: the candidate, plus
  the sums over the other ads. `CostsOfCandidate` proves this equals summing over the list with the
  candidate written in.

### Where the code and its own comments and messages differ

The model follows the code in each case.

- **The iteration cap.** The comment at line 8 of `BudgetCalculator.cs` calls `maxIterations`
  the maximum number of iterations. The guard at line 35 is `iteration <= maxIterations`, with
  `maxIterations = 1000`, so the loop body can run 1001 times.
  `BudgetCalculator.GoalSeekRunsToCap` shows a request that takes all 1001 passes.
- **Duplicate target names.** Nothing stops two ads from bearing the target's name, and three
  lines of `GoalSeek` treat such ads differently:
  - the lookup at line 27 takes the first ad of that name;
  - the precondition sum at line 19 leaves out every ad of that name;
  - the cost sum at line 41 counts all of them.

  `BudgetCalculator.CandidateSpendSplit` states the resulting ad spend.
- **Convergence.** The failure message at line 85 names the iteration cap as the only reason
  to give up. The guard at line 35 also stops once the bracket is no wider than the tolerance,
  and this can end the loop early on requests it could solve; see Findings.
- **A null ad list.** Line 19 calls `Enumerable.Where` on the list, which throws
  `ArgumentNullException` for a null source. That is an `ArgumentException`, so it reaches
  callers the same way as the two precondition errors.

## Model

| member | source | states |
|---|---|---|
| BudgetRequests.FindIndex | CampaignBudgetAPI/CampaignBudgetAPI/Services/BudgetCalculator.cs:27-32 | The lookup returns -1 exactly when no ad bears the target's name; otherwise it returns the first ad that does. |
| BudgetRequests.NonTargetSpendBounds | CampaignBudgetAPI/CampaignBudgetAPI/Services/BudgetCalculator.cs:19 | The precondition sum leaves out every ad named like the target: it is the whole spend when no ad bears the name, zero when every ad does, and with non-negative budgets between zero and the whole spend. |
| BudgetRequests.SetBudget | CampaignBudgetAPI/CampaignBudgetAPI/Services/BudgetCalculator.cs:38 | The write keeps the list's length, gives the ad at the index the new budget with its name and tool flag kept, and leaves every other ad as it was. |
| BudgetRequests.TotalSpendSetBudget | CampaignBudgetAPI/CampaignBudgetAPI/Services/BudgetCalculator.cs:38-41 | After overwriting one ad's budget, the total ad spend changes by exactly the difference. |
| BudgetRequests.ToolSpendSetBudget | CampaignBudgetAPI/CampaignBudgetAPI/Services/BudgetCalculator.cs:47-49 | After overwriting one ad's budget, the tool spend changes by the difference if that ad uses a tool, and not at all otherwise. |
| BudgetRequests.SpendPartition | CampaignBudgetAPI/CampaignBudgetAPI/Services/BudgetCalculator.cs:19 | The total spend is the spend the precondition check sums (ads not named like the target) plus the spend of the ads named like the target. |
| BudgetRequests.TargetSpendOfUniqueName | CampaignBudgetAPI/CampaignBudgetAPI/Services/BudgetCalculator.cs:19 | When only one ad bears the target's name, the spend the check leaves out is that ad's budget. |
| BudgetResponses.Success | CampaignBudgetAPI/CampaignBudgetAPI/Models/BudgetResponse.cs:15-33 | A success carries the success message, and its six result fields read back as exactly the arguments. |
| BudgetResponses.Failure | CampaignBudgetAPI/CampaignBudgetAPI/Models/BudgetResponse.cs:35-42 | A failure is not a success, carries the given message, and has every result field null. |
| BudgetResponses.FailureText | CampaignBudgetAPI/CampaignBudgetAPI/Models/BudgetResponse.cs:44-49 | A failure prints as "Failure: " followed by its message, and as the prefix alone when the message is null. |
| BudgetResponses.SuccessFromPayload | CampaignBudgetAPI/CampaignBudgetAPI/Models/BudgetResponse.cs:15-33 | A response with the success message is the `Success` of its own six fields, so reading the fields back inverts `Success`. |
| BudgetCalculator.CostsOfCandidate | CampaignBudgetAPI/CampaignBudgetAPI/Services/BudgetCalculator.cs:38-55 | Writing a candidate and summing over the whole list gives the closed-form costs of that candidate, all four figures. |
| BudgetCalculator.CandidateCostsIgnoreTargetBudget | CampaignBudgetAPI/CampaignBudgetAPI/Services/BudgetCalculator.cs:38-55 | A candidate's costs do not depend on the budget the target held before, so earlier passes' writes do not matter. |
| BudgetCalculator.CalculatedBudgetMonotone | CampaignBudgetAPI/CampaignBudgetAPI/Services/BudgetCalculator.cs:68-77 | With non-negative fee rates, the calculated budget rises at least as fast as the candidate, which is the monotonicity the bound moves rely on. |
| BudgetCalculator.CandidateSpendSplit | CampaignBudgetAPI/CampaignBudgetAPI/Services/BudgetCalculator.cs:19-41 | A pass's ad spend is the candidate, plus the sum the precondition check bounds, plus any other ads sharing the target's name. The last part is zero when the name is unique. |
| BudgetCalculator.Written | CampaignBudgetAPI/CampaignBudgetAPI/Services/BudgetCalculator.cs:38 | After the loop the list differs from the caller's at most in the target's budget, which holds the last candidate. It is unchanged when no pass ran. |
| BudgetCalculator.WriteOverWritten | CampaignBudgetAPI/CampaignBudgetAPI/Services/BudgetCalculator.cs:38 | Each write into the target forgets the previous one. |
| BudgetCalculator.Search | CampaignBudgetAPI/CampaignBudgetAPI/Services/BudgetCalculator.cs:35-85 | The loop always returns a response, running at most 1001 passes. A failure is the "Max iterations reached" response. A success comes from a pass that ran. A last written candidate exists exactly when some pass ran. |
| BudgetCalculator.Pass | CampaignBudgetAPI/CampaignBudgetAPI/Services/BudgetCalculator.cs:37-81 | A pass always writes a candidate, and either returns or continues the loop within the cap. |
| BudgetCalculator.NextHalves | CampaignBudgetAPI/CampaignBudgetAPI/Services/BudgetCalculator.cs:68-81 | After a miss the counter goes up and the candidate is the new midpoint. A candidate that cost too much becomes the upper bound, one that cost too little the lower bound. From a midpoint bracket the new bracket is half as wide and inside the old one. |
| BudgetCalculator.Start | CampaignBudgetAPI/CampaignBudgetAPI/Services/BudgetCalculator.cs:13-16 | The loop starts at [0, total budget] with no pass run and the midpoint as the first candidate. Its width is the total halved zero times, and it is ordered for a non-negative total, which are the premises of the search lemmas. |
| BudgetCalculator.Admissible | CampaignBudgetAPI/CampaignBudgetAPI/Services/BudgetCalculator.cs:19-32 | A request passes both checks exactly when the list is present, the other ads leave room in the total budget, and the lookup of line 27 does not return -1. |
| BudgetCalculator.SearchSucceeds | CampaignBudgetAPI/CampaignBudgetAPI/Services/BudgetCalculator.cs:58-66 | A success reports the last candidate, the target's name and that candidate's costs, and its calculated budget is within the tolerance of the total. |
| BudgetCalculator.SearchStaysInBracket | CampaignBudgetAPI/CampaignBudgetAPI/Services/BudgetCalculator.cs:68-81 | From any ordered bracket whose candidate is its midpoint, the last candidate the loop writes (the one left in the target ad) lies inside that bracket. |
| BudgetCalculator.SearchGivesUpOnlyWhenNarrow | CampaignBudgetAPI/CampaignBudgetAPI/Services/BudgetCalculator.cs:35 | The loop gives up only at the cap, or once the bracket (the total halved once per pass) is no wider than the tolerance. |
| BudgetCalculator.SearchRunsToCap | CampaignBudgetAPI/CampaignBudgetAPI/Services/BudgetCalculator.cs:35 | With a negative tolerance no candidate is accepted and the bracket is always wider than the tolerance, so the loop runs exactly 1001 passes and then fails. |
| BudgetCalculator.SearchFailsAfterMisses | CampaignBudgetAPI/CampaignBudgetAPI/Services/BudgetCalculator.cs:35-85 | When the loop gives up after some pass, the last candidate it wrote had a calculated budget outside the tolerance. |
| BudgetCalculator.GoalSeekRunsToCap | CampaignBudgetAPI/CampaignBudgetAPI/Services/BudgetCalculator.cs:9-35 | A request with a negative tolerance and a non-negative total budget that passes both checks takes 1001 passes and fails. |
| BudgetCalculator.GoalSeek | CampaignBudgetAPI/CampaignBudgetAPI/Services/BudgetCalculator.cs:11-86 | See the list after this table. |
| BudgetCalculator.GoalSeekSuccessSolves | CampaignBudgetAPI/CampaignBudgetAPI/Services/BudgetCalculator.cs:58-66 | See the list after this table. |
| BudgetCalculator.GoalSeekBudgetInRange | CampaignBudgetAPI/CampaignBudgetAPI/Services/BudgetCalculator.cs:13-81 | For a non-negative total budget, a successful budget lies in [0, total budget]. |
| BudgetCalculator.GoalSeekGivesUpOnlyWhenNarrow | CampaignBudgetAPI/CampaignBudgetAPI/Services/BudgetCalculator.cs:35-85 | A "Max iterations reached" response comes after 1001 passes, or once the bracket is no wider than the tolerance. |
| BudgetCalculator.GoalSeekFailureLeavesMiss | CampaignBudgetAPI/CampaignBudgetAPI/Services/BudgetCalculator.cs:35-85 | After a "Max iterations reached" response that followed at least one pass, the first ad of the target's name holds the last candidate tried. The list as it now stands misses the tolerance, and for a non-negative total that budget lies in [0, total budget]. |
| BudgetCalculator.GoalSeekLoop | CampaignBudgetAPI/CampaignBudgetAPI/Services/BudgetCalculator.cs:11-86 | The method, written as the source is (early exits and then the loop), computes exactly `GoalSeek`. |
| BudgetCalculator.Bisect | CampaignBudgetAPI/CampaignBudgetAPI/Services/BudgetCalculator.cs:35-85 | The `while` loop over mutable bounds, overwriting the list, ends with the recursive search's outcome, list and pass count. |
| BudgetCalculator.PassCosts | CampaignBudgetAPI/CampaignBudgetAPI/Services/BudgetCalculator.cs:41-55 | The loop body's sums over the written list are the closed-form costs of the candidate. |
| BudgetRequestValidator.Validate | CampaignBudgetAPI/CampaignBudgetAPI/Validators/BudgetRequestValidator.cs:10-41 | Each check's error is reported exactly when that check fails, and every reported error belongs to some check. |
| BudgetRequestValidator.ValidateAmountRules | CampaignBudgetAPI/CampaignBudgetAPI/Validators/BudgetRequestValidator.cs:10-20 | Each error is reported exactly when its bound is broken, whatever the other fields hold: total budget not above 0, tolerance below 0, fixed costs below 0. |
| BudgetRequestValidator.ValidateFeeRules | CampaignBudgetAPI/CampaignBudgetAPI/Validators/BudgetRequestValidator.cs:35-41 | The agency-fee and third-party-fee errors are each reported exactly when that rate lies outside [0, 1]. |
| BudgetRequestValidator.BlankNames | CampaignBudgetAPI/CampaignBudgetAPI/Validators/BudgetRequestValidator.cs:23 | `NotEmpty` rejects a null name, the empty name and names of white space only, including the Unicode space separators. A name with any other character passes, whatever spaces surround it. |
| BudgetRequestValidator.ValidateTargetRules | CampaignBudgetAPI/CampaignBudgetAPI/Validators/BudgetRequestValidator.cs:22-33 | See the list after this table. |
| BudgetRequestValidator.ValidateListRules | CampaignBudgetAPI/CampaignBudgetAPI/Validators/BudgetRequestValidator.cs:26-28 | See the list after this table. |
| BudgetRequestValidator.WellFormedPasses | CampaignBudgetAPI/CampaignBudgetAPI/Validators/BudgetRequestValidator.cs:10-41 | A request meeting every field condition gets no error. |
| BudgetRequestValidator.IllFormedFails | CampaignBudgetAPI/CampaignBudgetAPI/Validators/BudgetRequestValidator.cs:10-41 | A request violating any field condition gets at least one error. |
| BudgetRequestValidator.NoErrorsIffWellFormed | CampaignBudgetAPI/CampaignBudgetAPI/Validators/BudgetRequestValidator.cs:10-41 | A request gets no errors exactly when it meets every field condition. |
| BudgetRequestValidator.AcceptedRequestHasTarget | CampaignBudgetAPI/CampaignBudgetAPI/Validators/BudgetRequestValidator.cs:26-33 | A request the validator accepts has an ad list, and the calculator's lookup finds the target in it. |
| CappedBisection.CostLinear | CampaignBudgetAPI/CampaignBudgetAPI/Services/BudgetCalculator.cs:41-55 | The calculated budget is linear in the candidate. Its slope is 1 plus the agency fee, plus the third-party fee when the target uses a tool. |
| CappedBisection.CostMidpoint | CampaignBudgetAPI/CampaignBudgetAPI/Services/BudgetCalculator.cs:79-81 | The calculated budget of the midpoint candidate is the mean of the bounds' calculated budgets. |
| CappedBisection.LastPassWithin | CampaignBudgetAPI/CampaignBudgetAPI/Services/BudgetCalculator.cs:58 | If the bracket straddles the total and the cost spans at most twice the tolerance across it, the midpoint candidate passes the tolerance test. |
| CappedBisection.CappedSearch | CampaignBudgetAPI/CampaignBudgetAPI/Services/BudgetCalculator.cs:35-85 | The loop guarded only by the cap fails only after 1001 passes, and a success's calculated budget is within the tolerance. |
| CappedBisection.GoalSeekCapped | CampaignBudgetAPI/CampaignBudgetAPI/Services/BudgetCalculator.cs:11-86 | See the list after this table. |
| CappedBisection.NextStraddles | CampaignBudgetAPI/CampaignBudgetAPI/Services/BudgetCalculator.cs:68-81 | A missed pass keeps the total budget between the costs of the two bounds and halves the bracket. |
| CappedBisection.CappedSearchConverges | CampaignBudgetAPI/CampaignBudgetAPI/Services/BudgetCalculator.cs:35-82 | If the bracket straddles the root, the capped loop succeeds by pass n + 1, for any n up to the cap at which the cost spans at most twice the tolerance over the bracket. |
| CappedBisection.GoalSeekCappedConverges | CampaignBudgetAPI/CampaignBudgetAPI/Services/BudgetCalculator.cs:11-86 | An admissible request whose cost reaches the total between budgets 0 and total is solved by the corrected goal seek within the stated number of passes. |
| CappedBisection.CappedSearchAgrees | CampaignBudgetAPI/CampaignBudgetAPI/Services/BudgetCalculator.cs:35 | Wherever the source's loop succeeds, the capped loop takes the same passes to the same response. |
| CappedBisection.GoalSeekCappedAgrees | CampaignBudgetAPI/CampaignBudgetAPI/Services/BudgetCalculator.cs:11-86 | Every success of `GoalSeek` is also the corrected call's result, ad list included. |
| CalculatorExamples.ValidInput | CampaignBudgetAPI/CampaignBudgetAPI.Tests/Tests/BudgetCalculatorTests.cs:18-40 | One ad at agency fee 1 succeeds on pass 6 with budget 453.125 and calculated total 1006.25, and the ad now holds 453.125. |
| CalculatorExamples.MultipleAds | CampaignBudgetAPI/CampaignBudgetAPI.Tests/Tests/BudgetCalculatorTests.cs:42-66 | Three ads with the target in the middle succeed on pass 9 with budget 886.71875. The other two ads are unchanged. |
| CalculatorExamples.HighTolerance | CampaignBudgetAPI/CampaignBudgetAPI.Tests/Tests/BudgetCalculatorTests.cs:68-90 | A tolerance of 100 succeeds on pass 2 with a calculated total of 925, inside [900, 1100]. |
| CalculatorExamples.ThirdPartyTool | CampaignBudgetAPI/CampaignBudgetAPI.Tests/Tests/BudgetCalculatorTests.cs:92-114 | A tool-using target succeeds on pass 9 with a positive third-party fee of 39.16015625. |
| CalculatorExamples.SumExceedsTotal | CampaignBudgetAPI/CampaignBudgetAPI.Tests/Tests/BudgetCalculatorTests.cs:116-137 | Other ads spending 1300 of 1000 throw the sum exception and leave the request unchanged. |
| CalculatorExamples.TargetNotInList | CampaignBudgetAPI/CampaignBudgetAPI.Tests/Tests/BudgetCalculatorTests.cs:139-160 | A target missing from the list throws the not-found exception and leaves the request unchanged. |
| CalculatorExamples.SumCheckComesFirst | CampaignBudgetAPI/CampaignBudgetAPI/Services/BudgetCalculator.cs:19-32 | When both checks would fail, the sum exception is the one thrown. |
| CalculatorExamples.NarrowBracketGivesUp | CampaignBudgetAPI/CampaignBudgetAPI/Services/BudgetCalculator.cs:35 | A request the validator accepts, with an exact solution at 360, ends in "Max iterations reached" after 5 passes. |
| CalculatorExamples.NarrowBracketCappedSolves | CampaignBudgetAPI/CampaignBudgetAPI/Services/BudgetCalculator.cs:35 | The same request succeeds under the corrected loop within 7 passes. |
| CalculatorExamples.ValidRequestsPass | CampaignBudgetAPI/CampaignBudgetAPI.Tests/Tests/BudgetRequestValidatorTests.cs:18-37 | The baseline request, and the same request with either fee at 0, 0.5 or 1, has no errors. |
| CalculatorExamples.MissingTargetReported | CampaignBudgetAPI/CampaignBudgetAPI.Tests/Tests/BudgetRequestValidatorTests.cs:39-59 | A target missing from the list, an empty target name and a null target name each get their own message. |
| CalculatorExamples.MissingListReported | CampaignBudgetAPI/CampaignBudgetAPI.Tests/Tests/BudgetRequestValidatorTests.cs:127-164 | An empty list and a null list each get their own message. |
| CalculatorExamples.OutOfRangeAmountsReported | CampaignBudgetAPI/CampaignBudgetAPI.Tests/Tests/BudgetRequestValidatorTests.cs:61-125 | A zero or negative total budget and a negative tolerance each get their own message. |
| CalculatorExamples.OutOfRangeFeesReported | CampaignBudgetAPI/CampaignBudgetAPI.Tests/Tests/BudgetRequestValidatorTests.cs:209-251 | An agency fee or a third-party fee of -0.1, 1.1 or -0.05 gets that fee's message. |

Longer contracts, for the rows above marked "see the list":

- `BudgetCalculator.GoalSeek`:
  - A null list throws `ArgumentNullException` for the `source` parameter of `Enumerable.Where`.
  - The other ads overspending throws the sum exception. This check wins over a missing target.
  - A missing target throws the not-found exception.
  - The call returns exactly when both checks pass.
  - A failure response is the "Max iterations reached" one.
  - A success takes at least one pass, and there are never more than 1001 passes.
  - Only the target's budget in the first ad of that name changes, and nothing changes when no pass ran.
  - A tolerance at least the total budget fails before the first pass.
- `CappedBisection.GoalSeekCapped`:
  - It throws the same three exceptions as `GoalSeek` in the same cases, before any pass.
  - It returns exactly when both checks pass.
  - A failure response is the "Max iterations reached" one and comes only after 1001 passes.
  - Only the target's budget in the first ad of that name changes, and nothing changes when no pass ran.
- `BudgetCalculator.GoalSeekSuccessSolves`:
  - A success reports the target's name and the budget now stored in the target ad.
  - It reports the costs of the list as it now stands.
  - Its calculated total is within the tolerance.
  - Its budget solves the cost equation for the list the caller passed.
- `BudgetRequestValidator.ValidateTargetRules`:
  - "cannot be empty" is reported exactly when the name is null, empty or white space.
  - "cannot be null" is reported exactly when the name is null.
  - "must exist" is reported exactly when a list is present and no ad bears the name.
- `BudgetRequestValidator.ValidateListRules`:
  - "cannot be null" is reported exactly when the list is null.
  - "cannot be empty" is reported exactly when the list is null or empty.

## Left out

- Floating point. Money and rates are exact reals, so `double` rounding is not modelled. Neither
  is the `float` width of the two fee rates and the tolerance (`float` is 32-bit, `double` 64-bit).
- NaN and infinite inputs. They do not exist among reals.
- The success branch of `BudgetResponse.ToString`. Its `F2` formatting with the euro sign depends
  on the current culture.
- The FluentValidation library itself. Its `NotEmpty` rule for strings rejects null, empty and
  white-space-only values. The model writes that out as `Blank`, with .NET's `char.IsWhiteSpace`
  as `IsWhiteSpace`.
- The FluentValidation machinery: rule registration, the `TestValidate` helpers, ordering and
  de-duplication of messages. The validator is modelled as the set of (field, message) errors it
  produces, with the default cascade mode, under which each chain continues after a failing check.
- ASP.NET automatic validation. The controller (`CampaignBudgetController.cs`), `Program.cs` and
  the React front end are not part of this model.
- A null `AdName` on an ad. Names are plain strings. A null target name matches no ad.
- Aliasing and concurrency. The write into the caller's list is modelled as the request returned
  in `Run.after`; another caller sharing the list is not modelled. Ads are values, so one `AdBudget`
  object stored at two positions of the list is not modelled either: there the write at line 38
  would change both positions and line 41 would count the new budget twice.
- `BudgetCalculator.GoalSeekGivesUpOnlyWhenNarrow`: does not claim convergence, because the
  source's loop does not converge on every solvable request (see Findings).
- A null element of the ad list. Reading `ad.AdName` or `ad.Budget` on it at lines 19, 27, 41
  and 48 throws `NullReferenceException`, which the controller reports as a server error. Ads
  in the model are values, so they cannot be null.

## Findings

| source | as written | input that shows it | evidently intended | confidence | as-written member | corrected member |
|---|---|---|---|---|---|---|
| CampaignBudgetAPI/CampaignBudgetAPI/Services/BudgetCalculator.cs:35 | The loop also stops once the bracket of candidate budgets is no wider than the tolerance. The tolerance bounds the calculated budget, which moves 1 + fees times as fast as the candidate, so the method can report "Max iterations reached" after a few passes on a request it could solve. | Total budget 1000, agency fee 1, third-party fee 0.5, fixed costs 100, one tool-using ad "Ad1" at 0, tolerance 32. Budget 360 costs exactly 1000, and the validator accepts the request. The loop fails after 5 passes, with the bracket at [343.75, 375]. | Give up only at the iteration cap, as the failure message says. Then every request whose linear cost reaches the total between budgets 0 and total is solved once the bracket is narrow enough. | medium; not executed | CalculatorExamples.NarrowBracketGivesUp | CappedBisection.GoalSeekCappedConverges |

`BudgetCalculator.GoalSeek` stays as written, because it models what the service returns.

- `CappedBisection.GoalSeekCapped` is the corrected call, and the convergence theorem is proved
  about it.
- `CappedBisection.GoalSeekCappedAgrees` proves that it returns the same result as `GoalSeek` on
  every request `GoalSeek` solves, so the success facts of the unit tests hold for it unchanged.
- `CalculatorExamples.NarrowBracketCappedSolves` shows the corrected call solving the request
  above.
