/** The goal-seek solver (Services/BudgetCalculator.cs): checks that the non-target ads leave room
    in the total budget and that the target ad exists, then bisects over the target ad's budget,
    writing each candidate into the target ad, until the resulting campaign cost is within the
    tolerance of the total budget or the iteration cap is passed. */
module BudgetCalculator {
  import opened Wrappers
  import opened BudgetRequests
  import opened BudgetResponses

  /** The loop guard allows `iteration` up to and including this value, so at most 1001 passes. */
  const MaxIterations: nat := 1000

  const SumExceedsMessage := "Sum of ad-budget exceeds the total budget."
  const TargetNotFoundMessage := "Target ad not found in the provided ad budgets."
  const NotConvergedMessage := "Max iterations reached without the value converging."

  /** What `GoalSeek` throws instead of returning: the two `ArgumentException`s of the
      precondition checks, and the `ArgumentNullException` that `Enumerable.Where` throws for a
      null ad list at line 19, naming its `source` parameter. The latter is a subclass of
      `ArgumentException`, so a caller catching `ArgumentException` catches all three. */
  datatype Thrown = ArgumentException(message: string) | ArgumentNullException(paramName: string)

  datatype Outcome = Returned(response: BudgetResponse) | Threw(exception: Thrown)

  /** The four quantities one loop pass computes from the current ad list. */
  datatype Costs = Costs(totalAdSpend: real, agencyFee: real, thirdPartyFee: real, calculatedBudget: real)

  /** The loop's local variables (lines 13-16): the bounds of the bracket, the candidate budget
      and the pass counter. */
  datatype Bracket = Bracket(minBudget: real, maxBudget: real, targetBudget: real, iteration: nat)

  /** How the bisection loop ends: its outcome, the last candidate it wrote into the target ad
      (`None` when the loop body never ran), and how many times the loop body ran in all. */
  datatype SearchEnd = SearchEnd(outcome: Outcome, last: Option<real>, passes: nat)

  /** A whole call: its outcome, the request as the caller sees it afterwards (the target ad's
      budget may have been overwritten), and how many times the loop body ran. */
  datatype Run = Run(outcome: Outcome, after: Request, passes: nat)

  /** `Math.Abs(x - target) <= tolerance`, written as the two bounds it amounts to. */
  predicate Within(x: real, target: real, tolerance: real) {
    target - tolerance <= x <= target + tolerance
  }

  /** `t` halved `n` times: the width of the bracket after `n` passes when it started as `t`. */
  function Halved(t: real, n: nat): real {
    if n == 0 then t else Halved(t, n - 1) / 2.0
  }

  /** One pass's cost computation (lines 41-55) over the ads as they currently stand. */
  function ComputeCosts(req: Request, ads: seq<Ad>): Costs {
    var totalAdSpend := TotalSpend(ads);
    var agencyFee := req.agencyFee * totalAdSpend;
    var thirdPartyFee := ToolSpend(ads) * req.thirdPartyFee;
    Costs(totalAdSpend, agencyFee, thirdPartyFee, totalAdSpend + agencyFee + thirdPartyFee + req.fixedCosts)
  }

  /** The closed-form costs of giving the target ad at `i` the budget `x`, written without the
      loop's write-then-sum: `x` plus the other ads is the ad spend, the agency fee is charged on
      all of it, the third-party fee on the tool-using ads (the target among them when it uses a
      tool), and the fixed costs are added. The target's own stored budget plays no part. */
  function CandidateCosts(req: Request, ads: seq<Ad>, i: nat, x: real): Costs
    requires i < |ads|
  {
    var others := TotalSpend(ads) - ads[i].budget;
    var toolOthers := ToolSpend(ads) - (if ads[i].usesThirdPartyTool then ads[i].budget else 0.0);
    var totalAdSpend := x + others;
    var agencyFee := req.agencyFee * totalAdSpend;
    var thirdPartyFee := (toolOthers + (if ads[i].usesThirdPartyTool then x else 0.0)) * req.thirdPartyFee;
    Costs(totalAdSpend, agencyFee, thirdPartyFee, totalAdSpend + agencyFee + thirdPartyFee + req.fixedCosts)
  }

  /** Writing `x` into the target and computing one pass's costs over the whole list gives the
      closed-form costs of `x`, all four of them. */
  lemma CostsOfCandidate(req: Request, ads: seq<Ad>, i: nat, x: real)
    requires i < |ads|
    ensures ComputeCosts(req, SetBudget(ads, i, x)) == CandidateCosts(req, ads, i, x)
  {
    TotalSpendSetBudget(ads, i, x);
    ToolSpendSetBudget(ads, i, x);
  }

  /** The costs of a candidate do not depend on what budget the target held before. */
  lemma CandidateCostsIgnoreTargetBudget(req: Request, a: seq<Ad>, b: seq<Ad>, i: nat, x: real)
    requires SameExceptBudgetAt(a, b, i)
    ensures CandidateCosts(req, a, i, x) == CandidateCosts(req, b, i, x)
  {
    assert a == SetBudget(b, i, a[i].budget);
    TotalSpendSetBudget(b, i, a[i].budget);
    ToolSpendSetBudget(b, i, a[i].budget);
  }

  /** With non-negative fee rates the calculated budget grows at least as fast as the target's
      candidate budget; so a candidate that is too high makes every larger one too high and a
      candidate that is too low makes every smaller one too low, which is what moving the upper
      or the lower bound relies on. */
  lemma CalculatedBudgetMonotone(req: Request, ads: seq<Ad>, i: nat, x: real, y: real)
    requires i < |ads| && 0.0 <= req.agencyFee && 0.0 <= req.thirdPartyFee && x <= y
    ensures ComputeCosts(req, SetBudget(ads, i, y)).calculatedBudget
          - ComputeCosts(req, SetBudget(ads, i, x)).calculatedBudget >= y - x
  {
    CostsOfCandidate(req, ads, i, x);
    CostsOfCandidate(req, ads, i, y);
    var others := TotalSpend(ads) - ads[i].budget;
    var toolOthers := ToolSpend(ads) - (if ads[i].usesThirdPartyTool then ads[i].budget else 0.0);
    LinearGrowth(req.agencyFee, req.thirdPartyFee, others, toolOthers, ads[i].usesThirdPartyTool, x, y);
  }

  /** The arithmetic behind `CalculatedBudgetMonotone`: each of the three cost terms grows by a
      non-negative multiple of `y - x`, the ad spend by exactly `y - x`. */
  lemma LinearGrowth(agency: real, thirdParty: real, others: real, toolOthers: real, tool: bool, x: real, y: real)
    requires 0.0 <= agency && 0.0 <= thirdParty && x <= y
    ensures (y + others + agency * (y + others) + (toolOthers + (if tool then y else 0.0)) * thirdParty)
          - (x + others + agency * (x + others) + (toolOthers + (if tool then x else 0.0)) * thirdParty)
         >= y - x
  {
    assert agency * (y + others) - agency * (x + others) == agency * (y - x);
    assert agency * (y - x) >= 0.0;
    if tool {
      assert (toolOthers + y) * thirdParty - (toolOthers + x) * thirdParty == (y - x) * thirdParty;
      assert (y - x) * thirdParty >= 0.0;
    }
  }

  /** The ad spend of a candidate is the candidate, plus the ads not named like the target (the
      sum the check of lines 19-24 bounds), plus the OTHER ads bearing the target's name: the
      check leaves those out, but the sum of line 41 counts them. When the name is unique the
      last part vanishes. */
  lemma CandidateSpendSplit(req: Request, ads: seq<Ad>, i: nat, x: real)
    requires i < |ads| && IsTarget(ads[i], req.targetAd)
    ensures CandidateCosts(req, ads, i, x).totalAdSpend
            == x + NonTargetSpend(ads, req.targetAd) + (TargetSpend(ads, req.targetAd) - ads[i].budget)
    ensures (forall j :: 0 <= j < |ads| && j != i ==> !IsTarget(ads[j], req.targetAd))
            ==> CandidateCosts(req, ads, i, x).totalAdSpend == x + NonTargetSpend(ads, req.targetAd)
  {
    SpendPartition(ads, req.targetAd);
    if forall j :: 0 <= j < |ads| && j != i ==> !IsTarget(ads[j], req.targetAd) {
      TargetSpendOfUniqueName(ads, req.targetAd, i);
    }
  }

  /** The ad list after the loop: the caller's list with the last candidate, if any, written
      into the target ad. Every pass overwrites the same ad, so only the last write shows. */
  function Written(ads: seq<Ad>, i: nat, last: Option<real>): (r: seq<Ad>)
    requires i < |ads|
    ensures SameExceptBudgetAt(r, ads, i)
    ensures last.Some? ==> r[i].budget == last.value
    ensures last.None? ==> r == ads
  {
    match last
    case None => ads
    case Some(b) => SetBudget(ads, i, b)
  }

  /** Writing into a list that has already been written at the same place forgets the earlier
      write. */
  lemma WriteOverWritten(ads: seq<Ad>, i: nat, last: Option<real>, b: real)
    requires i < |ads|
    ensures SetBudget(Written(ads, i, last), i, b) == SetBudget(ads, i, b)
  {
    var w := Written(ads, i, last);
    assert forall j :: 0 <= j < |ads| ==> SetBudget(w, i, b)[j] == SetBudget(ads, i, b)[j];
  }

  /** A success response that reports the costs of `endAds` (one pass's computation over them),
      whose budget is the one standing at `index` in `endAds`, whose target name is that ad's,
      and whose budget solves the closed-form cost equation for the list `ads` the call started
      from. */
  predicate Solves(req: Request, ads: seq<Ad>, index: nat, endAds: seq<Ad>, resp: BudgetResponse)
    requires index < |ads| && index < |endAds|
  {
    var c := ComputeCosts(req, endAds);
    Payload(resp) == Some(Breakdown(endAds[index].budget, ads[index].adName, c.totalAdSpend,
                                    c.agencyFee, c.thirdPartyFee, c.calculatedBudget))
    && Within(c.calculatedBudget, req.totalBudget, req.tolerance)
    && Within(CandidateCosts(req, ads, index, endAds[index].budget).calculatedBudget,
              req.totalBudget, req.tolerance)
  }

  /** The bisection loop of lines 35-82 from a state of its variables: the last candidate
      written, the bounds, the candidate and the iteration counter. `ads` is the list as the
      caller passed it; what the loop has written so far is `Written(ads, index, last)`. The
      search stops with the failure of line 85 as soon as the guard of line 35 is false. */
  function Search(req: Request, ads: seq<Ad>, index: nat, last: Option<real>, b: Bracket): (e: SearchEnd)
    requires index < |ads| && req.targetAd == Some(ads[index].adName)
    requires b.iteration <= MaxIterations + 1
    // the second component only ranks each `Search` above the `Pass` it calls
    decreases MaxIterations + 1 - b.iteration, |ads| + 1
    ensures e.outcome.Returned?
    ensures b.iteration <= e.passes <= MaxIterations + 1
    ensures e.passes == b.iteration ==> e.last == last
    ensures b.iteration < e.passes ==> e.last.Some?
    ensures !e.outcome.response.isSuccess ==> e.outcome.response == Failure(NotConvergedMessage)
    ensures e.outcome.response.isSuccess ==> b.iteration < e.passes
  {
    if b.maxBudget - b.minBudget > req.tolerance && b.iteration <= MaxIterations then
      Pass(req, ads, index, b)
    else
      SearchEnd(Returned(Failure(NotConvergedMessage)), last, b.iteration)
  }

  /** One run of the loop body (lines 37-81): write the candidate into the target ad, compute the
      costs, and either return a success or move one bound to the candidate and go on. */
  function Pass(req: Request, ads: seq<Ad>, index: nat, b: Bracket): (e: SearchEnd)
    requires index < |ads| && req.targetAd == Some(ads[index].adName)
    requires b.iteration <= MaxIterations
    decreases MaxIterations + 1 - b.iteration, |ads|
    ensures e.outcome.Returned?
    ensures b.iteration < e.passes <= MaxIterations + 1
    ensures e.last.Some?
    ensures !e.outcome.response.isSuccess ==> e.outcome.response == Failure(NotConvergedMessage)
  {
    var c := CandidateCosts(req, ads, index, b.targetBudget);
    if Within(c.calculatedBudget, req.totalBudget, req.tolerance) then
      SearchEnd(Returned(Success(b.targetBudget, req.targetAd.value, c.totalAdSpend, c.agencyFee,
                                 c.thirdPartyFee, c.calculatedBudget)),
                Some(b.targetBudget), b.iteration + 1)
    else
      Search(req, ads, index, Some(b.targetBudget), Next(b, c.calculatedBudget > req.totalBudget))
  }

  /** Lines 68-81 after a miss: the upper bound moves to the candidate when the calculated
      budget was too high, the lower bound otherwise; the counter goes up and the new candidate
      is the midpoint. */
  function Next(b: Bracket, tooHigh: bool): Bracket {
    var lo := if tooHigh then b.minBudget else b.targetBudget;
    var hi := if tooHigh then b.targetBudget else b.maxBudget;
    Bracket(lo, hi, (hi + lo) / 2.0, b.iteration + 1)
  }

  /** What a missed pass does to the bracket. The missed candidate becomes the bound on its side:
      one that cost too much caps the bracket, one that cost too little floors it. From a bracket
      whose candidate is its midpoint, the new bracket is the half on the side of the candidate
      the total budget lies on, so it is half as wide and inside the old one, and its own
      candidate is again its midpoint. */
  lemma NextHalves(b: Bracket, tooHigh: bool)
    ensures var r := Next(b, tooHigh);
            && r.iteration == b.iteration + 1
            && r.targetBudget == (r.minBudget + r.maxBudget) / 2.0
            && (tooHigh ==> r.maxBudget <= b.targetBudget)
            && (!tooHigh ==> b.targetBudget <= r.minBudget)
    ensures var r := Next(b, tooHigh);
            b.targetBudget == (b.minBudget + b.maxBudget) / 2.0
            ==> r.maxBudget - r.minBudget == (b.maxBudget - b.minBudget) / 2.0
    ensures var r := Next(b, tooHigh);
            b.minBudget <= b.maxBudget && b.targetBudget == (b.minBudget + b.maxBudget) / 2.0
            ==> b.minBudget <= r.minBudget <= r.maxBudget <= b.maxBudget
  {
  }

  /** The bracket of lines 13-16 that the loop starts from: [0, total budget], no pass run yet,
      its midpoint the first candidate. It meets the premises of the search lemmas below: its
      width is the total budget halved zero times, and it is ordered when the total is not
      negative. */
  function Start(req: Request): (b: Bracket)
    ensures b.iteration == 0 && b.minBudget == 0.0 && b.maxBudget == req.totalBudget
    ensures b.maxBudget - b.minBudget == Halved(req.totalBudget, b.iteration)
    ensures b.targetBudget == (b.minBudget + b.maxBudget) / 2.0
    ensures 0.0 <= req.totalBudget ==> b.minBudget <= b.maxBudget
  {
    Bracket(0.0, req.totalBudget, req.totalBudget / 2.0, 0)
  }

  /** A success of the loop reports the last candidate, the target's name and that candidate's
      costs, and the candidate's calculated budget is within the tolerance of the total budget. */
  lemma {:induction false} SearchSucceeds(req: Request, ads: seq<Ad>, index: nat, last: Option<real>, b: Bracket)
    requires index < |ads| && req.targetAd == Some(ads[index].adName)
    requires b.iteration <= MaxIterations + 1
    requires Search(req, ads, index, last, b).outcome.response.isSuccess
    decreases MaxIterations + 1 - b.iteration
    ensures var e := Search(req, ads, index, last, b);
            var c := CandidateCosts(req, ads, index, e.last.value);
            e.last.Some?
            && e.outcome.response == Success(e.last.value, ads[index].adName, c.totalAdSpend, c.agencyFee,
                                             c.thirdPartyFee, c.calculatedBudget)
            && Within(c.calculatedBudget, req.totalBudget, req.tolerance)
  {
    var c := CandidateCosts(req, ads, index, b.targetBudget);
    if !Within(c.calculatedBudget, req.totalBudget, req.tolerance) {
      SearchSucceeds(req, ads, index, Some(b.targetBudget), Next(b, c.calculatedBudget > req.totalBudget));
    }
  }

  /** While the candidate is the midpoint of an ordered bracket, the last candidate the loop writes
      into the target ad lies inside the bracket it started with. */
  lemma {:induction false} SearchStaysInBracket(req: Request, ads: seq<Ad>, index: nat, last: Option<real>, b: Bracket)
    requires index < |ads| && req.targetAd == Some(ads[index].adName)
    requires b.iteration <= MaxIterations + 1
    requires b.minBudget <= b.maxBudget && b.targetBudget == (b.minBudget + b.maxBudget) / 2.0
    decreases MaxIterations + 1 - b.iteration
    ensures var e := Search(req, ads, index, last, b);
            b.iteration < e.passes ==> b.minBudget <= e.last.value <= b.maxBudget
  {
    if b.maxBudget - b.minBudget > req.tolerance && b.iteration <= MaxIterations {
      var c := CandidateCosts(req, ads, index, b.targetBudget);
      if !Within(c.calculatedBudget, req.totalBudget, req.tolerance) {
        SearchStaysInBracket(req, ads, index, Some(b.targetBudget), Next(b, c.calculatedBudget > req.totalBudget));
      }
    }
  }

  /** Each pass that does not return halves the bracket, so the loop gives up only at the
      iteration cap or once the bracket, the total budget halved once per pass, is no wider than
      the tolerance. */
  lemma {:induction false} SearchGivesUpOnlyWhenNarrow(req: Request, ads: seq<Ad>, index: nat, last: Option<real>,
                                                       b: Bracket)
    requires index < |ads| && req.targetAd == Some(ads[index].adName)
    requires b.iteration <= MaxIterations + 1
    requires b.maxBudget - b.minBudget == Halved(req.totalBudget, b.iteration)
    requires b.targetBudget == (b.minBudget + b.maxBudget) / 2.0
    decreases MaxIterations + 1 - b.iteration
    ensures var e := Search(req, ads, index, last, b);
            !e.outcome.response.isSuccess
            ==> e.passes == MaxIterations + 1 || Halved(req.totalBudget, e.passes) <= req.tolerance
  {
    if b.maxBudget - b.minBudget > req.tolerance && b.iteration <= MaxIterations {
      var c := CandidateCosts(req, ads, index, b.targetBudget);
      if !Within(c.calculatedBudget, req.totalBudget, req.tolerance) {
        SearchGivesUpOnlyWhenNarrow(req, ads, index, Some(b.targetBudget),
                                    Next(b, c.calculatedBudget > req.totalBudget));
      }
    }
  }

  /** With a negative tolerance no candidate is ever accepted and an ordered bracket is always
      wider than the tolerance, so the loop runs until the counter passes the cap: the guard
      `iteration <= maxIterations` admits 1001 passes, not 1000. */
  lemma {:induction false} SearchRunsToCap(req: Request, ads: seq<Ad>, index: nat, last: Option<real>, b: Bracket)
    requires index < |ads| && req.targetAd == Some(ads[index].adName)
    requires b.iteration <= MaxIterations + 1
    requires req.tolerance < 0.0
    requires b.minBudget <= b.maxBudget && b.targetBudget == (b.minBudget + b.maxBudget) / 2.0
    decreases MaxIterations + 1 - b.iteration
    ensures var e := Search(req, ads, index, last, b);
            e.outcome == Returned(Failure(NotConvergedMessage)) && e.passes == MaxIterations + 1
  {
    if b.iteration <= MaxIterations {
      var c := CandidateCosts(req, ads, index, b.targetBudget);
      SearchRunsToCap(req, ads, index, Some(b.targetBudget), Next(b, c.calculatedBudget > req.totalBudget));
    }
  }

  /** The request passes both precondition checks of lines 19-32: the list is present, the ads
      not named like the target leave room in the total budget, and some ad bears the target's
      name, which is exactly when the lookup of line 27 does not return -1. */
  function Admissible(req: Request): (ok: bool)
    ensures ok <==> req.adBudgets.Some?
                    && NonTargetSpend(req.adBudgets.value, req.targetAd) < req.totalBudget
                    && FindIndex(req.adBudgets.value, req.targetAd) != -1
  {
    req.adBudgets.Some?
    && NonTargetSpend(req.adBudgets.value, req.targetAd) < req.totalBudget
    && exists j :: 0 <= j < |req.adBudgets.value| && IsTarget(req.adBudgets.value[j], req.targetAd)
  }

  /** `BudgetCalculator.GoalSeek`. */
  function GoalSeek(req: Request): (r: Run)
    // line 19 filters the ad list first, so a null list throws before anything else
    ensures req.adBudgets.None? ==> r == Run(Threw(ArgumentNullException("source")), req, 0)
    // lines 19-24: checked before the target lookup, so it wins when both fail
    ensures req.adBudgets.Some? && NonTargetSpend(req.adBudgets.value, req.targetAd) >= req.totalBudget
            ==> r == Run(Threw(ArgumentException(SumExceedsMessage)), req, 0)
    // lines 27-32
    ensures req.adBudgets.Some? && NonTargetSpend(req.adBudgets.value, req.targetAd) < req.totalBudget
            && (forall j :: 0 <= j < |req.adBudgets.value| ==> !IsTarget(req.adBudgets.value[j], req.targetAd))
            ==> r == Run(Threw(ArgumentException(TargetNotFoundMessage)), req, 0)
    ensures r.outcome.Returned? <==> Admissible(req)
    ensures r.outcome.Returned? && !r.outcome.response.isSuccess
            ==> r.outcome.response == Failure(NotConvergedMessage)
    ensures r.outcome.Returned? && r.outcome.response.isSuccess ==> 1 <= r.passes
    ensures r.passes <= MaxIterations + 1
    // only the ad list can change, only at the first ad bearing the target's name, and not at
    // all when the loop body never ran
    ensures r.after.(adBudgets := req.adBudgets) == req
    ensures r.passes == 0 ==> r.after == req
    ensures Admissible(req) ==>
              var ads := req.adBudgets.value;
              var i := FindIndex(ads, req.targetAd);
              0 <= i && r.after.adBudgets.Some? && SameExceptBudgetAt(r.after.adBudgets.value, ads, i)
    // a tolerance as wide as the total budget stops the loop before its first pass
    ensures Admissible(req) && req.tolerance >= req.totalBudget
            ==> r == Run(Returned(Failure(NotConvergedMessage)), req, 0)
  {
    match req.adBudgets
    case None => Run(Threw(ArgumentNullException("source")), req, 0)
    case Some(ads) =>
      if NonTargetSpend(ads, req.targetAd) >= req.totalBudget then
        Run(Threw(ArgumentException(SumExceedsMessage)), req, 0)
      else
        var index := FindIndex(ads, req.targetAd);
        if index == -1 then
          Run(Threw(ArgumentException(TargetNotFoundMessage)), req, 0)
        else
          var e := Search(req, ads, index, None, Start(req));
          Run(e.outcome, req.(adBudgets := Some(Written(ads, index, e.last))), e.passes)
  }

  /** Once both precondition checks pass, `GoalSeek` is the bisection started from the bracket
      [0, total budget] with the target ad found by the lookup of line 27. */
  lemma GoalSeekStartsSearch(req: Request)
    requires req.adBudgets.Some? && NonTargetSpend(req.adBudgets.value, req.targetAd) < req.totalBudget
    requires FindIndex(req.adBudgets.value, req.targetAd) != -1
    ensures var ads := req.adBudgets.value;
            var index := FindIndex(ads, req.targetAd);
            var e := Search(req, ads, index, None, Start(req));
            GoalSeek(req) == Run(e.outcome, req.(adBudgets := Some(Written(ads, index, e.last))), e.passes)
  {
  }

  /** Every success reports the target's name from the request, a budget that is the one now
      stored in the first ad of that name, the costs of the ads as they now stand, a calculated
      total within the tolerance of the total budget, and a budget that solves the cost equation
      for the ads as the caller passed them. */
  lemma GoalSeekSuccessSolves(req: Request)
    requires GoalSeek(req).outcome.Returned? && GoalSeek(req).outcome.response.isSuccess
    ensures var r := GoalSeek(req);
            var ads := req.adBudgets.value;
            var i := FindIndex(ads, req.targetAd);
            0 <= i && r.after.adBudgets.Some? && Some(ads[i].adName) == req.targetAd
            && Solves(req, ads, i, r.after.adBudgets.value, r.outcome.response)
  {
    var ads := req.adBudgets.value;
    var index := FindIndex(ads, req.targetAd);
    GoalSeekStartsSearch(req);
    var e := Search(req, ads, index, None, Start(req));
    SearchSucceeds(req, ads, index, None, Start(req));
    CostsOfCandidate(req, ads, index, e.last.value);
  }

  /** For a non-negative total budget, a successful budget lies between 0 and the total budget. */
  lemma GoalSeekBudgetInRange(req: Request)
    requires GoalSeek(req).outcome.Returned? && GoalSeek(req).outcome.response.isSuccess
    requires 0.0 <= req.totalBudget
    ensures var b := Payload(GoalSeek(req).outcome.response);
            b.Some? && 0.0 <= b.value.budget <= req.totalBudget
  {
    var ads := req.adBudgets.value;
    var index := FindIndex(ads, req.targetAd);
    GoalSeekStartsSearch(req);
    SearchSucceeds(req, ads, index, None, Start(req));
    SearchStaysInBracket(req, ads, index, None, Start(req));
  }

  /** The loop gives up with the failure response only after 1001 passes or once the bracket,
      halved in each pass, is no wider than the tolerance. */
  lemma GoalSeekGivesUpOnlyWhenNarrow(req: Request)
    requires GoalSeek(req).outcome.Returned? && !GoalSeek(req).outcome.response.isSuccess
    ensures var r := GoalSeek(req);
            r.passes == MaxIterations + 1 || Halved(req.totalBudget, r.passes) <= req.tolerance
  {
    var ads := req.adBudgets.value;
    var index := FindIndex(ads, req.targetAd);
    GoalSeekStartsSearch(req);
    SearchGivesUpOnlyWhenNarrow(req, ads, index, None, Start(req));
  }

  /** A failed search leaves in the target ad a candidate that missed: every pass that did not
      return had a calculated budget outside the tolerance, the last one included. */
  lemma {:induction false} SearchFailsAfterMisses(req: Request, ads: seq<Ad>, index: nat, last: Option<real>,
                                                  b: Bracket)
    requires index < |ads| && req.targetAd == Some(ads[index].adName)
    requires b.iteration <= MaxIterations + 1
    requires last.Some? ==> !Within(CandidateCosts(req, ads, index, last.value).calculatedBudget,
                                    req.totalBudget, req.tolerance)
    decreases MaxIterations + 1 - b.iteration
    ensures var e := Search(req, ads, index, last, b);
            !e.outcome.response.isSuccess && e.last.Some?
            ==> !Within(CandidateCosts(req, ads, index, e.last.value).calculatedBudget,
                        req.totalBudget, req.tolerance)
  {
    if b.maxBudget - b.minBudget > req.tolerance && b.iteration <= MaxIterations {
      var c := CandidateCosts(req, ads, index, b.targetBudget);
      if !Within(c.calculatedBudget, req.totalBudget, req.tolerance) {
        SearchFailsAfterMisses(req, ads, index, Some(b.targetBudget), Next(b, c.calculatedBudget > req.totalBudget));
      }
    }
  }

  /** After a "Max iterations reached" response that followed at least one pass, the first ad
      bearing the target's name holds the last candidate tried: a budget whose costs, summed
      over the list as it now stands, miss the tolerance, and which lies in [0, total budget]
      when the total budget is not negative. */
  lemma GoalSeekFailureLeavesMiss(req: Request)
    requires GoalSeek(req).outcome.Returned? && !GoalSeek(req).outcome.response.isSuccess
    requires 0 < GoalSeek(req).passes
    ensures var r := GoalSeek(req);
            var i := FindIndex(req.adBudgets.value, req.targetAd);
            0 <= i && r.after.adBudgets.Some? && i < |r.after.adBudgets.value|
            && !Within(ComputeCosts(req, r.after.adBudgets.value).calculatedBudget, req.totalBudget, req.tolerance)
            && (0.0 <= req.totalBudget ==> 0.0 <= r.after.adBudgets.value[i].budget <= req.totalBudget)
  {
    var ads := req.adBudgets.value;
    var index := FindIndex(ads, req.targetAd);
    GoalSeekStartsSearch(req);
    var e := Search(req, ads, index, None, Start(req));
    SearchFailsAfterMisses(req, ads, index, None, Start(req));
    if 0.0 <= req.totalBudget {
      SearchStaysInBracket(req, ads, index, None, Start(req));
    }
    CostsOfCandidate(req, ads, index, e.last.value);
  }

  /** An admissible request with a negative tolerance and a non-negative total budget (the
      validator rejects the former, the calculator does not check it) makes the loop run 1001
      times and fail. */
  lemma GoalSeekRunsToCap(req: Request)
    requires Admissible(req) && req.tolerance < 0.0 && 0.0 <= req.totalBudget
    ensures GoalSeek(req).outcome == Returned(Failure(NotConvergedMessage))
    ensures GoalSeek(req).passes == MaxIterations + 1
  {
    var ads := req.adBudgets.value;
    var index := FindIndex(ads, req.targetAd);
    GoalSeekStartsSearch(req);
    SearchRunsToCap(req, ads, index, None, Start(req));
  }

  /** A pass whose calculated budget is within the tolerance ends the search with that success. */
  lemma SearchHits(req: Request, ads: seq<Ad>, index: nat, last: Option<real>, b: Bracket)
    requires index < |ads| && req.targetAd == Some(ads[index].adName)
    requires b.iteration <= MaxIterations && b.maxBudget - b.minBudget > req.tolerance
    requires Within(CandidateCosts(req, ads, index, b.targetBudget).calculatedBudget, req.totalBudget, req.tolerance)
    ensures var c := CandidateCosts(req, ads, index, b.targetBudget);
            Search(req, ads, index, last, b)
            == SearchEnd(Returned(Success(b.targetBudget, req.targetAd.value, c.totalAdSpend, c.agencyFee,
                                          c.thirdPartyFee, c.calculatedBudget)),
                         Some(b.targetBudget), b.iteration + 1)
  {
  }

  /** A pass that misses moves one bound to the candidate: the upper one when the calculated
      budget is too high, the lower one otherwise. The search goes on from the new bracket. */
  lemma SearchMoves(req: Request, ads: seq<Ad>, index: nat, last: Option<real>, b: Bracket, lo: real, hi: real)
    requires index < |ads| && req.targetAd == Some(ads[index].adName)
    requires b.iteration <= MaxIterations && b.maxBudget - b.minBudget > req.tolerance
    requires var c := CandidateCosts(req, ads, index, b.targetBudget).calculatedBudget;
             !Within(c, req.totalBudget, req.tolerance)
             && lo == (if c > req.totalBudget then b.minBudget else b.targetBudget)
             && hi == (if c > req.totalBudget then b.targetBudget else b.maxBudget)
    ensures Search(req, ads, index, last, b)
            == Search(req, ads, index, Some(b.targetBudget), Bracket(lo, hi, (hi + lo) / 2.0, b.iteration + 1))
  {
  }

  /** `GoalSeek` as the source writes it: the two precondition checks with their early exits,
      then the loop. It computes exactly what the model `GoalSeek` describes. */
  method GoalSeekLoop(req: Request) returns (outcome: Outcome, after: Request, passes: nat)
    ensures Run(outcome, after, passes) == GoalSeek(req)
  {
    if req.adBudgets.None? {
      return Threw(ArgumentNullException("source")), req, 0;
    }
    var ads := req.adBudgets.value;
    var checkAdSpend := NonTargetSpend(ads, req.targetAd);
    if checkAdSpend >= req.totalBudget {
      return Threw(ArgumentException(SumExceedsMessage)), req, 0;
    }
    var targetAdIndex := FindIndex(ads, req.targetAd);
    if targetAdIndex == -1 {
      return Threw(ArgumentException(TargetNotFoundMessage)), req, 0;
    }
    var written;
    outcome, written, passes := Bisect(req, ads, targetAdIndex);
    GoalSeekStartsSearch(req);
    after := req.(adBudgets := Some(written));
  }

  /** The `while` loop of lines 35-82 with its local bounds and counter, overwriting the target
      ad's budget in the list in each pass and summing over the whole list. */
  method Bisect(req: Request, ads: seq<Ad>, targetAdIndex: nat) returns (outcome: Outcome, written: seq<Ad>, passes: nat)
    requires targetAdIndex < |ads| && req.targetAd == Some(ads[targetAdIndex].adName)
    ensures var e := Search(req, ads, targetAdIndex, None, Start(req));
            outcome == e.outcome && written == Written(ads, targetAdIndex, e.last) && passes == e.passes
  {
    var maxBudget := req.totalBudget;
    var minBudget := 0.0;
    var targetBudget := maxBudget / 2.0;
    var iteration: nat := 0;
    written := ads;

    ghost var last: Option<real> := None;
    while maxBudget - minBudget > req.tolerance && iteration <= MaxIterations
      invariant iteration <= MaxIterations + 1
      invariant written == Written(ads, targetAdIndex, last)
      invariant Search(req, ads, targetAdIndex, last, Bracket(minBudget, maxBudget, targetBudget, iteration))
                == Search(req, ads, targetAdIndex, None, Start(req))
      decreases MaxIterations + 1 - iteration
    {
      ghost var b := Bracket(minBudget, maxBudget, targetBudget, iteration);
      WriteOverWritten(ads, targetAdIndex, last, targetBudget);
      written := SetBudget(written, targetAdIndex, targetBudget);
      var costs := PassCosts(req, ads, targetAdIndex, targetBudget, written);

      if Within(costs.calculatedBudget, req.totalBudget, req.tolerance) {
        SearchHits(req, ads, targetAdIndex, last, b);
        return Returned(Success(targetBudget, req.targetAd.value, costs.totalAdSpend, costs.agencyFee,
                                costs.thirdPartyFee, costs.calculatedBudget)),
               written, iteration + 1;
      }
      if costs.calculatedBudget > req.totalBudget {
        maxBudget := targetBudget;
      } else {
        minBudget := targetBudget;
      }
      SearchMoves(req, ads, targetAdIndex, last, b, minBudget, maxBudget);
      last := Some(targetBudget);
      iteration := iteration + 1;
      targetBudget := (maxBudget + minBudget) / 2.0;
    }
    return Returned(Failure(NotConvergedMessage)), written, iteration;
  }

  /** Lines 41-55: the pass's costs, summed over the whole list with the candidate `x` written
      into the target ad. They are the closed-form costs of `x`. */
  method PassCosts(req: Request, ads: seq<Ad>, index: nat, x: real, written: seq<Ad>) returns (costs: Costs)
    requires index < |ads| && written == SetBudget(ads, index, x)
    ensures costs == CandidateCosts(req, ads, index, x)
  {
    var totalAdSpend := TotalSpend(written);
    var agencyFee := req.agencyFee * totalAdSpend;
    var thirdPartyFee := ToolSpend(written) * req.thirdPartyFee;
    var calculatedBudget := totalAdSpend + agencyFee + thirdPartyFee + req.fixedCosts;
    CostsOfCandidate(req, ads, index, x);
    costs := Costs(totalAdSpend, agencyFee, thirdPartyFee, calculatedBudget);
  }
}
