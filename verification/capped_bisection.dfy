/** The bisection with the loop guard of Services/BudgetCalculator.cs line 35 reduced to its
    iteration cap. As written, the loop also stops once the bracket of candidate budgets is no
    wider than the tolerance; but the tolerance bounds the calculated budget, which moves up to
    three times as fast as the candidate, so a narrow bracket can still hold no candidate the
    loop would accept, and the loop then reports "Max iterations reached" after a few passes
    for a request it could solve. Without that test the search gives up only at the cap, and,
    the calculated budget being linear in the candidate, it converges whenever that linear cost
    reaches the total budget between a zero and a full target budget and the bracket gets narrow
    enough before the cap. */
module CappedBisection {
  import opened Wrappers
  import opened BudgetRequests
  import opened BudgetResponses
  import opened BudgetCalculator

  /** The rate at which the calculated budget grows with the target ad's budget: the ad spend
      itself, the agency fee on it, and the third-party fee when the target uses a tool. */
  function Slope(req: Request, ad: Ad): real {
    1.0 + req.agencyFee + (if ad.usesThirdPartyTool then req.thirdPartyFee else 0.0)
  }

  /** The calculated budget is linear in the candidate, with slope `Slope`. */
  lemma CostLinear(req: Request, ads: seq<Ad>, i: nat, x: real, y: real)
    requires i < |ads|
    ensures CandidateCosts(req, ads, i, y).calculatedBudget - CandidateCosts(req, ads, i, x).calculatedBudget
            == Slope(req, ads[i]) * (y - x)
  {
    var others := TotalSpend(ads) - ads[i].budget;
    var toolOthers := ToolSpend(ads) - (if ads[i].usesThirdPartyTool then ads[i].budget else 0.0);
    assert req.agencyFee * (y + others) - req.agencyFee * (x + others) == req.agencyFee * (y - x);
    if ads[i].usesThirdPartyTool {
      assert (toolOthers + y) * req.thirdPartyFee - (toolOthers + x) * req.thirdPartyFee
             == req.thirdPartyFee * (y - x);
    }
  }

  /** The loop of lines 35-82 with the width test dropped from its guard: it runs while the
      counter is at most the cap, and a pass that misses moves a bound exactly as the source
      does. It gives up only after 1001 passes, and a success is a candidate whose calculated
      budget is within the tolerance. */
  function CappedSearch(req: Request, ads: seq<Ad>, index: nat, last: Option<real>, b: Bracket): (e: SearchEnd)
    requires index < |ads| && req.targetAd == Some(ads[index].adName)
    requires b.iteration <= MaxIterations + 1
    decreases MaxIterations + 1 - b.iteration
    ensures e.outcome.Returned?
    ensures b.iteration <= e.passes <= MaxIterations + 1
    ensures !e.outcome.response.isSuccess
            ==> e.outcome.response == Failure(NotConvergedMessage) && e.passes == MaxIterations + 1
    ensures e.outcome.response.isSuccess
            ==> e.last.Some?
                && Within(CandidateCosts(req, ads, index, e.last.value).calculatedBudget,
                          req.totalBudget, req.tolerance)
  {
    if b.iteration > MaxIterations then
      SearchEnd(Returned(Failure(NotConvergedMessage)), last, b.iteration)
    else
      var c := CandidateCosts(req, ads, index, b.targetBudget);
      if Within(c.calculatedBudget, req.totalBudget, req.tolerance) then
        SearchEnd(Returned(Success(b.targetBudget, req.targetAd.value, c.totalAdSpend, c.agencyFee,
                                   c.thirdPartyFee, c.calculatedBudget)),
                  Some(b.targetBudget), b.iteration + 1)
      else
        CappedSearch(req, ads, index, Some(b.targetBudget), Next(b, c.calculatedBudget > req.totalBudget))
  }

  /** `GoalSeek` with the capped loop: the same precondition checks and exceptions, then the
      capped search from the same starting bracket. */
  function GoalSeekCapped(req: Request): (r: Run)
    ensures req.adBudgets.None? ==> r == Run(Threw(ArgumentNullException("source")), req, 0)
    ensures req.adBudgets.Some? && NonTargetSpend(req.adBudgets.value, req.targetAd) >= req.totalBudget
            ==> r == Run(Threw(ArgumentException(SumExceedsMessage)), req, 0)
    ensures req.adBudgets.Some? && NonTargetSpend(req.adBudgets.value, req.targetAd) < req.totalBudget
            && (forall j :: 0 <= j < |req.adBudgets.value| ==> !IsTarget(req.adBudgets.value[j], req.targetAd))
            ==> r == Run(Threw(ArgumentException(TargetNotFoundMessage)), req, 0)
    ensures r.outcome.Returned? <==> Admissible(req)
    ensures r.outcome.Returned? && !r.outcome.response.isSuccess
            ==> r.outcome.response == Failure(NotConvergedMessage) && r.passes == MaxIterations + 1
    ensures r.passes <= MaxIterations + 1
    ensures r.after.(adBudgets := req.adBudgets) == req
    ensures r.passes == 0 ==> r.after == req
    ensures Admissible(req) ==>
              var ads := req.adBudgets.value;
              var i := FindIndex(ads, req.targetAd);
              0 <= i && r.after.adBudgets.Some? && SameExceptBudgetAt(r.after.adBudgets.value, ads, i)
  {
    if !Admissible(req) then GoalSeek(req)
    else
      var ads := req.adBudgets.value;
      var index := FindIndex(ads, req.targetAd);
      var e := CappedSearch(req, ads, index, None, Start(req));
      Run(e.outcome, req.(adBudgets := Some(Written(ads, index, e.last))), e.passes)
  }

  /** A pass of the capped loop whose calculated budget is within the tolerance is its last. */
  lemma CappedSearchHits(req: Request, ads: seq<Ad>, index: nat, last: Option<real>, b: Bracket)
    requires index < |ads| && req.targetAd == Some(ads[index].adName)
    requires b.iteration <= MaxIterations
    requires Within(CandidateCosts(req, ads, index, b.targetBudget).calculatedBudget, req.totalBudget, req.tolerance)
    ensures var e := CappedSearch(req, ads, index, last, b);
            e.outcome.response.isSuccess && e.passes == b.iteration + 1
  {
  }

  /** A pass of the capped loop that misses goes on from the bracket the source's loop moves to. */
  lemma CappedSearchMisses(req: Request, ads: seq<Ad>, index: nat, last: Option<real>, b: Bracket)
    requires index < |ads| && req.targetAd == Some(ads[index].adName)
    requires b.iteration <= MaxIterations
    requires !Within(CandidateCosts(req, ads, index, b.targetBudget).calculatedBudget, req.totalBudget, req.tolerance)
    ensures var c := CandidateCosts(req, ads, index, b.targetBudget).calculatedBudget;
            CappedSearch(req, ads, index, last, b)
            == CappedSearch(req, ads, index, Some(b.targetBudget), Next(b, c > req.totalBudget))
  {
  }

  /** The candidate's calculated budget at the lower bound is at most the total budget and at
      the upper bound at least the total budget, the bracket is the total budget halved once
      per pass, and the candidate is its midpoint. */
  predicate Straddles(req: Request, ads: seq<Ad>, index: nat, b: Bracket)
    requires index < |ads|
  {
    CandidateCosts(req, ads, index, b.minBudget).calculatedBudget <= req.totalBudget
    <= CandidateCosts(req, ads, index, b.maxBudget).calculatedBudget
    && b.maxBudget - b.minBudget == Halved(req.totalBudget, b.iteration)
    && b.targetBudget == (b.minBudget + b.maxBudget) / 2.0
  }

  /** A pass that misses keeps the root inside the bracket: the bound it moves to the candidate
      is on the same side of the total budget as the bound it replaces. */
  lemma {:induction false} NextStraddles(req: Request, ads: seq<Ad>, index: nat, b: Bracket)
    requires index < |ads| && Straddles(req, ads, index, b)
    ensures var c := CandidateCosts(req, ads, index, b.targetBudget).calculatedBudget;
            Straddles(req, ads, index, Next(b, c > req.totalBudget))
  {
    var c := CandidateCosts(req, ads, index, b.targetBudget).calculatedBudget;
    var n := Next(b, c > req.totalBudget);
    assert n.maxBudget - n.minBudget == (b.maxBudget - b.minBudget) / 2.0;
  }

  /** Once the bracket straddles the root, the capped search succeeds by pass `n + 1` whenever
      the calculated budget moves by at most twice the tolerance across the bracket of pass `n`:
      the candidate of that pass, the midpoint, is then within the tolerance. */
  lemma {:induction false} CappedSearchConverges(req: Request, ads: seq<Ad>, index: nat, last: Option<real>,
                                                 b: Bracket, n: nat, width: real)
    requires index < |ads| && req.targetAd == Some(ads[index].adName)
    requires b.iteration <= n <= MaxIterations
    requires Straddles(req, ads, index, b)
    requires width == Halved(req.totalBudget, n) && Slope(req, ads[index]) * width <= 2.0 * req.tolerance
    decreases n - b.iteration
    ensures var e := CappedSearch(req, ads, index, last, b);
            e.outcome.response.isSuccess && e.passes <= n + 1
  {
    var c := CandidateCosts(req, ads, index, b.targetBudget).calculatedBudget;
    if b.iteration == n {
      LastPassWithin(req, ads, index, b);
      CappedSearchHits(req, ads, index, last, b);
    } else if Within(c, req.totalBudget, req.tolerance) {
      CappedSearchHits(req, ads, index, last, b);
    } else {
      NextStraddles(req, ads, index, b);
      CappedSearchMisses(req, ads, index, last, b);
      CappedSearchConverges(req, ads, index, Some(b.targetBudget), Next(b, c > req.totalBudget), n, width);
    }
  }

  /** A straddling bracket over which the calculated budget spans at most twice the tolerance
      has its midpoint within the tolerance. */
  lemma LastPassWithin(req: Request, ads: seq<Ad>, index: nat, b: Bracket)
    requires index < |ads| && Straddles(req, ads, index, b)
    requires Slope(req, ads[index]) * (b.maxBudget - b.minBudget) <= 2.0 * req.tolerance
    ensures Within(CandidateCosts(req, ads, index, b.targetBudget).calculatedBudget, req.totalBudget, req.tolerance)
  {
    CostLinear(req, ads, index, b.minBudget, b.maxBudget);
    CostMidpoint(req, ads, index, b.minBudget, b.maxBudget);
    MidpointWithin(CandidateCosts(req, ads, index, b.minBudget).calculatedBudget,
                   CandidateCosts(req, ads, index, b.targetBudget).calculatedBudget,
                   CandidateCosts(req, ads, index, b.maxBudget).calculatedBudget,
                   req.totalBudget, req.tolerance);
  }

  /** The calculated budget of the midpoint of two candidates is the mean of theirs. */
  lemma CostMidpoint(req: Request, ads: seq<Ad>, i: nat, x: real, y: real)
    requires i < |ads|
    ensures CandidateCosts(req, ads, i, (x + y) / 2.0).calculatedBudget
            == (CandidateCosts(req, ads, i, x).calculatedBudget + CandidateCosts(req, ads, i, y).calculatedBudget) / 2.0
  {
    CostLinear(req, ads, i, x, (x + y) / 2.0);
    CostLinear(req, ads, i, x, y);
    HalfSpan(Slope(req, ads[i]), y - x);
    assert (x + y) / 2.0 - x == (y - x) / 2.0;
  }

  /** The corrected goal seek solves every admissible request whose cost has a root between a
      zero and a full target budget, by pass `n + 1` for any `n` up to the cap at which the
      calculated budget spans at most twice the tolerance over a bracket of `Halved(total, n)`. */
  lemma GoalSeekCappedConverges(req: Request, n: nat)
    requires Admissible(req)
    requires var ads := req.adBudgets.value;
             var i := FindIndex(ads, req.targetAd);
             0 <= i
             && CandidateCosts(req, ads, i, 0.0).calculatedBudget <= req.totalBudget
                <= CandidateCosts(req, ads, i, req.totalBudget).calculatedBudget
             && Slope(req, ads[i]) * Halved(req.totalBudget, n) <= 2.0 * req.tolerance
    requires n <= MaxIterations
    ensures var r := GoalSeekCapped(req);
            r.outcome.Returned? && r.outcome.response.isSuccess && 1 <= r.passes <= n + 1
  {
    var ads := req.adBudgets.value;
    var i := FindIndex(ads, req.targetAd);
    CappedSearchConverges(req, ads, i, None, Start(req), n, Halved(req.totalBudget, n));
  }

  /** Halving the width halves the span of a linear function over it. */
  lemma HalfSpan(s: real, w: real)
    ensures s * (w / 2.0) == s * w / 2.0
  {
  }

  /** The mean of two values that enclose `target` and lie at most twice the tolerance apart is
      within the tolerance of `target`. */
  lemma MidpointWithin(lo: real, mid: real, hi: real, target: real, tolerance: real)
    requires mid == (lo + hi) / 2.0
    requires lo <= target <= hi && hi - lo <= 2.0 * tolerance
    ensures Within(mid, target, tolerance)
  {
  }

  /** Where the source's loop succeeds, the capped loop takes the same passes to the same end:
      dropping the width test only changes how the loop gives up. */
  lemma {:induction false} CappedSearchAgrees(req: Request, ads: seq<Ad>, index: nat, last: Option<real>, b: Bracket)
    requires index < |ads| && req.targetAd == Some(ads[index].adName)
    requires b.iteration <= MaxIterations + 1
    requires Search(req, ads, index, last, b).outcome.response.isSuccess
    decreases MaxIterations + 1 - b.iteration
    ensures CappedSearch(req, ads, index, last, b) == Search(req, ads, index, last, b)
  {
    var c := CandidateCosts(req, ads, index, b.targetBudget);
    if !Within(c.calculatedBudget, req.totalBudget, req.tolerance) {
      CappedSearchAgrees(req, ads, index, Some(b.targetBudget), Next(b, c.calculatedBudget > req.totalBudget));
    }
  }

  /** Every success of `GoalSeek` is also the result of `GoalSeekCapped`, ad list included. */
  lemma GoalSeekCappedAgrees(req: Request)
    requires GoalSeek(req).outcome.Returned? && GoalSeek(req).outcome.response.isSuccess
    ensures GoalSeekCapped(req) == GoalSeek(req)
  {
    var ads := req.adBudgets.value;
    var index := FindIndex(ads, req.targetAd);
    GoalSeekStartsSearch(req);
    CappedSearchAgrees(req, ads, index, None, Start(req));
  }
}
