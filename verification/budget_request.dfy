/** The request record the calculator and the validator both read (Models/BudgetRequest.cs),
    its ad line items, and the sums the calculator takes over them. */
module BudgetRequests {
  import opened Wrappers

  /** One advertising line item (`AdBudget`). Only the budget of the target ad is ever
      overwritten by the calculator. */
  datatype Ad = Ad(adName: string, budget: real, usesThirdPartyTool: bool)

  /** `BudgetRequest`. Money and rates are exact reals; `targetAd` and `adBudgets` may be null
      when the request was decoded from a caller's data, hence the options. */
  datatype Request = Request(
    totalBudget: real,
    agencyFee: real,
    thirdPartyFee: real,
    fixedCosts: real,
    targetAd: Option<string>,
    adBudgets: Option<seq<Ad>>,
    tolerance: real)

  /** C#'s `ad.AdName == request.TargetAd`: ordinal string equality; a null target equals no name. */
  predicate IsTarget(ad: Ad, target: Option<string>) {
    target == Some(ad.adName)
  }

  /** Sum of every budget in the list. */
  function TotalSpend(ads: seq<Ad>): real {
    if ads == [] then 0.0 else ads[0].budget + TotalSpend(ads[1..])
  }

  /** Sum of the budgets of the ads that use a third-party tool. */
  function ToolSpend(ads: seq<Ad>): real {
    if ads == [] then 0.0
    else (if ads[0].usesThirdPartyTool then ads[0].budget else 0.0) + ToolSpend(ads[1..])
  }

  /** Sum of the budgets of the ads NOT named like the target (every such ad is excluded). */
  function NonTargetSpend(ads: seq<Ad>, target: Option<string>): real {
    if ads == [] then 0.0
    else (if IsTarget(ads[0], target) then 0.0 else ads[0].budget) + NonTargetSpend(ads[1..], target)
  }

  /** The sum that leaves out the ads named like the target is the whole spend when no ad bears
      the name, nothing when every ad does, and with non-negative budgets between nothing and the
      whole spend. */
  lemma {:induction false} NonTargetSpendBounds(ads: seq<Ad>, target: Option<string>)
    ensures (forall j :: 0 <= j < |ads| ==> !IsTarget(ads[j], target)) ==> NonTargetSpend(ads, target) == TotalSpend(ads)
    ensures (forall j :: 0 <= j < |ads| ==> IsTarget(ads[j], target)) ==> NonTargetSpend(ads, target) == 0.0
    ensures (forall j :: 0 <= j < |ads| ==> 0.0 <= ads[j].budget)
            ==> 0.0 <= NonTargetSpend(ads, target) <= TotalSpend(ads)
  {
    if ads != [] {
      NonTargetSpendBounds(ads[1..], target);
      assert forall j :: 0 <= j < |ads[1..]| ==> ads[1..][j] == ads[j + 1];
    }
  }

  /** Sum of the budgets of the ads named like the target (duplicates included). */
  function TargetSpend(ads: seq<Ad>, target: Option<string>): real {
    if ads == [] then 0.0
    else (if IsTarget(ads[0], target) then ads[0].budget else 0.0) + TargetSpend(ads[1..], target)
  }

  /** `List.FindIndex`: the first position whose ad is named like the target, or -1. */
  function FindIndex(ads: seq<Ad>, target: Option<string>): (i: int)
    ensures -1 <= i < |ads|
    ensures i == -1 <==> forall j :: 0 <= j < |ads| ==> !IsTarget(ads[j], target)
    ensures 0 <= i ==> IsTarget(ads[i], target) && forall j :: 0 <= j < i ==> !IsTarget(ads[j], target)
  {
    if ads == [] then -1
    else if IsTarget(ads[0], target) then 0
    else
      var k := FindIndex(ads[1..], target);
      if k == -1 then -1 else k + 1
  }

  /** The in-place write `AdBudgets[i].Budget = b`, as a new list. */
  function SetBudget(ads: seq<Ad>, i: nat, b: real): (r: seq<Ad>)
    requires i < |ads|
    ensures |r| == |ads|
    ensures r[i] == Ad(ads[i].adName, b, ads[i].usesThirdPartyTool)
    ensures forall j :: 0 <= j < |ads| && j != i ==> r[j] == ads[j]
    ensures SameExceptBudgetAt(r, ads, i)
  {
    ads[i := ads[i].(budget := b)]
  }

  /** Two lists that differ at most in the budget of position `i`: `a` is `b` with the budget
      at `i` overwritten. */
  predicate SameExceptBudgetAt(a: seq<Ad>, b: seq<Ad>, i: nat) {
    |a| == |b| && i < |a| && a == b[i := b[i].(budget := a[i].budget)]
  }

  /** Overwriting one budget changes the total spend by exactly the difference. */
  lemma {:induction false} TotalSpendSetBudget(ads: seq<Ad>, i: nat, b: real)
    requires i < |ads|
    ensures TotalSpend(SetBudget(ads, i, b)) == TotalSpend(ads) - ads[i].budget + b
  {
    var s := SetBudget(ads, i, b);
    if i == 0 {
      assert s[1..] == ads[1..];
    } else {
      TotalSpendSetBudget(ads[1..], i - 1, b);
      assert s[1..] == SetBudget(ads[1..], i - 1, b);
    }
  }

  /** Overwriting one budget changes the tool spend by the difference iff that ad uses a tool. */
  lemma {:induction false} ToolSpendSetBudget(ads: seq<Ad>, i: nat, b: real)
    requires i < |ads|
    ensures ToolSpend(SetBudget(ads, i, b))
         == ToolSpend(ads) + (if ads[i].usesThirdPartyTool then b - ads[i].budget else 0.0)
  {
    var s := SetBudget(ads, i, b);
    if i == 0 {
      assert s[1..] == ads[1..];
    } else {
      ToolSpendSetBudget(ads[1..], i - 1, b);
      assert s[1..] == SetBudget(ads[1..], i - 1, b);
    }
  }

  /** Every budget is either a target's or a non-target's. */
  lemma {:induction false} SpendPartition(ads: seq<Ad>, target: Option<string>)
    ensures TotalSpend(ads) == NonTargetSpend(ads, target) + TargetSpend(ads, target)
  {
    if ads != [] {
      SpendPartition(ads[1..], target);
    }
  }

  /** When the name occurs only at position `i`, the target spend is that one ad's budget. */
  lemma {:induction false} TargetSpendOfUniqueName(ads: seq<Ad>, target: Option<string>, i: nat)
    requires i < |ads| && IsTarget(ads[i], target)
    requires forall j :: 0 <= j < |ads| && j != i ==> !IsTarget(ads[j], target)
    ensures TargetSpend(ads, target) == ads[i].budget
  {
    if i == 0 {
      NoTargetSpend(ads[1..], target);
    } else {
      TargetSpendOfUniqueName(ads[1..], target, i - 1);
    }
  }

  /** When no ad bears the target's name, the target spend is zero. */
  lemma {:induction false} NoTargetSpend(ads: seq<Ad>, target: Option<string>)
    requires forall j :: 0 <= j < |ads| ==> !IsTarget(ads[j], target)
    ensures TargetSpend(ads, target) == 0.0
  {
    if ads != [] {
      NoTargetSpend(ads[1..], target);
    }
  }
}
