/** The calculator's answer record (Models/BudgetResponse.cs): a success flag, a message and
    six nullable result fields that only a success fills in. */
module BudgetResponses {
  import opened Wrappers

  datatype BudgetResponse = BudgetResponse(
    isSuccess: bool,
    message: Option<string>,
    budget: Option<real>,
    targetAd: Option<string>,
    totalAdSpend: Option<real>,
    agencyFeeSpend: Option<real>,
    thirdPartyFeeSpend: Option<real>,
    calculatedTotalBudget: Option<real>)

  /** The six values a success carries, in the order `Success` takes them. */
  datatype Breakdown = Breakdown(
    budget: real,
    targetAd: string,
    totalAdSpend: real,
    agencyFeeSpend: real,
    thirdPartyFeeSpend: real,
    calculatedTotalBudget: real)

  const SuccessMessage := "Budget calculated successfully."
  const FailurePrefix := "Failure: "

  /** Reads the six result fields back out of a successful response; `None` when the response
      is not a success or any of the fields is null. */
  function Payload(r: BudgetResponse): Option<Breakdown> {
    if r.isSuccess && r.budget.Some? && r.targetAd.Some? && r.totalAdSpend.Some?
       && r.agencyFeeSpend.Some? && r.thirdPartyFeeSpend.Some? && r.calculatedTotalBudget.Some?
    then Some(Breakdown(r.budget.value, r.targetAd.value, r.totalAdSpend.value,
                        r.agencyFeeSpend.value, r.thirdPartyFeeSpend.value,
                        r.calculatedTotalBudget.value))
    else None
  }

  /** True when none of the six result fields is set. */
  predicate CarriesNoResult(r: BudgetResponse) {
    r.budget.None? && r.targetAd.None? && r.totalAdSpend.None? && r.agencyFeeSpend.None?
    && r.thirdPartyFeeSpend.None? && r.calculatedTotalBudget.None?
  }

  /** `BudgetResponse.Success`: a success whose fields read back as exactly its arguments. */
  function Success(budget: real, targetAd: string, totalAdSpend: real, agencyFeeSpend: real,
                   thirdPartyFeeSpend: real, calculatedTotalBudget: real): (r: BudgetResponse)
    ensures r.isSuccess && r.message == Some(SuccessMessage)
    ensures Payload(r) == Some(Breakdown(budget, targetAd, totalAdSpend, agencyFeeSpend,
                                         thirdPartyFeeSpend, calculatedTotalBudget))
  {
    BudgetResponse(true, Some(SuccessMessage), Some(budget), Some(targetAd), Some(totalAdSpend),
                   Some(agencyFeeSpend), Some(thirdPartyFeeSpend), Some(calculatedTotalBudget))
  }

  /** `BudgetResponse.Failure`: not a success, the given message, and no result fields. */
  function Failure(errorMessage: string): (r: BudgetResponse)
    ensures !r.isSuccess && r.message == Some(errorMessage)
    ensures CarriesNoResult(r) && Payload(r) == None
  {
    BudgetResponse(false, Some(errorMessage), None, None, None, None, None, None)
  }

  /** The failure branch of `ToString`: the prefix, then the message (a null message prints
      as nothing). */
  function FailureText(r: BudgetResponse): (s: string)
    requires !r.isSuccess
    ensures |s| >= |FailurePrefix| && s[..|FailurePrefix|] == FailurePrefix
    ensures r.message.Some? ==> s[|FailurePrefix|..] == r.message.value
    ensures r.message.None? ==> s == FailurePrefix
  {
    FailurePrefix + match r.message { case Some(m) => m case None => "" }
  }

  /** A success response is determined by its payload: reading the fields back and passing them
      to `Success` rebuilds the same response, so `Payload` inverts `Success`. */
  lemma SuccessFromPayload(r: BudgetResponse, b: Breakdown)
    requires r.message == Some(SuccessMessage) && Payload(r) == Some(b)
    ensures r == Success(b.budget, b.targetAd, b.totalAdSpend, b.agencyFeeSpend,
                         b.thirdPartyFeeSpend, b.calculatedTotalBudget)
  {
  }
}
