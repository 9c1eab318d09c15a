/** The request validator (Validators/BudgetRequestValidator.cs): eight `RuleFor` chains over the
    request's fields. The TargetAd and AdBudgets chains hold two checks each, and the validator
    keeps evaluating a chain after a check fails, so there are ten checks in all. Every failing
    check contributes one (field, message) error. */
module BudgetRequestValidator {
  import opened Wrappers
  import opened BudgetRequests

  /** The request property an error is reported against. */
  datatype Field = TotalBudget | Tolerance | FixedCosts | TargetAd | AdBudgets | AgencyFee | ThirdPartyFee

  datatype ValidationError = ValidationError(field: Field, message: string)

  const TotalBudgetMessage := "Total budget must be greater than zero."
  const ToleranceMessage := "Tolerance must be greater than or equal to zero."
  const FixedCostsMessage := "Fixed costs cannot be negative."
  const TargetEmptyMessage := "Target ad name cannot be empty."
  const TargetNullMessage := "Target ad name cannot be null."
  const ListNullMessage := "AdBudgets list cannot be null."
  const ListEmptyMessage := "AdBudgets list cannot be empty."
  const TargetMissingMessage := "Target ad must exist in the AdBudgets list."
  const AgencyFeeMessage := "Agency fee must be between 0 and 1 inclusive."
  const ThirdPartyFeeMessage := "Third party fee must be between 0 and 1 inclusive."

  /** .NET's `char.IsWhiteSpace`: the Unicode space separators, the line and paragraph
      separators, and the control characters U+0009-U+000D and U+0085. */
  predicate IsWhiteSpace(c: char) {
    ('\U{9}' <= c <= '\U{D}') || c == ' ' || c == '\U{85}' || c == '\U{A0}' || c == '\U{1680}'
    || ('\U{2000}' <= c <= '\U{200A}') || c == '\U{2028}' || c == '\U{2029}' || c == '\U{202F}'
    || c == '\U{205F}' || c == '\U{3000}'
  }

  /** What the `NotEmpty` check rejects for a string: null, empty, or only white space. */
  predicate Blank(s: Option<string>) {
    match s
    case None => true
    case Some(t) => forall k :: 0 <= k < |t| ==> IsWhiteSpace(t[k])
  }

  /** How `NotEmpty` judges names: null, the empty name and names made only of white space (an
      ideographic space included) are blank; a name holding any other character is not, whatever
      spaces surround it. */
  lemma BlankNames()
    ensures Blank(None) && Blank(Some("")) && Blank(Some(" \t\r\n")) && Blank(Some("\U{3000}\U{A0}"))
    ensures !Blank(Some("Ad1")) && !Blank(Some(" Ad1 ")) && !Blank(Some("\U{200B}"))
  {
    assert !IsWhiteSpace("Ad1"[0]);
    assert !IsWhiteSpace(" Ad1 "[1]);
    assert !IsWhiteSpace("\U{200B}"[0]);
  }

  /** Some ad in the list bears the target's name (`AdBudgets.Any(ad => ad.AdName == targetAd)`). */
  predicate TargetListed(ads: seq<Ad>, target: Option<string>) {
    exists j :: 0 <= j < |ads| && IsTarget(ads[j], target)
  }

  /** The ten checks, one per validator component, in the order the constructor registers them. */
  datatype Check =
    | TotalBudgetPositive     // lines 10-12: GreaterThan(0)
    | ToleranceNonNegative    // lines 14-16: GreaterThanOrEqualTo(0)
    | FixedCostsNonNegative   // lines 18-20: GreaterThanOrEqualTo(0)
    | TargetNotEmpty          // line 23: NotEmpty
    | TargetNotNull           // line 24: NotNull
    | ListNotNull             // line 27: NotNull
    | ListNotEmpty            // line 28: Must(list != null && list.Any())
    | TargetInList            // lines 30-33: Must(...).When(AdBudgets != null)
    | AgencyFeeInRange        // lines 35-37: InclusiveBetween(0, 1)
    | ThirdPartyFeeInRange    // lines 39-41: InclusiveBetween(0, 1)

  /** The error a failing check reports. */
  function ErrorOf(c: Check): ValidationError {
    match c
    case TotalBudgetPositive => ValidationError(TotalBudget, TotalBudgetMessage)
    case ToleranceNonNegative => ValidationError(Tolerance, ToleranceMessage)
    case FixedCostsNonNegative => ValidationError(FixedCosts, FixedCostsMessage)
    case TargetNotEmpty => ValidationError(TargetAd, TargetEmptyMessage)
    case TargetNotNull => ValidationError(TargetAd, TargetNullMessage)
    case ListNotNull => ValidationError(AdBudgets, ListNullMessage)
    case ListNotEmpty => ValidationError(AdBudgets, ListEmptyMessage)
    case TargetInList => ValidationError(TargetAd, TargetMissingMessage)
    case AgencyFeeInRange => ValidationError(AgencyFee, AgencyFeeMessage)
    case ThirdPartyFeeInRange => ValidationError(ThirdPartyFee, ThirdPartyFeeMessage)
  }

  /** No two checks report the same error: within one field the messages differ (in length). */
  lemma ErrorOfInjective()
    ensures forall c: Check, d: Check :: ErrorOf(c) == ErrorOf(d) ==> c == d
  {
    assert |TargetEmptyMessage| == 31 && |TargetNullMessage| == 30 && |TargetMissingMessage| == 43;
    assert |ListNullMessage| == 30 && |ListEmptyMessage| == 31;
  }

  /** Whether check `c` rejects the request. A check guarded by `When` never rejects while its
      guard is false. */
  predicate Fails(c: Check, req: Request) {
    match c
    case TotalBudgetPositive => !(req.totalBudget > 0.0)
    case ToleranceNonNegative => !(req.tolerance >= 0.0)
    case FixedCostsNonNegative => !(req.fixedCosts >= 0.0)
    case TargetNotEmpty => Blank(req.targetAd)
    case TargetNotNull => req.targetAd.None?
    case ListNotNull => req.adBudgets.None?
    case ListNotEmpty => !(req.adBudgets.Some? && |req.adBudgets.value| > 0)
    case TargetInList =>
      req.adBudgets.Some? && !TargetListed(req.adBudgets.value, req.targetAd)
    case AgencyFeeInRange => !(0.0 <= req.agencyFee <= 1.0)
    case ThirdPartyFeeInRange => !(0.0 <= req.thirdPartyFee <= 1.0)
  }

  /** Every check the constructor registers. */
  const AllChecks: set<Check> :=
    {TotalBudgetPositive, ToleranceNonNegative, FixedCostsNonNegative, TargetNotEmpty, TargetNotNull,
     ListNotNull, ListNotEmpty, TargetInList, AgencyFeeInRange, ThirdPartyFeeInRange}

  /** `Validate`: every check that rejects the request contributes its error, and nothing else
      is reported. */
  function Validate(req: Request): (errors: set<ValidationError>)
    ensures forall c: Check :: ErrorOf(c) in errors <==> Fails(c, req)
    ensures forall e :: e in errors ==> exists c: Check :: e == ErrorOf(c)
  {
    ErrorOfInjective();
    set c | c in AllChecks && Fails(c, req) :: ErrorOf(c)
  }

  /** The three rules on amounts (lines 10-20): each error is reported exactly when its bound
      is broken, whatever the other fields hold. */
  lemma ValidateAmountRules(req: Request)
    ensures var errors := Validate(req);
      && (ValidationError(TotalBudget, TotalBudgetMessage) in errors <==> req.totalBudget <= 0.0)
      && (ValidationError(Tolerance, ToleranceMessage) in errors <==> req.tolerance < 0.0)
      && (ValidationError(FixedCosts, FixedCostsMessage) in errors <==> req.fixedCosts < 0.0)
  {
    var errors := Validate(req);
    assert ErrorOf(TotalBudgetPositive) in errors <==> Fails(TotalBudgetPositive, req);
    assert ErrorOf(ToleranceNonNegative) in errors <==> Fails(ToleranceNonNegative, req);
    assert ErrorOf(FixedCostsNonNegative) in errors <==> Fails(FixedCostsNonNegative, req);
  }

  /** The two rules on fee rates (lines 35-41): each error is reported exactly when its rate lies
      outside [0, 1]. */
  lemma ValidateFeeRules(req: Request)
    ensures var errors := Validate(req);
      && (ValidationError(AgencyFee, AgencyFeeMessage) in errors <==> req.agencyFee < 0.0 || req.agencyFee > 1.0)
      && (ValidationError(ThirdPartyFee, ThirdPartyFeeMessage) in errors
          <==> req.thirdPartyFee < 0.0 || req.thirdPartyFee > 1.0)
  {
    var errors := Validate(req);
    assert ErrorOf(AgencyFeeInRange) in errors <==> Fails(AgencyFeeInRange, req);
    assert ErrorOf(ThirdPartyFeeInRange) in errors <==> Fails(ThirdPartyFeeInRange, req);
  }

  /** The three rules on the target's name (lines 22-24 and 30-33). A null target breaks both the
      NotEmpty and the NotNull check; the existence check is skipped for a null list, and a null
      target is listed under no name. */
  lemma ValidateTargetRules(req: Request)
    ensures var errors := Validate(req);
      && (ValidationError(TargetAd, TargetEmptyMessage) in errors <==> Blank(req.targetAd))
      && (ValidationError(TargetAd, TargetNullMessage) in errors <==> req.targetAd.None?)
      && (ValidationError(TargetAd, TargetMissingMessage) in errors
          <==> req.adBudgets.Some? && !TargetListed(req.adBudgets.value, req.targetAd))
  {
    var errors := Validate(req);
    assert ErrorOf(TargetNotEmpty) in errors <==> Fails(TargetNotEmpty, req);
    assert ErrorOf(TargetNotNull) in errors <==> Fails(TargetNotNull, req);
    assert ErrorOf(TargetInList) in errors <==> Fails(TargetInList, req);
  }

  /** The two rules on the ad list (lines 26-28): a null list breaks both, an empty one only the
      second. */
  lemma ValidateListRules(req: Request)
    ensures var errors := Validate(req);
      && (ValidationError(AdBudgets, ListNullMessage) in errors <==> req.adBudgets.None?)
      && (ValidationError(AdBudgets, ListEmptyMessage) in errors
          <==> req.adBudgets.None? || req.adBudgets.value == [])
  {
    var errors := Validate(req);
    assert ErrorOf(ListNotNull) in errors <==> Fails(ListNotNull, req);
    assert ErrorOf(ListNotEmpty) in errors <==> Fails(ListNotEmpty, req);
  }

  /** A request that meets every rule. The non-null and non-empty list rules and the non-null
      target rule need no clause of their own: a listed, non-blank target implies them. */
  predicate WellFormed(req: Request) {
    req.totalBudget > 0.0 && req.tolerance >= 0.0 && req.fixedCosts >= 0.0
    && !Blank(req.targetAd)
    && req.adBudgets.Some? && TargetListed(req.adBudgets.value, req.targetAd)
    && 0.0 <= req.agencyFee <= 1.0 && 0.0 <= req.thirdPartyFee <= 1.0
  }

  /** A well-formed request breaks no check, so the validator reports nothing. */
  lemma WellFormedPasses(req: Request)
    requires WellFormed(req)
    ensures Validate(req) == {}
  {
    assert forall c: Check :: !Fails(c, req);
  }

  /** A request that is not well-formed gets at least one error, each broken rule reporting its
      own whatever else is wrong. */
  lemma IllFormedFails(req: Request)
    requires !WellFormed(req)
    ensures Validate(req) != {}
  {
    var errors := Validate(req);
    if req.adBudgets.None? {
      assert ErrorOf(ListNotNull) in errors;
    } else if !TargetListed(req.adBudgets.value, req.targetAd) {
      assert ErrorOf(TargetInList) in errors;
    } else if Blank(req.targetAd) {
      assert ErrorOf(TargetNotEmpty) in errors;
    } else if req.totalBudget <= 0.0 {
      assert ErrorOf(TotalBudgetPositive) in errors;
    } else if req.tolerance < 0.0 {
      assert ErrorOf(ToleranceNonNegative) in errors;
    } else if req.fixedCosts < 0.0 {
      assert ErrorOf(FixedCostsNonNegative) in errors;
    } else if !(0.0 <= req.agencyFee <= 1.0) {
      assert ErrorOf(AgencyFeeInRange) in errors;
    } else {
      assert ErrorOf(ThirdPartyFeeInRange) in errors;
    }
  }

  /** The validator reports nothing exactly for the well-formed requests. */
  lemma NoErrorsIffWellFormed(req: Request)
    ensures Validate(req) == {} <==> WellFormed(req)
  {
    if WellFormed(req) {
      WellFormedPasses(req);
    } else {
      IllFormedFails(req);
    }
  }

  /** A request the validator accepts gets past the calculator's target lookup: its list is
      present and holds an ad bearing the target's name. */
  lemma AcceptedRequestHasTarget(req: Request)
    requires Validate(req) == {}
    ensures req.adBudgets.Some? && 0 <= FindIndex(req.adBudgets.value, req.targetAd)
  {
    NoErrorsIffWellFormed(req);
    var j :| 0 <= j < |req.adBudgets.value| && IsTarget(req.adBudgets.value[j], req.targetAd);
  }
}
