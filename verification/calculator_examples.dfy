/** The calculator's and the validator's unit tests (Tests/BudgetCalculatorTests.cs and
    Tests/BudgetRequestValidatorTests.cs), stated as facts about the model with exact reals.
    Where a test only checks that the call succeeds, the fact here gives the whole response, the
    ad list as the call leaves it, and the number of passes the loop took.

    Each fact takes its request as a parameter pinned by `requires req == Request(...)` rather
    than writing the literal into the conclusion, and a run of many passes is unfolded a few
    passes at a time in helper lemmas (`...Passes1`, `...Passes2`, ...). Both keep each proof
    obligation small: the verifier then unfolds `Search` one pass per step instead of expanding
    the whole loop at once. */
module CalculatorExamples {
  import opened Wrappers
  import opened BudgetRequests
  import opened BudgetResponses
  import opened BudgetCalculator
  import opened BudgetRequestValidator
  import opened CappedBisection

  /** Lines 18-40: one ad, agency fee 1, so the calculated budget is twice the ad budget plus 100;
      the sixth candidate, 453.125, lands within 10 of 1000. */
  lemma ValidInput(req: Request)
    requires req == Request(1000.0, 1.0, 0.0, 100.0, Some("Ad1"), Some([Ad("Ad1", 0.0, false)]), 10.0)
    ensures GoalSeek(req)
            == Run(Returned(Success(453.125, "Ad1", 453.125, 453.125, 0.0, 1006.25)),
                   req.(adBudgets := Some([Ad("Ad1", 453.125, false)])), 6)
  {
    var ads := req.adBudgets.value;
    assert NonTargetSpend(ads, req.targetAd) == 0.0;
    assert FindIndex(ads, req.targetAd) == 0;
    GoalSeekStartsSearch(req);
    ValidInputPasses1(req);
    ValidInputPasses2(req);
    ValidInputPasses3(req);
    WrittenOneAd(ads, 453.125);
  }

  /** Passes 1 and 2 of `ValidInput`. */
  lemma ValidInputPasses1(req: Request)
    requires req == Request(1000.0, 1.0, 0.0, 100.0, Some("Ad1"), Some([Ad("Ad1", 0.0, false)]), 10.0)
    ensures var ads := req.adBudgets.value;
            Search(req, ads, 0, None, Start(req))
            == Search(req, ads, 0, Some(250.0), Bracket(250.0, 500.0, 375.0, 2))
  {
    var ads := req.adBudgets.value;
    assert Start(req) == Bracket(0.0, 1000.0, 500.0, 0);
    assert CandidateCosts(req, ads, 0, 500.0).calculatedBudget == 1100.0;
    SearchMoves(req, ads, 0, None, Bracket(0.0, 1000.0, 500.0, 0), 0.0, 500.0);
    assert CandidateCosts(req, ads, 0, 250.0).calculatedBudget == 600.0;
    SearchMoves(req, ads, 0, Some(500.0), Bracket(0.0, 500.0, 250.0, 1), 250.0, 500.0);
  }

  /** Passes 3 and 4 of `ValidInput`. */
  lemma ValidInputPasses2(req: Request)
    requires req == Request(1000.0, 1.0, 0.0, 100.0, Some("Ad1"), Some([Ad("Ad1", 0.0, false)]), 10.0)
    ensures var ads := req.adBudgets.value;
            Search(req, ads, 0, Some(250.0), Bracket(250.0, 500.0, 375.0, 2))
            == Search(req, ads, 0, Some(437.5), Bracket(437.5, 500.0, 468.75, 4))
  {
    var ads := req.adBudgets.value;
    assert CandidateCosts(req, ads, 0, 375.0).calculatedBudget == 850.0;
    SearchMoves(req, ads, 0, Some(250.0), Bracket(250.0, 500.0, 375.0, 2), 375.0, 500.0);
    assert CandidateCosts(req, ads, 0, 437.5).calculatedBudget == 975.0;
    SearchMoves(req, ads, 0, Some(375.0), Bracket(375.0, 500.0, 437.5, 3), 437.5, 500.0);
  }

  /** Passes 5 and 6 of `ValidInput`. */
  lemma ValidInputPasses3(req: Request)
    requires req == Request(1000.0, 1.0, 0.0, 100.0, Some("Ad1"), Some([Ad("Ad1", 0.0, false)]), 10.0)
    ensures var ads := req.adBudgets.value;
            Search(req, ads, 0, Some(437.5), Bracket(437.5, 500.0, 468.75, 4))
            == SearchEnd(Returned(Success(453.125, "Ad1", 453.125, 453.125, 0.0, 1006.25)), Some(453.125), 6)
  {
    var ads := req.adBudgets.value;
    assert CandidateCosts(req, ads, 0, 468.75).calculatedBudget == 1037.5;
    SearchMoves(req, ads, 0, Some(437.5), Bracket(437.5, 500.0, 468.75, 4), 437.5, 468.75);
    assert CandidateCosts(req, ads, 0, 453.125) == Costs(453.125, 453.125, 0.0, 1006.25);
    SearchHits(req, ads, 0, Some(468.75), Bracket(437.5, 468.75, 453.125, 5));
  }

  /** Lines 42-66: three ads, the target in the middle and the only one using a third-party tool;
      the other two keep their budgets. */
  lemma MultipleAds(req: Request)
    requires req == Request(2000.0, 0.1, 0.05, 100.0, Some("Ad2"),
                            Some([Ad("Ad1", 500.0, false), Ad("Ad2", 0.0, true),
                                  Ad("Ad3", 300.0, false)]), 1.0)
    ensures GoalSeek(req)
            == Run(Returned(Success(886.71875, "Ad2", 1686.71875, 168.671875, 44.3359375, 1999.7265625)),
                   req.(adBudgets := Some([Ad("Ad1", 500.0, false), Ad("Ad2", 886.71875, true),
                                           Ad("Ad3", 300.0, false)])), 9)
  {
    var ads := req.adBudgets.value;
    assert NonTargetSpend(ads, req.targetAd) == 800.0 && FindIndex(ads, req.targetAd) == 1 by {
      assert ads[1..][1..][1..] == [];
    }
    GoalSeekStartsSearch(req);
    MultipleAdsPasses1(req);
    MultipleAdsPasses2(req);
    MultipleAdsPasses3(req);
    MultipleAdsWritten(ads);
  }

  /** The list a one-ad example leaves: its only ad holds the last candidate. */
  lemma WrittenOneAd(ads: seq<Ad>, x: real)
    requires |ads| == 1
    ensures Written(ads, 0, Some(x)) == [ads[0].(budget := x)]
  {
  }

  /** The list `MultipleAds` leaves: only the target's budget changes. */
  lemma MultipleAdsWritten(ads: seq<Ad>)
    requires ads == [Ad("Ad1", 500.0, false), Ad("Ad2", 0.0, true), Ad("Ad3", 300.0, false)]
    ensures Written(ads, 1, Some(886.71875))
            == [Ad("Ad1", 500.0, false), Ad("Ad2", 886.71875, true), Ad("Ad3", 300.0, false)]
  {
    var w := Written(ads, 1, Some(886.71875));
    assert |w| == 3 && w[0] == ads[0] && w[2] == ads[2];
  }

  /** Passes 1 to 3 of `MultipleAds`. */
  lemma MultipleAdsPasses1(req: Request)
    requires req == Request(2000.0, 0.1, 0.05, 100.0, Some("Ad2"),
                            Some([Ad("Ad1", 500.0, false), Ad("Ad2", 0.0, true),
                                  Ad("Ad3", 300.0, false)]), 1.0)
    ensures var ads := req.adBudgets.value;
            Search(req, ads, 1, None, Start(req))
            == Search(req, ads, 1, Some(750.0), Bracket(750.0, 1000.0, 875.0, 3))
  {
    var ads := req.adBudgets.value;
    assert TotalSpend(ads) == 800.0 && ToolSpend(ads) == 0.0 by {
      assert ads[1..][1..][1..] == [];
    }
    assert CandidateCosts(req, ads, 1, 1000.0).calculatedBudget == 2130.0;
    assert Start(req) == Bracket(0.0, 2000.0, 1000.0, 0);
    SearchMoves(req, ads, 1, None, Bracket(0.0, 2000.0, 1000.0, 0), 0.0, 1000.0);
    assert CandidateCosts(req, ads, 1, 500.0).calculatedBudget == 1555.0;
    SearchMoves(req, ads, 1, Some(1000.0), Bracket(0.0, 1000.0, 500.0, 1), 500.0, 1000.0);
    assert CandidateCosts(req, ads, 1, 750.0).calculatedBudget == 1842.5;
    SearchMoves(req, ads, 1, Some(500.0), Bracket(500.0, 1000.0, 750.0, 2), 750.0, 1000.0);
  }

  /** Passes 4 to 6 of `MultipleAds`. */
  lemma MultipleAdsPasses2(req: Request)
    requires req == Request(2000.0, 0.1, 0.05, 100.0, Some("Ad2"),
                            Some([Ad("Ad1", 500.0, false), Ad("Ad2", 0.0, true),
                                  Ad("Ad3", 300.0, false)]), 1.0)
    ensures var ads := req.adBudgets.value;
            Search(req, ads, 1, Some(750.0), Bracket(750.0, 1000.0, 875.0, 3))
            == Search(req, ads, 1, Some(906.25), Bracket(875.0, 906.25, 890.625, 6))
  {
    var ads := req.adBudgets.value;
    assert TotalSpend(ads) == 800.0 && ToolSpend(ads) == 0.0 by {
      assert ads[1..][1..][1..] == [];
    }
    assert CandidateCosts(req, ads, 1, 875.0).calculatedBudget == 1986.25;
    SearchMoves(req, ads, 1, Some(750.0), Bracket(750.0, 1000.0, 875.0, 3), 875.0, 1000.0);
    assert CandidateCosts(req, ads, 1, 937.5).calculatedBudget == 2058.125;
    SearchMoves(req, ads, 1, Some(875.0), Bracket(875.0, 1000.0, 937.5, 4), 875.0, 937.5);
    assert CandidateCosts(req, ads, 1, 906.25).calculatedBudget == 2022.1875;
    SearchMoves(req, ads, 1, Some(937.5), Bracket(875.0, 937.5, 906.25, 5), 875.0, 906.25);
  }

  /** Passes 7 to 9 of `MultipleAds`. */
  lemma MultipleAdsPasses3(req: Request)
    requires req == Request(2000.0, 0.1, 0.05, 100.0, Some("Ad2"),
                            Some([Ad("Ad1", 500.0, false), Ad("Ad2", 0.0, true),
                                  Ad("Ad3", 300.0, false)]), 1.0)
    ensures var ads := req.adBudgets.value;
            Search(req, ads, 1, Some(906.25), Bracket(875.0, 906.25, 890.625, 6))
            == SearchEnd(Returned(Success(886.71875, "Ad2", 1686.71875, 168.671875, 44.3359375,
                                          1999.7265625)), Some(886.71875), 9)
  {
    var ads := req.adBudgets.value;
    assert TotalSpend(ads) == 800.0 && ToolSpend(ads) == 0.0 by {
      assert ads[1..][1..][1..] == [];
    }
    assert CandidateCosts(req, ads, 1, 890.625).calculatedBudget == 2004.21875;
    SearchMoves(req, ads, 1, Some(906.25), Bracket(875.0, 906.25, 890.625, 6), 875.0, 890.625);
    assert CandidateCosts(req, ads, 1, 882.8125).calculatedBudget == 1995.234375;
    SearchMoves(req, ads, 1, Some(890.625), Bracket(875.0, 890.625, 882.8125, 7), 882.8125, 890.625);
    assert CandidateCosts(req, ads, 1, 886.71875) == Costs(1686.71875, 168.671875, 44.3359375, 1999.7265625);
    SearchHits(req, ads, 1, Some(882.8125), Bracket(882.8125, 890.625, 886.71875, 8));
  }

  /** Lines 68-90: with a tolerance of 100 the second candidate already gives a calculated budget
      of 925, inside [900, 1100]. */
  lemma HighTolerance(req: Request)
    requires req == Request(1000.0, 0.1, 0.05, 100.0, Some("Ad1"), Some([Ad("Ad1", 0.0, false)]), 100.0)
    ensures GoalSeek(req)
            == Run(Returned(Success(750.0, "Ad1", 750.0, 75.0, 0.0, 925.0)),
                   req.(adBudgets := Some([Ad("Ad1", 750.0, false)])), 2)
  {
    var ads := req.adBudgets.value;
    assert NonTargetSpend(ads, req.targetAd) == 0.0;
    assert FindIndex(ads, req.targetAd) == 0;
    GoalSeekStartsSearch(req);
    assert CandidateCosts(req, ads, 0, 500.0).calculatedBudget == 650.0;
    assert Start(req) == Bracket(0.0, 1000.0, 500.0, 0);
    SearchMoves(req, ads, 0, None, Bracket(0.0, 1000.0, 500.0, 0), 500.0, 1000.0);
    assert CandidateCosts(req, ads, 0, 750.0) == Costs(750.0, 75.0, 0.0, 925.0);
    SearchHits(req, ads, 0, Some(500.0), Bracket(500.0, 1000.0, 750.0, 1));
    WrittenOneAd(ads, 750.0);
  }

  /** Lines 92-114: the target uses a third-party tool, so the third-party fee spend is positive. */
  lemma ThirdPartyTool(req: Request)
    requires req == Request(1000.0, 0.1, 0.05, 100.0, Some("Ad1"), Some([Ad("Ad1", 0.0, true)]), 1.0)
    ensures GoalSeek(req)
            == Run(Returned(Success(783.203125, "Ad1", 783.203125, 78.3203125, 39.16015625, 1000.68359375)),
                   req.(adBudgets := Some([Ad("Ad1", 783.203125, true)])), 9)
  {
    var ads := req.adBudgets.value;
    assert NonTargetSpend(ads, req.targetAd) == 0.0;
    assert FindIndex(ads, req.targetAd) == 0;
    GoalSeekStartsSearch(req);
    ThirdPartyToolPasses1(req);
    ThirdPartyToolPasses2(req);
    ThirdPartyToolPasses3(req);
    WrittenOneAd(ads, 783.203125);
  }

  /** Passes 1 to 3 of `ThirdPartyTool`. */
  lemma ThirdPartyToolPasses1(req: Request)
    requires req == Request(1000.0, 0.1, 0.05, 100.0, Some("Ad1"), Some([Ad("Ad1", 0.0, true)]), 1.0)
    ensures var ads := req.adBudgets.value;
            Search(req, ads, 0, None, Start(req))
            == Search(req, ads, 0, Some(875.0), Bracket(750.0, 875.0, 812.5, 3))
  {
    var ads := req.adBudgets.value;
    assert CandidateCosts(req, ads, 0, 500.0).calculatedBudget == 675.0;
    assert Start(req) == Bracket(0.0, 1000.0, 500.0, 0);
    SearchMoves(req, ads, 0, None, Bracket(0.0, 1000.0, 500.0, 0), 500.0, 1000.0);
    assert CandidateCosts(req, ads, 0, 750.0).calculatedBudget == 962.5;
    SearchMoves(req, ads, 0, Some(500.0), Bracket(500.0, 1000.0, 750.0, 1), 750.0, 1000.0);
    assert CandidateCosts(req, ads, 0, 875.0).calculatedBudget == 1106.25;
    SearchMoves(req, ads, 0, Some(750.0), Bracket(750.0, 1000.0, 875.0, 2), 750.0, 875.0);
  }

  /** Passes 4 to 6 of `ThirdPartyTool`. */
  lemma ThirdPartyToolPasses2(req: Request)
    requires req == Request(1000.0, 0.1, 0.05, 100.0, Some("Ad1"), Some([Ad("Ad1", 0.0, true)]), 1.0)
    ensures var ads := req.adBudgets.value;
            Search(req, ads, 0, Some(875.0), Bracket(750.0, 875.0, 812.5, 3))
            == Search(req, ads, 0, Some(796.875), Bracket(781.25, 796.875, 789.0625, 6))
  {
    var ads := req.adBudgets.value;
    assert CandidateCosts(req, ads, 0, 812.5).calculatedBudget == 1034.375;
    SearchMoves(req, ads, 0, Some(875.0), Bracket(750.0, 875.0, 812.5, 3), 750.0, 812.5);
    assert CandidateCosts(req, ads, 0, 781.25).calculatedBudget == 998.4375;
    SearchMoves(req, ads, 0, Some(812.5), Bracket(750.0, 812.5, 781.25, 4), 781.25, 812.5);
    assert CandidateCosts(req, ads, 0, 796.875).calculatedBudget == 1016.40625;
    SearchMoves(req, ads, 0, Some(781.25), Bracket(781.25, 812.5, 796.875, 5), 781.25, 796.875);
  }

  /** Passes 7 to 9 of `ThirdPartyTool`. */
  lemma ThirdPartyToolPasses3(req: Request)
    requires req == Request(1000.0, 0.1, 0.05, 100.0, Some("Ad1"), Some([Ad("Ad1", 0.0, true)]), 1.0)
    ensures var ads := req.adBudgets.value;
            Search(req, ads, 0, Some(796.875), Bracket(781.25, 796.875, 789.0625, 6))
            == SearchEnd(Returned(Success(783.203125, "Ad1", 783.203125, 78.3203125, 39.16015625,
                                          1000.68359375)), Some(783.203125), 9)
  {
    var ads := req.adBudgets.value;
    assert CandidateCosts(req, ads, 0, 789.0625).calculatedBudget == 1007.421875;
    SearchMoves(req, ads, 0, Some(796.875), Bracket(781.25, 796.875, 789.0625, 6), 781.25, 789.0625);
    assert CandidateCosts(req, ads, 0, 785.15625).calculatedBudget == 1002.9296875;
    SearchMoves(req, ads, 0, Some(789.0625), Bracket(781.25, 789.0625, 785.15625, 7), 781.25, 785.15625);
    assert CandidateCosts(req, ads, 0, 783.203125) == Costs(783.203125, 78.3203125, 39.16015625, 1000.68359375);
    SearchHits(req, ads, 0, Some(785.15625), Bracket(781.25, 785.15625, 783.203125, 8));
  }

  /** Lines 116-137: the other ads already spend 1300 of a total budget of 1000. */
  lemma SumExceedsTotal()
    ensures var req := Request(1000.0, 0.1, 0.05, 100.0, Some("Ad1"),
                               Some([Ad("Ad1", 300.0, false), Ad("Ad2", 400.0, false),
                                     Ad("Ad3", 300.0, false), Ad("Ad4", 600.0, false)]), 1.0);
            GoalSeek(req) == Run(Threw(ArgumentException(SumExceedsMessage)), req, 0)
  {
    var ads := [Ad("Ad1", 300.0, false), Ad("Ad2", 400.0, false), Ad("Ad3", 300.0, false), Ad("Ad4", 600.0, false)];
    assert NonTargetSpend(ads, Some("Ad1")) == 1300.0;
  }

  /** Lines 139-160: no ad is named "NotInList"; the other ads spend only 40, so the lookup is
      what fails. */
  lemma TargetNotInList()
    ensures var req := Request(1000.0, 0.1, 0.05, 100.0, Some("NotInList"),
                               Some([Ad("Ad1", 10.0, false), Ad("Ad2", 10.0, false),
                                     Ad("Ad3", 10.0, false), Ad("Ad4", 10.0, false)]), 1.0);
            GoalSeek(req) == Run(Threw(ArgumentException(TargetNotFoundMessage)), req, 0)
  {
    var ads := [Ad("Ad1", 10.0, false), Ad("Ad2", 10.0, false), Ad("Ad3", 10.0, false), Ad("Ad4", 10.0, false)];
    assert NonTargetSpend(ads, Some("NotInList")) == 40.0;
    assert FindIndex(ads, Some("NotInList")) == -1;
  }

  /** When the target is missing AND the other ads overspend, the overspending is reported: its
      check comes first. */
  lemma SumCheckComesFirst()
    ensures var req := Request(100.0, 0.0, 0.0, 0.0, Some("Missing"), Some([Ad("Ad1", 100.0, false)]), 1.0);
            GoalSeek(req) == Run(Threw(ArgumentException(SumExceedsMessage)), req, 0)
  {
    assert NonTargetSpend([Ad("Ad1", 100.0, false)], Some("Missing")) == 100.0;
  }

  /** A valid request the loop of lines 35-82 gives up on although a budget of exactly 360 makes
      the calculated budget equal the total (agency fee 1, third-party fee 0.5 on the tool-using
      target, so 2.5 per unit plus 100). After five passes the bracket is [343.75, 375], no wider
      than the tolerance of 32, yet its candidates all cost more than 32 away from 1000: the loop
      stops and reports that the iteration cap was reached. */
  lemma NarrowBracketGivesUp(req: Request)
    requires req == Request(1000.0, 1.0, 0.5, 100.0, Some("Ad1"), Some([Ad("Ad1", 0.0, true)]), 32.0)
    ensures Validate(req) == {}
    ensures CandidateCosts(req, req.adBudgets.value, 0, 360.0).calculatedBudget == req.totalBudget
    ensures GoalSeek(req)
            == Run(Returned(Failure(NotConvergedMessage)), req.(adBudgets := Some([Ad("Ad1", 343.75, true)])), 5)
  {
    NarrowBracketIsValid(req);
    var ads := req.adBudgets.value;
    assert NonTargetSpend(ads, req.targetAd) == 0.0;
    assert FindIndex(ads, req.targetAd) == 0;
    assert CandidateCosts(req, ads, 0, 360.0).calculatedBudget == 1000.0;
    GoalSeekStartsSearch(req);
    NarrowBracketPasses1(req);
    NarrowBracketPasses2(req);
    WrittenOneAd(ads, 343.75);
  }

  /** The request of `NarrowBracketGivesUp` meets every rule of the validator. */
  lemma NarrowBracketIsValid(req: Request)
    requires req == Request(1000.0, 1.0, 0.5, 100.0, Some("Ad1"), Some([Ad("Ad1", 0.0, true)]), 32.0)
    ensures Validate(req) == {}
  {
    var ads := req.adBudgets.value;
    assert !Blank(req.targetAd) by {
      assert req.targetAd.value[0] == 'A';
    }
    assert TargetListed(ads, req.targetAd) by {
      assert IsTarget(ads[0], req.targetAd);
    }
    WellFormedPasses(req);
  }

  /** Passes 1 to 3 of `NarrowBracketGivesUp`. */
  lemma NarrowBracketPasses1(req: Request)
    requires req == Request(1000.0, 1.0, 0.5, 100.0, Some("Ad1"), Some([Ad("Ad1", 0.0, true)]), 32.0)
    ensures var ads := req.adBudgets.value;
            Search(req, ads, 0, None, Start(req))
            == Search(req, ads, 0, Some(375.0), Bracket(250.0, 375.0, 312.5, 3))
  {
    var ads := req.adBudgets.value;
    assert CandidateCosts(req, ads, 0, 500.0).calculatedBudget == 1350.0;
    assert Start(req) == Bracket(0.0, 1000.0, 500.0, 0);
    SearchMoves(req, ads, 0, None, Bracket(0.0, 1000.0, 500.0, 0), 0.0, 500.0);
    assert CandidateCosts(req, ads, 0, 250.0).calculatedBudget == 725.0;
    SearchMoves(req, ads, 0, Some(500.0), Bracket(0.0, 500.0, 250.0, 1), 250.0, 500.0);
    assert CandidateCosts(req, ads, 0, 375.0).calculatedBudget == 1037.5;
    SearchMoves(req, ads, 0, Some(250.0), Bracket(250.0, 500.0, 375.0, 2), 250.0, 375.0);
  }

  /** Passes 4 and 5 of `NarrowBracketGivesUp`, after which the bracket is too narrow to go on. */
  lemma NarrowBracketPasses2(req: Request)
    requires req == Request(1000.0, 1.0, 0.5, 100.0, Some("Ad1"), Some([Ad("Ad1", 0.0, true)]), 32.0)
    ensures var ads := req.adBudgets.value;
            Search(req, ads, 0, Some(375.0), Bracket(250.0, 375.0, 312.5, 3))
            == SearchEnd(Returned(Failure(NotConvergedMessage)), Some(343.75), 5)
  {
    var ads := req.adBudgets.value;
    assert CandidateCosts(req, ads, 0, 312.5).calculatedBudget == 881.25;
    SearchMoves(req, ads, 0, Some(375.0), Bracket(250.0, 375.0, 312.5, 3), 312.5, 375.0);
    assert CandidateCosts(req, ads, 0, 343.75).calculatedBudget == 959.375;
    SearchMoves(req, ads, 0, Some(312.5), Bracket(312.5, 375.0, 343.75, 4), 343.75, 375.0);
  }

  /** The same request under the capped loop: the convergence theorem applies with the bracket
      of pass 6, 1000 halved six times, over which the calculated budget moves by 39.0625, at
      most twice the tolerance. */
  lemma NarrowBracketCappedSolves(req: Request)
    requires req == Request(1000.0, 1.0, 0.5, 100.0, Some("Ad1"), Some([Ad("Ad1", 0.0, true)]), 32.0)
    ensures var r := GoalSeekCapped(req);
            r.outcome.Returned? && r.outcome.response.isSuccess && r.passes <= 7
  {
    var ads := req.adBudgets.value;
    assert NonTargetSpend(ads, req.targetAd) == 0.0;
    assert FindIndex(ads, req.targetAd) == 0;
    assert CandidateCosts(req, ads, 0, 0.0).calculatedBudget == 100.0;
    assert CandidateCosts(req, ads, 0, 1000.0).calculatedBudget == 2600.0;
    assert Halved(1000.0, 6) == 15.625;
    GoalSeekCappedConverges(req, 6);
  }

  /** The request every validator test starts from (lines 18-37 there), with the given target,
      list, total budget, tolerance and fees. */
  function TestRequest(target: Option<string>, ads: Option<seq<Ad>>, total: real, tolerance: real,
                       agencyFee: real, thirdPartyFee: real): Request {
    Request(total, agencyFee, thirdPartyFee, 100.0, target, ads, tolerance)
  }

  /** Validator tests, lines 18-37, 253-275 and 301-323: the baseline request passes, including
      with either fee at 0, 0.5 or 1. */
  lemma ValidRequestsPass(fee: real)
    requires fee == 0.0 || fee == 0.5 || fee == 1.0
    ensures Validate(TestRequest(Some("Ad1"), Some([Ad("Ad1", 0.0, false)]), 1000.0, 1.0, 0.1, 0.05)) == {}
    ensures Validate(TestRequest(Some("Ad1"), Some([Ad("Ad1", 0.0, false)]), 1000.0, 1.0, fee, 0.05)) == {}
    ensures Validate(TestRequest(Some("Ad1"), Some([Ad("Ad1", 0.0, false)]), 1000.0, 1.0, 0.1, fee)) == {}
  {
    var ads := [Ad("Ad1", 0.0, false)];
    assert !Blank(Some("Ad1")) by {
      assert "Ad1"[0] == 'A';
    }
    assert TargetListed(ads, Some("Ad1")) by {
      assert IsTarget(ads[0], Some("Ad1"));
    }
    WellFormedPasses(TestRequest(Some("Ad1"), Some(ads), 1000.0, 1.0, 0.1, 0.05));
    WellFormedPasses(TestRequest(Some("Ad1"), Some(ads), 1000.0, 1.0, fee, 0.05));
    WellFormedPasses(TestRequest(Some("Ad1"), Some(ads), 1000.0, 1.0, 0.1, fee));
  }

  /** Validator tests, lines 39-59 and 165-208: a missing target, an empty target name and a
      null target name each get their message. */
  lemma MissingTargetReported()
    ensures ValidationError(TargetAd, TargetMissingMessage)
            in Validate(TestRequest(Some("NonExistentAd"), Some([Ad("Ad1", 0.0, false)]), 1000.0, 1.0, 0.1, 0.05))
    ensures ValidationError(TargetAd, TargetEmptyMessage)
            in Validate(TestRequest(Some(""), Some([Ad("Ad1", 0.0, false)]), 1000.0, 1.0, 0.1, 0.05))
    ensures ValidationError(TargetAd, TargetNullMessage)
            in Validate(TestRequest(None, Some([Ad("Ad1", 0.0, false)]), 1000.0, 1.0, 0.1, 0.05))
  {
    ValidateTargetRules(TestRequest(Some("NonExistentAd"), Some([Ad("Ad1", 0.0, false)]), 1000.0, 1.0, 0.1, 0.05));
    ValidateTargetRules(TestRequest(Some(""), Some([Ad("Ad1", 0.0, false)]), 1000.0, 1.0, 0.1, 0.05));
    ValidateTargetRules(TestRequest(None, Some([Ad("Ad1", 0.0, false)]), 1000.0, 1.0, 0.1, 0.05));
  }

  /** Validator tests, lines 127-164: an empty list and a null list each get their message. */
  lemma MissingListReported()
    ensures ValidationError(AdBudgets, ListEmptyMessage)
            in Validate(TestRequest(Some("Ad1"), Some([]), 1000.0, 1.0, 0.1, 0.05))
    ensures ValidationError(AdBudgets, ListNullMessage)
            in Validate(TestRequest(Some("Ad1"), None, 1000.0, 1.0, 0.1, 0.05))
  {
    ValidateListRules(TestRequest(Some("Ad1"), Some([]), 1000.0, 1.0, 0.1, 0.05));
    ValidateListRules(TestRequest(Some("Ad1"), None, 1000.0, 1.0, 0.1, 0.05));
  }

  /** Validator tests, lines 61-125: a zero or negative total budget and a negative tolerance
      each get their message. */
  lemma OutOfRangeAmountsReported(total: real)
    requires total == 0.0 || total == -1000.0
    ensures ValidationError(TotalBudget, TotalBudgetMessage)
            in Validate(TestRequest(Some("Ad1"), Some([Ad("Ad1", 0.0, false)]), total, 1.0, 0.1, 0.05))
    ensures ValidationError(Tolerance, ToleranceMessage)
            in Validate(TestRequest(Some("Ad1"), Some([Ad("Ad1", 0.0, false)]), 1000.0, -1.0, 0.1, 0.05))
  {
    ValidateAmountRules(TestRequest(Some("Ad1"), Some([Ad("Ad1", 0.0, false)]), total, 1.0, 0.1, 0.05));
    ValidateAmountRules(TestRequest(Some("Ad1"), Some([Ad("Ad1", 0.0, false)]), 1000.0, -1.0, 0.1, 0.05));
  }

  /** Validator tests, lines 209-251, 277-299 and 325-348: a fee of -0.1, 1.1 or -0.05 gets the
      fee's message. */
  lemma OutOfRangeFeesReported(fee: real)
    requires fee == -0.1 || fee == 1.1 || fee == -0.05
    ensures ValidationError(AgencyFee, AgencyFeeMessage)
            in Validate(TestRequest(Some("Ad1"), Some([Ad("Ad1", 0.0, false)]), 1000.0, 1.0, fee, 0.05))
    ensures ValidationError(ThirdPartyFee, ThirdPartyFeeMessage)
            in Validate(TestRequest(Some("Ad1"), Some([Ad("Ad1", 0.0, false)]), 1000.0, 1.0, 0.1, fee))
  {
    ValidateFeeRules(TestRequest(Some("Ad1"), Some([Ad("Ad1", 0.0, false)]), 1000.0, 1.0, fee, 0.05));
    ValidateFeeRules(TestRequest(Some("Ad1"), Some([Ad("Ad1", 0.0, false)]), 1000.0, 1.0, 0.1, fee));
  }
}
