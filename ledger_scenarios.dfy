/**
 * The repository's test scenarios replayed against the model: each method drives fresh ledgers
 * through the calls a test makes and states, as its postcondition, what the model then returns.
 */
module LedgerScenarios {
  import opened LedgerTypes
  import opened ProjectVerification
  import opened InvestmentManagement
  import opened ProductionMilestone
  import opened RevenueDistribution

  /** The first registered project gets id 1 and reads back unverified with its details. */
  method RegisterAndReadProject() returns (id: nat, project: Option<FilmProject>)
    ensures id == 1
    ensures project == Some(FilmProject("The Blockchain Movie", "John Director", 1000000, 20240101, 20241231, false, true))
  {
    var registry := new ProjectRegistry();
    id := registry.RegisterProject("The Blockchain Movie", "John Director", 1000000, 20240101, 20241231);
    project := registry.GetProject(id);
  }

  /** Verifying a registered project succeeds and flips is-project-verified; an unknown id is not found. */
  method VerifyProjectFlow() returns (before: bool, r: Result<bool>, after: bool, unknown: Result<bool>)
    ensures !before && r == Ok(true) && after
    ensures unknown == Err(ProjectNotFound)
  {
    var registry := new ProjectRegistry();
    var id := registry.RegisterProject("The Blockchain Movie", "John Director", 1000000, 20240101, 20241231);
    before := registry.IsProjectVerified(id);
    r := registry.VerifyProject(id);
    after := registry.IsProjectVerified(id);
    unknown := registry.VerifyProject(id + 1);
  }

  /** A sole investor's first contribution gives 100% ownership. */
  method SoleInvestor() returns (ownership: Ownership)
    ensures ownership == Bps(10000)
  {
    var ledger := new InvestmentLedger();
    SoleStakeIsFull(100000);
    ownership := ledger.Invest(1, 100000, "tx-sender");
  }

  /**
   * Two equal contributions: the second investor gets 5000 bps while the first investor's
   * record keeps the 10000 bps computed at their own contribution, so the stored figures sum to 15000.
   */
  method TwoEqualInvestors() returns (second: Ownership, first: Option<Investment>)
    ensures second == Bps(5000)
    ensures first == Some(Investment(100000, Bps(10000), MockBlockHeight))
    ensures first.value.ownership.bps + second.bps > FullOwnershipBps
  {
    var ledger := new InvestmentLedger();
    SoleStakeIsFull(100000);
    HalfStakeIsHalf(100000);
    assert "investor1" != "investor2";
    var own := ledger.Invest(1, 100000, "investor1");
    second := ledger.Invest(1, 100000, "investor2");
    first := ledger.GetInvestment(1, "investor1");
  }

  /** Contributions of 100000 and 150000 by two investors total 250000 from 2 investors. */
  method TrackTotalInvestment() returns (aggregate: Option<ProjectInvestment>)
    ensures aggregate == Some(ProjectInvestment(250000, 2))
  {
    var ledger := new InvestmentLedger();
    var _ := ledger.Invest(1, 100000, "investor1");
    assert ledger.projectInvestments == map[1 := ProjectInvestment(100000, 1)];
    assert (1, "investor2") !in ledger.investments;
    var _ := ledger.Invest(1, 150000, "investor2");
    aggregate := ledger.GetProjectInvestment(1);
  }

  /** A repeat contribution adds to the stake but is not counted as a new investor. */
  method RepeatContribution() returns (aggregate: Option<ProjectInvestment>, ownership: Ownership)
    ensures aggregate == Some(ProjectInvestment(300, 1))
    ensures ownership == Bps(10000)
  {
    var ledger := new InvestmentLedger();
    var first := ledger.Invest(1, 100, "investor1");
    assert ledger.projectInvestments == map[1 := ProjectInvestment(100, 1)];
    assert ledger.investments == map[(1, "investor1") := Investment(100, first, MockBlockHeight)];
    SoleStakeIsFull(300);
    ownership := ledger.Invest(1, 200, "investor1");
    aggregate := ledger.GetProjectInvestment(1);
  }

  /** A zero contribution to an empty project gives NaN ownership and still counts an investor. */
  method ZeroContribution() returns (ownership: Ownership, aggregate: Option<ProjectInvestment>)
    ensures ownership == NotANumber
    ensures aggregate == Some(ProjectInvestment(0, 1))
  {
    var ledger := new InvestmentLedger();
    ownership := ledger.Invest(2, 0, "investor1");
    aggregate := ledger.GetProjectInvestment(2);
  }

  /**
   * A zero first contribution leaves a stored amount of 0, so the same investor's next contribution
   * is counted as a new investor: the count goes to 2 with a single investor.
   */
  method ZeroThenPositiveContribution() returns (aggregate: Option<ProjectInvestment>, ownership: Ownership)
    ensures aggregate == Some(ProjectInvestment(100, 2))
    ensures ownership == Bps(10000)
  {
    var ledger := new InvestmentLedger();
    var first := ledger.Invest(1, 0, "investor1");
    assert ledger.projectInvestments == map[1 := ProjectInvestment(0, 1)];
    assert ledger.investments == map[(1, "investor1") := Investment(0, first, MockBlockHeight)];
    SoleStakeIsFull(100);
    ownership := ledger.Invest(1, 100, "investor1");
    aggregate := ledger.GetProjectInvestment(1);
  }

  /** The first milestone gets id 1; completing it marks it completed without releasing funds. */
  method AddAndCompleteMilestone() returns (id: nat, r: Result<bool>, milestone: Option<Milestone>)
    ensures id == 1 && r == Ok(true)
    ensures milestone.Some? && milestone.value.completed && !milestone.value.fundsReleased
  {
    var ledger := new MilestoneLedger();
    id := ledger.AddMilestone(1, "Pre-production completed", 200000);
    r := ledger.CompleteMilestone(1, 1);
    milestone := ledger.GetMilestone(1, 1);
  }

  /** Release is refused before completion, pays the allocation once after it, and is refused again. */
  method ReleaseMilestoneFlow() returns (early: Result<nat>, released: Result<nat>, again: Result<nat>,
                                         recomplete: Result<bool>, milestone: Option<Milestone>)
    ensures early == Err(MilestoneNotCompleted)
    ensures released == Ok(200000)
    ensures again == Err(FundsAlreadyReleased)
    ensures recomplete == Err(MilestoneAlreadyCompleted)
    ensures milestone.Some? && milestone.value.completed && milestone.value.fundsReleased
  {
    var ledger := new MilestoneLedger();
    var _ := ledger.AddMilestone(1, "Pre-production completed", 200000);
    early := ledger.ReleaseMilestoneFunds(1, 1);
    var _ := ledger.CompleteMilestone(1, 1);
    released := ledger.ReleaseMilestoneFunds(1, 1);
    again := ledger.ReleaseMilestoneFunds(1, 1);
    recomplete := ledger.CompleteMilestone(1, 1);
    milestone := ledger.GetMilestone(1, 1);
  }

  /** Completing the distribution created against recorded revenue succeeds and reads back completed. */
  method CompleteDistributionFlow() returns (r: Result<bool>, distribution: Option<Distribution>, again: Result<bool>)
    ensures r == Ok(true)
    ensures distribution == Some(Distribution(300000, MockBlockHeight, true))
    ensures again == Err(DistributionAlreadyCompleted)
  {
    var ledger := new RevenueLedger();
    ledger.RecordRevenue(1, 500000);
    var _ := ledger.CreateDistribution(1, 300000);
    r := ledger.CompleteDistribution(1, 1);
    distribution := ledger.GetDistribution(1, 1);
    again := ledger.CompleteDistribution(1, 1);
  }

  /**
   * Revenue 500000 with a distribution of 300000 leaves 200000 available; a second distribution
   * of 250000 is refused and leaves the distributed revenue at 300000.
   */
  method AvailableRevenueFlow() returns (id: Result<nat>, available: int, over: Result<nat>, revenue: Option<ProjectRevenue>)
    ensures id == Ok(1)
    ensures available == 200000
    ensures over == Err(InsufficientRevenue)
    ensures revenue == Some(ProjectRevenue(500000, 300000, MockBlockHeight))
  {
    var ledger := new RevenueLedger();
    ledger.RecordRevenue(1, 500000);
    id := ledger.CreateDistribution(1, 300000);
    available := ledger.GetAvailableRevenue(1);
    over := ledger.CreateDistribution(1, 250000);
    revenue := ledger.GetProjectRevenue(1);
  }

  /**
   * Before any revenue is recorded a distribution is refused with "No revenue recorded"; once any
   * project has revenue, a project without any is refused as insufficient unless the amount is 0.
   */
  method NoRevenueFlow() returns (none: Result<nat>, insufficient: Result<nat>, empty: Result<nat>)
    ensures none == Err(NoRevenueRecorded)
    ensures insufficient == Err(InsufficientRevenue)
    ensures empty == Ok(1)
  {
    var ledger := new RevenueLedger();
    none := ledger.CreateDistribution(2, 0);
    ledger.RecordRevenue(1, 500000);
    insufficient := ledger.CreateDistribution(2, 1);
    empty := ledger.CreateDistribution(2, 0);
  }
}
