/**
 * The investment-management contract: per-project totals and per-investor stakes,
 * with an ownership figure in basis points recomputed only for the investor who acts.
 */
module InvestmentManagement {
  import opened LedgerTypes

  /** `project-investments` entry. */
  datatype ProjectInvestment = ProjectInvestment(totalInvestment: nat, investorCount: nat)

  /** `ownership-percentage`: a basis-point figure, or the NaN that 0 * 10000 / 0 gives. */
  datatype Ownership = Bps(bps: nat) | NotANumber

  /** `investments` entry, keyed by (project id, investor). */
  datatype Investment = Investment(amount: nat, ownership: Ownership, timestamp: nat)

  /** The record `invest` starts from when the investor has none. */
  const NoInvestment := Investment(0, Bps(0), 0)

  /** The aggregate `invest` starts from when the project has none. */
  const NoProjectInvestment := ProjectInvestment(0, 0)

  /**
   * `Math.floor(amount * 10000 / total)`: the largest bps with bps * total <= amount * 10000.
   * `NotANumber` stands for the zero-total case, which is reachable only as 0 / 0.
   */
  function OwnershipOf(amount: nat, total: nat): (o: Ownership)
    ensures o.NotANumber? <==> total == 0
    ensures o.Bps? ==> o.bps * total <= amount * FullOwnershipBps < (o.bps + 1) * total
  {
    if total == 0 then NotANumber else Bps(amount * FullOwnershipBps / total)
  }

  /** Cancelling a positive factor from x * t <= y * t. */
  lemma CancelLe(x: nat, y: nat, t: nat)
    requires t > 0
    ensures x * t <= y * t ==> x <= y
  {
  }

  /** Cancelling a positive factor from x * t < y * t. */
  lemma CancelLt(x: nat, y: nat, t: nat)
    requires t > 0
    ensures x * t < y * t ==> x < y
  {
  }

  /** A stake never exceeding the total gives at most 100%. */
  lemma OwnershipAtMostFull(amount: nat, total: nat)
    requires amount <= total && total > 0
    ensures OwnershipOf(amount, total).Bps? && OwnershipOf(amount, total).bps <= FullOwnershipBps
  {
  }

  /** The whole pool held by one investor is exactly 10000 bps. */
  lemma SoleStakeIsFull(amount: nat)
    requires amount > 0
    ensures OwnershipOf(amount, amount) == Bps(FullOwnershipBps)
  {
    var b := OwnershipOf(amount, amount).bps;
    CancelLe(b, FullOwnershipBps, amount);
    CancelLt(FullOwnershipBps, b + 1, amount);
  }

  /** One of two equal stakes is exactly 5000 bps. */
  lemma HalfStakeIsHalf(amount: nat)
    requires amount > 0
    ensures OwnershipOf(amount, amount + amount) == Bps(FullOwnershipBps / 2)
  {
    var t := amount + amount;
    var b := OwnershipOf(amount, t).bps;
    assert amount * FullOwnershipBps == 5000 * t;
    CancelLe(b, 5000, t);
    CancelLt(5000, b + 1, t);
  }

  /** Sum of the amounts in a stake table. */
  ghost function TotalStake(m: map<Principal, nat>): nat
    decreases |m|
  {
    if m == map[] then 0 else
      var k :| k in m;
      m[k] + TotalStake(m - {k})
  }

  /** The sum does not depend on which key is taken out first. */
  lemma {:induction false} TotalStakeRemove(m: map<Principal, nat>, k: Principal)
    requires k in m
    ensures TotalStake(m) == m[k] + TotalStake(m - {k})
    decreases |m|
  {
    var j :| j in m && TotalStake(m) == m[j] + TotalStake(m - {j});
    if j != k {
      TotalStakeRemove(m - {j}, k);
      TotalStakeRemove(m - {k}, j);
      assert m - {j} - {k} == m - {k} - {j};
    }
  }

  /** Each stake is bounded by the sum. */
  lemma StakeAtMostTotal(m: map<Principal, nat>, k: Principal)
    requires k in m
    ensures m[k] <= TotalStake(m)
  {
    TotalStakeRemove(m, k);
  }

  /** Rewriting one stake changes the sum by exactly the difference. */
  lemma TotalStakeUpdate(m: map<Principal, nat>, k: Principal, v: nat)
    ensures TotalStake(m[k := v]) + (if k in m then m[k] else 0) == TotalStake(m) + v
  {
    TotalStakeRemove(m[k := v], k);
    assert m[k := v] - {k} == m - {k};
    if k in m {
      TotalStakeRemove(m, k);
    } else {
      assert m - {k} == m;
    }
  }

  /** The stakes of project `p`, keyed by investor. */
  function StakesIn(investments: map<(nat, Principal), Investment>, p: nat): map<Principal, nat>
  {
    var investors := set k | k in investments && k.0 == p :: k.1;
    map i | i in investors :: investments[(p, i)].amount
  }

  /** Writing investor `i`'s record of project `p` changes only that entry of `p`'s stake table. */
  lemma StakesInUpdate(investments: map<(nat, Principal), Investment>, p: nat, i: Principal, rec: Investment, q: nat)
    ensures StakesIn(investments[(p, i) := rec], q)
         == if q == p then StakesIn(investments, q)[i := rec.amount] else StakesIn(investments, q)
  {
  }

  /** The aggregate of `p`, defaulted as `invest` defaults it. */
  function AggregateIn(aggregates: map<nat, ProjectInvestment>, p: nat): ProjectInvestment
  {
    if p in aggregates then aggregates[p] else NoProjectInvestment
  }

  /** The record of `(p, i)`, defaulted as `invest` defaults it. */
  function RecordIn(investments: map<(nat, Principal), Investment>, p: nat, i: Principal): Investment
  {
    if (p, i) in investments then investments[(p, i)] else NoInvestment
  }

  /** Every investment belongs to a project that has an aggregate. */
  ghost predicate InvestmentsHaveAggregates(aggregates: map<nat, ProjectInvestment>, investments: map<(nat, Principal), Investment>)
  {
    forall k :: k in investments ==> k.0 in aggregates
  }

  /** Each aggregate's total is the sum of its investors' amounts. */
  ghost predicate TotalsAreSums(aggregates: map<nat, ProjectInvestment>, investments: map<(nat, Principal), Investment>)
  {
    forall p {:trigger TotalStake(StakesIn(investments, p))} ::
      p in aggregates ==> aggregates[p].totalInvestment == TotalStake(StakesIn(investments, p))
  }

  /** Each aggregate's investor count is at least its number of investors. */
  ghost predicate CountsCoverInvestors(aggregates: map<nat, ProjectInvestment>, investments: map<(nat, Principal), Investment>)
  {
    forall p {:trigger |StakesIn(investments, p)|} ::
      p in aggregates ==> |StakesIn(investments, p)| <= aggregates[p].investorCount
  }

  /** Every stored ownership is at most 100%. */
  ghost predicate OwnershipsBounded(investments: map<(nat, Principal), Investment>)
  {
    forall k :: k in investments && investments[k].ownership.Bps? ==> investments[k].ownership.bps <= FullOwnershipBps
  }

  ghost predicate Consistent(aggregates: map<nat, ProjectInvestment>, investments: map<(nat, Principal), Investment>)
  {
    && InvestmentsHaveAggregates(aggregates, investments)
    && TotalsAreSums(aggregates, investments)
    && CountsCoverInvestors(aggregates, investments)
    && OwnershipsBounded(investments)
  }

  /** In a consistent ledger every investor's amount is at most the project total. */
  lemma RecordAtMostAggregate(aggregates: map<nat, ProjectInvestment>, investments: map<(nat, Principal), Investment>, p: nat, i: Principal)
    requires Consistent(aggregates, investments)
    ensures RecordIn(investments, p, i).amount <= AggregateIn(aggregates, p).totalInvestment
  {
    if (p, i) in investments {
      StakeAtMostTotal(StakesIn(investments, p), i);
    }
  }

  /** The aggregate `invest(p, amount)` by `caller` writes. */
  function InvestedAggregate(aggregates: map<nat, ProjectInvestment>, investments: map<(nat, Principal), Investment>,
                             p: nat, caller: Principal, amount: nat): (a: ProjectInvestment)
    ensures a.totalInvestment == AggregateIn(aggregates, p).totalInvestment + amount
    ensures a.investorCount == AggregateIn(aggregates, p).investorCount + (if RecordIn(investments, p, caller).amount == 0 then 1 else 0)
  {
    var projectData := AggregateIn(aggregates, p);
    var newInvestorCount := if RecordIn(investments, p, caller).amount == 0 then projectData.investorCount + 1 else projectData.investorCount;
    ProjectInvestment(projectData.totalInvestment + amount, newInvestorCount)
  }

  /** The record `invest(p, amount)` by `caller` writes: the caller's new stake and its fresh ownership. */
  function InvestedRecord(aggregates: map<nat, ProjectInvestment>, investments: map<(nat, Principal), Investment>,
                          p: nat, caller: Principal, amount: nat): (r: Investment)
    ensures r.amount == RecordIn(investments, p, caller).amount + amount
    ensures r.ownership == OwnershipOf(r.amount, AggregateIn(aggregates, p).totalInvestment + amount)
    ensures r.timestamp == MockBlockHeight
  {
    var newAmount := RecordIn(investments, p, caller).amount + amount;
    Investment(newAmount, OwnershipOf(newAmount, AggregateIn(aggregates, p).totalInvestment + amount), MockBlockHeight)
  }

  /** `invest` stores an ownership of at most 100%. */
  lemma InvestKeepsOwnershipBounded(aggregates: map<nat, ProjectInvestment>, investments: map<(nat, Principal), Investment>,
                                    p: nat, caller: Principal, amount: nat)
    requires Consistent(aggregates, investments)
    ensures OwnershipsBounded(investments[(p, caller) := InvestedRecord(aggregates, investments, p, caller, amount)])
  {
    var rec := InvestedRecord(aggregates, investments, p, caller, amount);
    var total := AggregateIn(aggregates, p).totalInvestment + amount;
    RecordAtMostAggregate(aggregates, investments, p, caller);
    if total > 0 {
      OwnershipAtMostFull(rec.amount, total);
    }
  }

  /** `invest` keeps every project total equal to the sum of that project's stakes. */
  lemma InvestKeepsTotals(aggregates: map<nat, ProjectInvestment>, investments: map<(nat, Principal), Investment>,
                          p: nat, caller: Principal, amount: nat)
    requires Consistent(aggregates, investments)
    ensures TotalsAreSums(aggregates[p := InvestedAggregate(aggregates, investments, p, caller, amount)],
                          investments[(p, caller) := InvestedRecord(aggregates, investments, p, caller, amount)])
  {
    var agg := InvestedAggregate(aggregates, investments, p, caller, amount);
    var rec := InvestedRecord(aggregates, investments, p, caller, amount);
    var aggregates', investments' := aggregates[p := agg], investments[(p, caller) := rec];
    var stakes := StakesIn(investments, p);
    TotalStakeUpdate(stakes, caller, rec.amount);
    assert p !in aggregates ==> stakes == map[];
    forall q | q in aggregates'
      ensures aggregates'[q].totalInvestment == TotalStake(StakesIn(investments', q))
    {
      StakesInUpdate(investments, p, caller, rec, q);
    }
  }

  /** `invest` keeps every investor count at least the number of that project's investors. */
  lemma InvestKeepsCounts(aggregates: map<nat, ProjectInvestment>, investments: map<(nat, Principal), Investment>,
                          p: nat, caller: Principal, amount: nat)
    requires Consistent(aggregates, investments)
    ensures CountsCoverInvestors(aggregates[p := InvestedAggregate(aggregates, investments, p, caller, amount)],
                                 investments[(p, caller) := InvestedRecord(aggregates, investments, p, caller, amount)])
  {
    var agg := InvestedAggregate(aggregates, investments, p, caller, amount);
    var rec := InvestedRecord(aggregates, investments, p, caller, amount);
    var aggregates', investments' := aggregates[p := agg], investments[(p, caller) := rec];
    var stakes := StakesIn(investments, p);
    assert p !in aggregates ==> stakes == map[];
    forall q | q in aggregates'
      ensures |StakesIn(investments', q)| <= aggregates'[q].investorCount
    {
      StakesInUpdate(investments, p, caller, rec, q);
      if q == p {
        assert caller in stakes <==> (p, caller) in investments;
        assert |stakes[caller := rec.amount]| <= |stakes| + 1;
        assert caller in stakes ==> |stakes[caller := rec.amount]| == |stakes|;
      }
    }
  }

  /** `invest` keeps the totals equal to the stake sums, the counts covering the investors, and ownership at most 100%. */
  lemma InvestKeepsConsistent(aggregates: map<nat, ProjectInvestment>, investments: map<(nat, Principal), Investment>,
                              p: nat, caller: Principal, amount: nat)
    requires Consistent(aggregates, investments)
    ensures Consistent(aggregates[p := InvestedAggregate(aggregates, investments, p, caller, amount)],
                       investments[(p, caller) := InvestedRecord(aggregates, investments, p, caller, amount)])
  {
    InvestKeepsOwnershipBounded(aggregates, investments, p, caller, amount);
    InvestKeepsTotals(aggregates, investments, p, caller, amount);
    InvestKeepsCounts(aggregates, investments, p, caller, amount);
  }

  class InvestmentLedger {
    /** `state.maps['project-investments']`, keyed by project id. */
    var projectInvestments: map<nat, ProjectInvestment>
    /** `state.maps['investments']`, keyed by (project id, investor). */
    var investments: map<(nat, Principal), Investment>

    /**
     * Every investment belongs to a project with an aggregate; the aggregate's total is the sum
     * of its investors' amounts and its count is at least the number of investors; every stored
     * ownership is at most 100%.
     */
    ghost predicate Valid()
      reads this
    {
      Consistent(projectInvestments, investments)
    }

    /** The state after `reset()`: both tables empty. */
    constructor ()
      ensures Valid()
      ensures projectInvestments == map[] && investments == map[]
    {
      projectInvestments := map[];
      investments := map[];
    }

    /**
     * invest: adds `amount` to the project total and to the caller's stake, recomputes the
     * caller's ownership only, and counts the caller as a new investor when their stake was 0.
     */
    method Invest(projectId: nat, amount: nat, caller: Principal) returns (ownership: Ownership)
      requires Valid()
      modifies this
      ensures Valid()
      ensures projectInvestments == old(projectInvestments)[projectId :=
                InvestedAggregate(old(projectInvestments), old(investments), projectId, caller, amount)]
      ensures investments == old(investments)[(projectId, caller) :=
                InvestedRecord(old(projectInvestments), old(investments), projectId, caller, amount)]
      ensures ownership == investments[(projectId, caller)].ownership
      ensures ownership.NotANumber? <==> old(AggregateIn(projectInvestments, projectId)).totalInvestment + amount == 0
      ensures ownership.Bps? ==> ownership.bps <= FullOwnershipBps
      ensures forall k :: k in old(investments) && k != (projectId, caller) ==> investments[k] == old(investments)[k]
    {
      InvestKeepsConsistent(projectInvestments, investments, projectId, caller, amount);
      var projectData := InvestedAggregate(projectInvestments, investments, projectId, caller, amount);
      var investmentData := InvestedRecord(projectInvestments, investments, projectId, caller, amount);
      projectInvestments := projectInvestments[projectId := projectData];
      investments := investments[(projectId, caller) := investmentData];
      ownership := investmentData.ownership;
    }

    /** get-investment: the stored record (possibly stale), or `null`. */
    function GetInvestment(projectId: nat, investor: Principal): (r: Option<Investment>)
      reads this
      ensures r.Some? <==> (projectId, investor) in investments
      ensures r.Some? ==> r.value == investments[(projectId, investor)]
      ensures Valid() && r.Some? ==>
                GetProjectInvestment(projectId).Some?
                && r.value.amount <= GetProjectInvestment(projectId).value.totalInvestment
                && (r.value.ownership.Bps? ==> r.value.ownership.bps <= FullOwnershipBps)
    {
      if (projectId, investor) in investments then
        StakeAtMostTotal(StakesIn(investments, projectId), investor);
        Some(investments[(projectId, investor)])
      else None
    }

    /** get-project-investment: the project's aggregate, or `null`. */
    function GetProjectInvestment(projectId: nat): (r: Option<ProjectInvestment>)
      reads this
      ensures r.Some? <==> projectId in projectInvestments
      ensures r.Some? ==> r.value == projectInvestments[projectId]
      ensures Valid() && r.Some? ==>
                r.value.totalInvestment == TotalStake(StakesIn(investments, projectId))
                && |StakesIn(investments, projectId)| <= r.value.investorCount
    {
      if projectId in projectInvestments then Some(projectInvestments[projectId]) else None
    }
  }
}
