/**
 * The revenue-distribution contract: per-project revenue totals, distributions that earmark
 * part of the undistributed revenue when created, and a once-only completion flag.
 */
module RevenueDistribution {
  import opened LedgerTypes

  /** `project-revenue` entry. */
  datatype ProjectRevenue = ProjectRevenue(totalRevenue: nat, distributedRevenue: nat, lastDistribution: nat)

  /** `distributions` entry, keyed by (project id, distribution id). */
  datatype Distribution = Distribution(amount: nat, timestamp: nat, completed: bool)

  /** The record both revenue operations start from when the project has none. */
  const NoRevenue := ProjectRevenue(0, 0, 0)

  /** The revenue record of `p`, defaulted as the operations default it. */
  function RevenueIn(revenue: map<nat, ProjectRevenue>, p: nat): ProjectRevenue
  {
    if p in revenue then revenue[p] else NoRevenue
  }

  /** The amount of distribution `id` of project `p`, 0 when there is none. */
  function AmountAt(distributions: map<(nat, nat), Distribution>, p: nat, id: nat): nat
  {
    if (p, id) in distributions then distributions[(p, id)].amount else 0
  }

  /** The total earmarked by distributions 1..n of project `p`. */
  function DistributedSum(distributions: map<(nat, nat), Distribution>, p: nat, n: nat): nat
  {
    if n == 0 then 0 else DistributedSum(distributions, p, n - 1) + AmountAt(distributions, p, n)
  }

  /** The sum over ids 1..n depends only on the amounts stored under those ids. */
  lemma {:induction false} DistributedSumFrame(d: map<(nat, nat), Distribution>, d': map<(nat, nat), Distribution>, p: nat, n: nat)
    requires forall id :: 1 <= id <= n ==> AmountAt(d, p, id) == AmountAt(d', p, id)
    ensures DistributedSum(d, p, n) == DistributedSum(d', p, n)
  {
    if n > 0 {
      DistributedSumFrame(d, d', p, n - 1);
    }
  }

  /** Each project's distributed revenue is the sum of its distributions' amounts. */
  ghost predicate DistributedIsSum(revenue: map<nat, ProjectRevenue>, counters: map<nat, nat>,
                                   distributions: map<(nat, nat), Distribution>)
  {
    forall p: nat {:trigger DistributedSum(distributions, p, CounterIn(counters, p))} ::
      RevenueIn(revenue, p).distributedRevenue == DistributedSum(distributions, p, CounterIn(counters, p))
  }

  /** The revenue ledger's invariant, on the four tables. */
  ghost predicate Consistent(tableExists: bool, revenue: map<nat, ProjectRevenue>,
                             counters: map<nat, nat>, distributions: map<(nat, nat), Distribution>)
  {
    && (!tableExists ==> revenue == map[])
    && DenseIds(counters, distributions)
    && (forall p :: p in counters ==> p in revenue)
    && (forall p :: p in revenue ==> revenue[p].distributedRevenue <= revenue[p].totalRevenue)
    && DistributedIsSum(revenue, counters, distributions)
    && (forall p :: p in revenue ==>
          revenue[p].lastDistribution == if CounterIn(counters, p) == 0 then 0 else MockBlockHeight)
  }

  /** Creating distribution n + 1 of `p` with `amount` adds exactly `amount` to `p`'s sum and nothing to any other. */
  lemma CreateKeepsSums(revenue: map<nat, ProjectRevenue>, counters: map<nat, nat>,
                        distributions: map<(nat, nat), Distribution>, p: nat, amount: nat, stamp: nat)
    requires DenseIds(counters, distributions)
    requires DistributedIsSum(revenue, counters, distributions)
    ensures var n := CounterIn(counters, p);
            var before := RevenueIn(revenue, p);
            DistributedIsSum(revenue[p := ProjectRevenue(before.totalRevenue, before.distributedRevenue + amount, stamp)],
                             counters[p := n + 1],
                             distributions[(p, n + 1) := Distribution(amount, stamp, false)])
  {
    var n := CounterIn(counters, p);
    var before := RevenueIn(revenue, p);
    var revenue' := revenue[p := ProjectRevenue(before.totalRevenue, before.distributedRevenue + amount, stamp)];
    var counters' := counters[p := n + 1];
    var distributions' := distributions[(p, n + 1) := Distribution(amount, stamp, false)];
    forall q: nat
      ensures RevenueIn(revenue', q).distributedRevenue == DistributedSum(distributions', q, CounterIn(counters', q))
    {
      if q == p {
        DistributedSumFrame(distributions, distributions', q, n);
      } else {
        DistributedSumFrame(distributions, distributions', q, CounterIn(counters, q));
      }
    }
  }

  /** A distribution that fits in the undistributed revenue keeps the whole invariant. */
  lemma CreateKeepsConsistent(revenue: map<nat, ProjectRevenue>, counters: map<nat, nat>,
                              distributions: map<(nat, nat), Distribution>, p: nat, amount: nat)
    requires Consistent(true, revenue, counters, distributions)
    requires amount <= RevenueIn(revenue, p).totalRevenue - RevenueIn(revenue, p).distributedRevenue
    ensures var n := CounterIn(counters, p);
            var before := RevenueIn(revenue, p);
            Consistent(true,
                       revenue[p := ProjectRevenue(before.totalRevenue, before.distributedRevenue + amount, MockBlockHeight)],
                       counters[p := n + 1],
                       distributions[(p, n + 1) := Distribution(amount, MockBlockHeight, false)])
  {
    CreateKeepsSums(revenue, counters, distributions, p, amount, MockBlockHeight);
  }

  /** Changing only the `completed` flag of one distribution changes no sum. */
  lemma CompleteKeepsSums(revenue: map<nat, ProjectRevenue>, counters: map<nat, nat>,
                          distributions: map<(nat, nat), Distribution>, key: (nat, nat))
    requires key in distributions
    requires DistributedIsSum(revenue, counters, distributions)
    ensures DistributedIsSum(revenue, counters, distributions[key := distributions[key].(completed := true)])
  {
    var distributions' := distributions[key := distributions[key].(completed := true)];
    forall q: nat
      ensures RevenueIn(revenue, q).distributedRevenue == DistributedSum(distributions', q, CounterIn(counters, q))
    {
      DistributedSumFrame(distributions, distributions', q, CounterIn(counters, q));
    }
  }

  class RevenueLedger {
    /** Whether `state.maps['project-revenue']` exists at all. */
    var revenueTableExists: bool
    /** `state.maps['project-revenue']`, keyed by project id. */
    var projectRevenue: map<nat, ProjectRevenue>
    /** `state.maps['distribution-counters']`, keyed by project id. */
    var distributionCounters: map<nat, nat>
    /** `state.maps['distributions']`, keyed by (project id, distribution id). */
    var distributions: map<(nat, nat), Distribution>

    /**
     * Distribution ids are dense and belong to projects with a revenue record (so none exists
     * without the table); each project's distributed revenue never exceeds its total
     * and equals the sum of its distributions' amounts; the last-distribution stamp is set
     * exactly when the project has a distribution.
     */
    ghost predicate Valid()
      reads this
    {
      Consistent(revenueTableExists, projectRevenue, distributionCounters, distributions)
    }

    /** The state after `reset()`: no table at all. */
    constructor ()
      ensures Valid()
      ensures !revenueTableExists && projectRevenue == map[] && distributionCounters == map[] && distributions == map[]
    {
      revenueTableExists := false;
      projectRevenue := map[];
      distributionCounters := map[];
      distributions := map[];
    }

    /** record-revenue: creates the revenue table if needed and adds `amount` to the project's total revenue only. */
    method RecordRevenue(projectId: nat, amount: nat)
      requires Valid()
      modifies this`revenueTableExists, this`projectRevenue
      ensures Valid()
      ensures revenueTableExists
      ensures var before := old(RevenueIn(projectRevenue, projectId));
              projectRevenue == old(projectRevenue)[projectId := before.(totalRevenue := before.totalRevenue + amount)]
    {
      revenueTableExists := true;
      var revenueData := RevenueIn(projectRevenue, projectId);
      projectRevenue := projectRevenue[projectId := revenueData.(totalRevenue := revenueData.totalRevenue + amount)];
    }

    /**
     * create-distribution: fails when no revenue table exists, then when `amount` exceeds the
     * undistributed revenue; otherwise allocates the next distribution id, stores an incomplete
     * distribution and earmarks `amount` as distributed.
     */
    method CreateDistribution(projectId: nat, amount: nat) returns (r: Result<nat>)
      requires Valid()
      modifies this`projectRevenue, this`distributionCounters, this`distributions
      ensures Valid()
      ensures var before := old(RevenueIn(projectRevenue, projectId));
              r == if !revenueTableExists then Err(NoRevenueRecorded)
                   else if amount > before.totalRevenue - before.distributedRevenue then Err(InsufficientRevenue)
                   else Ok(old(CounterIn(distributionCounters, projectId)) + 1)
      ensures r.Err? ==> projectRevenue == old(projectRevenue)
                         && distributionCounters == old(distributionCounters)
                         && distributions == old(distributions)
      ensures r.Ok? ==>
                var before := old(RevenueIn(projectRevenue, projectId));
                && distributionCounters == old(distributionCounters)[projectId := r.value]
                && (projectId, r.value) !in old(distributions)
                && distributions == old(distributions)[(projectId, r.value) := Distribution(amount, MockBlockHeight, false)]
                && projectRevenue == old(projectRevenue)[projectId :=
                     ProjectRevenue(before.totalRevenue, before.distributedRevenue + amount, MockBlockHeight)]
    {
      if !revenueTableExists {
        return Err(NoRevenueRecorded);
      }
      var revenueData := RevenueIn(projectRevenue, projectId);
      var availableRevenue := revenueData.totalRevenue - revenueData.distributedRevenue;
      if amount > availableRevenue {
        return Err(InsufficientRevenue);
      }
      var newId := Earmark(projectId, amount);
      r := Ok(newId);
    }

    /** The success path of create-distribution, once both checks have passed. */
    method Earmark(projectId: nat, amount: nat) returns (newId: nat)
      requires Valid() && revenueTableExists
      requires amount <= RevenueIn(projectRevenue, projectId).totalRevenue - RevenueIn(projectRevenue, projectId).distributedRevenue
      modifies this`projectRevenue, this`distributionCounters, this`distributions
      ensures Valid()
      ensures newId == old(CounterIn(distributionCounters, projectId)) + 1
      ensures var before := old(RevenueIn(projectRevenue, projectId));
              && distributionCounters == old(distributionCounters)[projectId := newId]
              && (projectId, newId) !in old(distributions)
              && distributions == old(distributions)[(projectId, newId) := Distribution(amount, MockBlockHeight, false)]
              && projectRevenue == old(projectRevenue)[projectId :=
                   ProjectRevenue(before.totalRevenue, before.distributedRevenue + amount, MockBlockHeight)]
    {
      var revenueData := RevenueIn(projectRevenue, projectId);
      newId := CounterIn(distributionCounters, projectId) + 1;
      CreateKeepsConsistent(projectRevenue, distributionCounters, distributions, projectId, amount);
      distributionCounters := distributionCounters[projectId := newId];
      distributions := distributions[(projectId, newId) := Distribution(amount, MockBlockHeight, false)];
      projectRevenue := projectRevenue[projectId := ProjectRevenue(revenueData.totalRevenue, revenueData.distributedRevenue + amount, MockBlockHeight)];
    }

    /** complete-distribution: a missing distribution is not found, a completed one fails; otherwise marks it completed. */
    method CompleteDistribution(projectId: nat, distributionId: nat) returns (r: Result<bool>)
      requires Valid()
      modifies this`distributions
      ensures Valid()
      ensures var k := (projectId, distributionId);
              r == if k !in old(distributions) then Err(DistributionNotFound)
                   else if old(distributions)[k].completed then Err(DistributionAlreadyCompleted)
                   else Ok(true)
      ensures r.Ok? ==> distributions == old(distributions)[(projectId, distributionId) :=
                          old(distributions)[(projectId, distributionId)].(completed := true)]
      ensures r.Err? ==> distributions == old(distributions)
    {
      var key := (projectId, distributionId);
      if key !in distributions {
        return Err(DistributionNotFound);
      }
      if distributions[key].completed {
        return Err(DistributionAlreadyCompleted);
      }
      CompleteKeepsSums(projectRevenue, distributionCounters, distributions, key);
      distributions := distributions[key := distributions[key].(completed := true)];
      r := Ok(true);
    }

    /** get-project-revenue: the project's revenue record, or `null` when it or the whole table is absent. */
    function GetProjectRevenue(projectId: nat): (r: Option<ProjectRevenue>)
      reads this
      ensures r.Some? <==> revenueTableExists && projectId in projectRevenue
      ensures r.Some? ==> r.value == projectRevenue[projectId]
      ensures Valid() && r.Some? ==>
                && r.value.distributedRevenue <= r.value.totalRevenue
                && r.value.distributedRevenue == DistributedSum(distributions, projectId, CounterIn(distributionCounters, projectId))
    {
      if revenueTableExists && projectId in projectRevenue then Some(projectRevenue[projectId]) else None
    }

    /** get-distribution: the stored distribution, or `null`; present exactly for the project's ids 1..counter. */
    function GetDistribution(projectId: nat, distributionId: nat): (r: Option<Distribution>)
      reads this
      ensures r.Some? ==> (projectId, distributionId) in distributions && r.value == distributions[(projectId, distributionId)]
      ensures Valid() ==> (r.Some? <==> 1 <= distributionId <= CounterIn(distributionCounters, projectId))
    {
      if (projectId, distributionId) in distributions then Some(distributions[(projectId, distributionId)]) else None
    }

    /** get-available-revenue: total revenue minus everything the project's distributions earmarked. */
    function GetAvailableRevenue(projectId: nat): (available: int)
      reads this
      ensures Valid() ==>
                && available >= 0
                && available + DistributedSum(distributions, projectId, CounterIn(distributionCounters, projectId))
                   == RevenueIn(projectRevenue, projectId).totalRevenue
    {
      var revenueData := RevenueIn(projectRevenue, projectId);
      revenueData.totalRevenue - revenueData.distributedRevenue
    }
  }
}
