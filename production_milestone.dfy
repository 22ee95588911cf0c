/**
 * The production-milestone contract: per-project milestones with dense 1-based ids, each moving
 * Created -> Completed -> Released, with release reporting the escrowed amount.
 */
module ProductionMilestone {
  import opened LedgerTypes

  /** `milestones` entry, keyed by (project id, milestone id). */
  datatype Milestone = Milestone(
    description: string,
    fundsAllocated: nat,
    completed: bool,
    fundsReleased: bool,
    completionDate: nat)

  /** Released implies completed, and the completion date is stamped exactly when completed. */
  predicate WellFormed(m: Milestone)
  {
    && (m.fundsReleased ==> m.completed)
    && m.completionDate == (if m.completed then MockBlockHeight else 0)
  }

  /** No milestone disappears and no flag is ever cleared. */
  ghost predicate NoRegress(before: map<(nat, nat), Milestone>, after: map<(nat, nat), Milestone>)
  {
    forall k :: k in before ==>
      && k in after
      && after[k].description == before[k].description
      && after[k].fundsAllocated == before[k].fundsAllocated
      && (before[k].completed ==> after[k].completed)
      && (before[k].fundsReleased ==> after[k].fundsReleased)
  }

  class MilestoneLedger {
    /** `state.maps['milestone-counters']`, keyed by project id. */
    var milestoneCounters: map<nat, nat>
    /** `state.maps['milestones']`, keyed by (project id, milestone id). */
    var milestones: map<(nat, nat), Milestone>

    ghost predicate Valid()
      reads this
    {
      && DenseIds(milestoneCounters, milestones)
      && (forall k :: k in milestones ==> WellFormed(milestones[k]))
    }

    /** The state after `reset()`: both tables empty. */
    constructor ()
      ensures Valid()
      ensures milestoneCounters == map[] && milestones == map[]
    {
      milestoneCounters := map[];
      milestones := map[];
    }

    /** add-milestone: allocates the project's next id and stores a milestone neither completed nor released. */
    method AddMilestone(projectId: nat, description: string, fundsAllocated: nat) returns (id: nat)
      requires Valid()
      modifies this
      ensures Valid()
      ensures id == old(CounterIn(milestoneCounters, projectId)) + 1
      ensures milestoneCounters == old(milestoneCounters)[projectId := id]
      ensures (projectId, id) !in old(milestones)
      ensures milestones == old(milestones)[(projectId, id) := Milestone(description, fundsAllocated, false, false, 0)]
      ensures NoRegress(old(milestones), milestones)
    {
      id := CounterIn(milestoneCounters, projectId) + 1;
      milestoneCounters := milestoneCounters[projectId := id];
      milestones := milestones[(projectId, id) := Milestone(description, fundsAllocated, false, false, 0)];
    }

    /** complete-milestone: a missing milestone is not found, a completed one fails; otherwise marks it completed. */
    method CompleteMilestone(projectId: nat, milestoneId: nat) returns (r: Result<bool>)
      requires Valid()
      modifies this`milestones
      ensures Valid()
      ensures var k := (projectId, milestoneId);
              r == if k !in old(milestones) then Err(MilestoneNotFound)
                   else if old(milestones)[k].completed then Err(MilestoneAlreadyCompleted)
                   else Ok(true)
      ensures r.Ok? ==> milestones == old(milestones)[(projectId, milestoneId) :=
                          old(milestones)[(projectId, milestoneId)].(completed := true, completionDate := MockBlockHeight)]
      ensures r.Err? ==> milestones == old(milestones)
      ensures NoRegress(old(milestones), milestones)
    {
      var key := (projectId, milestoneId);
      if key !in milestones {
        return Err(MilestoneNotFound);
      }
      if milestones[key].completed {
        return Err(MilestoneAlreadyCompleted);
      }
      milestones := milestones[key := milestones[key].(completed := true, completionDate := MockBlockHeight)];
      r := Ok(true);
    }

    /**
     * release-milestone-funds: checks not found, then not completed, then already released;
     * otherwise marks the funds released and reports the allocated amount.
     */
    method ReleaseMilestoneFunds(projectId: nat, milestoneId: nat) returns (r: Result<nat>)
      requires Valid()
      modifies this`milestones
      ensures Valid()
      ensures var k := (projectId, milestoneId);
              r == if k !in old(milestones) then Err(MilestoneNotFound)
                   else if !old(milestones)[k].completed then Err(MilestoneNotCompleted)
                   else if old(milestones)[k].fundsReleased then Err(FundsAlreadyReleased)
                   else Ok(old(milestones)[k].fundsAllocated)
      ensures r.Ok? ==> milestones == old(milestones)[(projectId, milestoneId) :=
                          old(milestones)[(projectId, milestoneId)].(fundsReleased := true)]
      ensures r.Err? ==> milestones == old(milestones)
      ensures NoRegress(old(milestones), milestones)
    {
      var key := (projectId, milestoneId);
      if key !in milestones {
        return Err(MilestoneNotFound);
      }
      if !milestones[key].completed {
        return Err(MilestoneNotCompleted);
      }
      if milestones[key].fundsReleased {
        return Err(FundsAlreadyReleased);
      }
      milestones := milestones[key := milestones[key].(fundsReleased := true)];
      r := Ok(milestones[key].fundsAllocated);
    }

    /** get-milestone: the stored milestone, or `null`; present exactly for ids 1..get-milestone-count. */
    function GetMilestone(projectId: nat, milestoneId: nat): (r: Option<Milestone>)
      reads this
      ensures r.Some? ==> (projectId, milestoneId) in milestones && r.value == milestones[(projectId, milestoneId)]
      ensures Valid() ==> (r.Some? <==> 1 <= milestoneId <= GetMilestoneCount(projectId))
      ensures Valid() && r.Some? ==> WellFormed(r.value)
    {
      if (projectId, milestoneId) in milestones then Some(milestones[(projectId, milestoneId)]) else None
    }

    /** get-milestone-count: the project's counter, or 0 when it has none. */
    function GetMilestoneCount(projectId: nat): (n: nat)
      reads this
      ensures Valid() ==> (projectId, n + 1) !in milestones
      ensures Valid() ==> forall id :: 1 <= id <= n ==> (projectId, id) in milestones
    {
      CounterIn(milestoneCounters, projectId)
    }
  }
}
