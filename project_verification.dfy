/** The project-verification contract: a registry of film projects with a verified flag. */
module ProjectVerification {
  import opened LedgerTypes

  datatype FilmProject = FilmProject(
    title: string,
    director: string,
    budget: nat,
    startDate: nat,
    endDate: nat,
    verified: bool,
    active: bool)

  class ProjectRegistry {
    /** `state.vars['project-id-counter']`, 0 while absent. */
    var projectIdCounter: nat
    /** `state.maps['film-projects']`, keyed by project id. */
    var filmProjects: map<nat, FilmProject>

    /** Project ids are exactly 1..projectIdCounter, and every project is active. */
    ghost predicate Valid()
      reads this
    {
      && (forall id :: id in filmProjects <==> 1 <= id <= projectIdCounter)
      && (forall id :: id in filmProjects ==> filmProjects[id].active)
    }

    /** The state after `reset()`: no counter, no project table. */
    constructor ()
      ensures Valid()
      ensures projectIdCounter == 0 && filmProjects == map[]
    {
      projectIdCounter := 0;
      filmProjects := map[];
    }

    /** register-project: allocates the next id and stores an unverified, active project. */
    method RegisterProject(title: string, director: string, budget: nat, startDate: nat, endDate: nat)
      returns (id: nat)
      requires Valid()
      modifies this
      ensures Valid()
      ensures id == old(projectIdCounter) + 1 && projectIdCounter == id
      ensures id !in old(filmProjects)
      ensures filmProjects == old(filmProjects)[id := FilmProject(title, director, budget, startDate, endDate, false, true)]
    {
      id := projectIdCounter + 1;
      projectIdCounter := id;
      filmProjects := filmProjects[id := FilmProject(title, director, budget, startDate, endDate, false, true)];
    }

    /** verify-project: sets `verified` of an existing project; fails on an unknown id. */
    method VerifyProject(id: nat) returns (r: Result<bool>)
      requires Valid()
      modifies this`filmProjects
      ensures Valid()
      ensures r == (if id in old(filmProjects) then Ok(true) else Err(ProjectNotFound))
      ensures r.Ok? ==> filmProjects == old(filmProjects)[id := old(filmProjects)[id].(verified := true)]
      ensures r.Err? ==> filmProjects == old(filmProjects)
    {
      if id !in filmProjects {
        return Err(ProjectNotFound);
      }
      filmProjects := filmProjects[id := filmProjects[id].(verified := true)];
      r := Ok(true);
    }

    /** get-project: the stored project, or `null` for an id that was never allocated. */
    function GetProject(id: nat): (r: Option<FilmProject>)
      reads this
      ensures Valid() ==> (r.Some? <==> 1 <= id <= projectIdCounter)
      ensures r.Some? ==> id in filmProjects && r.value == filmProjects[id]
      ensures Valid() && r.Some? ==> r.value.active
    {
      if id in filmProjects then Some(filmProjects[id]) else None
    }

    /** is-project-verified: false for an unknown project. */
    function IsProjectVerified(id: nat): (b: bool)
      reads this
      ensures b <==> GetProject(id).Some? && GetProject(id).value.verified
    {
      if id in filmProjects then filmProjects[id].verified else false
    }
  }
}
