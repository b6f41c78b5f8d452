/** Projects and their deletion jobs as mutable rows: each method is one transaction, proved against DeletionStore. */
module DeletionRepository {
  import opened Wrappers
  import opened Ids
  import R = RouteStore
  import S = DeletionStore

  ghost predicate Commits(before: S.Db, outcome: Result<S.Db, S.DeletionError>, after: S.Db,
                          p: ProjectId, r: Result<S.Job, S.DeletionError>)
  {
    match outcome
    case Success(db) => after == db && p in db.jobs && r == Success(db.jobs[p])
    case Failure(e) => after == before && r == Failure(e)
  }

  class ProjectRepository {
    var projects: map<ProjectId, ProjectStatus>
    var routes: map<ProjectId, R.Route>
    var resources: set<ProjectId>
    var jobs: map<ProjectId, S.Job>
    var nextToken: Token

    constructor ()
      ensures projects == map[] && routes == map[] && resources == {} && Tables() == S.Db(map[], 0)
    {
      projects, routes, resources, jobs, nextToken := map[], map[], {}, map[], 0;
    }

    ghost function Tables(): S.Db
      reads this
    {
      S.Db(jobs, nextToken)
    }

    method RequestDeletion(p: ProjectId, confirmation: S.Confirmation, now: Time) returns (r: Result<S.Job, S.DeletionError>)
      modifies this`projects, this`jobs
      ensures Commits(old(Tables()), S.Request(old(Tables()), p, p in old(projects), p in resources, confirmation, now), Tables(), p, r)
      ensures projects == if jobs == old(jobs) then old(projects) else old(projects)[p := Deleting]
    {
      if p !in projects {
        return Failure(S.NotFound);
      }
      var refused := S.Confirmed(confirmation, p in resources);
      if refused.Some? {
        return Failure(refused.value);
      }
      if p in jobs {
        if jobs[p].state == S.Failed {
          return Failure(S.DeletionFailed);
        }
        return Success(jobs[p]);
      }
      projects := projects[p := Deleting];
      jobs := jobs[p := S.Job(S.Pending, S.Requested, 0, now, None, p in resources, None)];
      assert p in jobs && p !in old(jobs);
      r := Success(jobs[p]);
    }

    method RetryDeletion(p: ProjectId, confirmation: S.Confirmation, now: Time) returns (r: Result<S.Job, S.DeletionError>)
      modifies this`jobs
      ensures Commits(old(Tables()), S.Retry(old(Tables()), p, p in projects, p in resources, confirmation, now), Tables(), p, r)
    {
      if p !in projects {
        return Failure(S.NotFound);
      }
      var refused := S.Confirmed(confirmation, p in resources);
      if refused.Some? {
        return Failure(refused.value);
      }
      if p !in jobs {
        return Failure(S.NotFound);
      }
      if jobs[p].state != S.Failed {
        return Failure(S.NotFailed);
      }
      jobs := jobs[p := jobs[p].(state := S.Pending, attempts := 0, availableAt := now, lease := None, lastError := None)];
      r := Success(jobs[p]);
    }

    /** Claims some claimable job; refuses only when there is none. */
    method ClaimNext(owner: WorkerId, now: Time, duration: nat) returns (claim: Option<S.Claim>)
      modifies this`jobs, this`nextToken
      ensures claim == None ==> Tables() == old(Tables()) && forall p :: p in old(jobs) ==> !S.Claimable(old(Tables()), p, now)
      ensures claim.Some? ==>
        && S.Claimable(old(Tables()), claim.value.project, now)
        && (Tables(), claim.value) == S.ClaimJob(old(Tables()), claim.value.project, owner, now, duration)
    {
      var tables := S.Db(jobs, nextToken);
      if exists p :: p in jobs && S.Claimable(tables, p, now) {
        var p :| p in jobs && S.Claimable(tables, p, now);
        jobs := jobs[p := jobs[p].(state := S.Claimed, attempts := jobs[p].attempts + 1,
                                   lease := Some(Lease(owner, nextToken, now + duration)))];
        claim := Some(S.Claim(p, jobs[p], owner, nextToken));
        nextToken := nextToken + 1;
      } else {
        claim := None;
      }
    }

    method Renew(c: S.Claim, now: Time, duration: nat) returns (r: Result<S.Job, S.DeletionError>)
      modifies this`jobs
      ensures Commits(old(Tables()), S.Renew(old(Tables()), c, now, duration), Tables(), c.project, r)
    {
      if !S.Live(S.Db(jobs, nextToken), c, now) {
        return Failure(S.ClaimLost);
      }
      var j := jobs[c.project];
      jobs := jobs[c.project := j.(lease := Some(j.lease.value.(expiresAt := now + duration)))];
      r := Success(jobs[c.project]);
    }

    method Advance(c: S.Claim, now: Time, expected: S.Phase, next: S.Phase) returns (r: Result<S.Job, S.DeletionError>)
      modifies this`jobs
      ensures Commits(old(Tables()), S.Advance(old(Tables()), c, now, expected, next), Tables(), c.project, r)
    {
      if S.Index(next) != S.Index(expected) + 1 {
        return Failure(S.NotNextPhase);
      }
      if !S.Live(S.Db(jobs, nextToken), c, now) {
        return Failure(S.ClaimLost);
      }
      if jobs[c.project].phase != expected {
        return Failure(S.ClaimLost);
      }
      jobs := jobs[c.project := jobs[c.project].(phase := next)];
      r := Success(jobs[c.project]);
    }

    method Fail(c: S.Claim, now: Time, error: S.LastError) returns (r: Result<S.Job, S.DeletionError>)
      modifies this`jobs
      ensures Commits(old(Tables()), S.Fail(old(Tables()), c, now, error), Tables(), c.project, r)
    {
      if !S.Live(S.Db(jobs, nextToken), c, now) {
        return Failure(S.ClaimLost);
      }
      jobs := jobs[c.project := jobs[c.project].(state := S.Failed, lease := None, lastError := Some(error))];
      r := Success(jobs[c.project]);
    }

    method Reschedule(c: S.Claim, now: Time, availableAt: Time) returns (r: Result<S.Job, S.DeletionError>)
      modifies this`jobs
      ensures Commits(old(Tables()), S.Reschedule(old(Tables()), c, now, availableAt), Tables(), c.project, r)
    {
      if !S.Live(S.Db(jobs, nextToken), c, now) {
        return Failure(S.ClaimLost);
      }
      jobs := jobs[c.project := jobs[c.project].(state := S.Pending, availableAt := availableAt, lease := None)];
      r := Success(jobs[c.project]);
    }

    method Defer(c: S.Claim, now: Time, availableAt: Time) returns (r: Result<S.Job, S.DeletionError>)
      modifies this`jobs
      ensures Commits(old(Tables()), S.Defer(old(Tables()), c, now, availableAt), Tables(), c.project, r)
    {
      if !S.Live(S.Db(jobs, nextToken), c, now) {
        return Failure(S.ClaimLost);
      }
      var j := jobs[c.project];
      var attempts := j.attempts;
      if attempts >= 1 {
        attempts := attempts - 1;
      }
      jobs := jobs[c.project := j.(state := S.Pending, attempts := attempts, availableAt := availableAt, lease := None)];
      r := Success(jobs[c.project]);
    }

    /** The project has no route row, or the one it has is removed. */
    predicate RouteRemoved(p: ProjectId)
      reads this`routes
    {
      p in routes ==> R.Removed(routes[p])
    }

    /** The rows of the project go together, or not at all. */
    method FinalizeDeletion(c: S.Claim, now: Time) returns (r: Result<(), S.DeletionError>)
      modifies this
      ensures r.Success? <==>
        && S.Live(old(Tables()), c, now) && old(jobs)[c.project].phase == S.MetadataDelete
        && c.project in old(projects) && old(projects)[c.project] == Deleting && old(RouteRemoved(c.project))
      ensures r.Success? ==>
        && projects == old(projects) - {c.project} && resources == old(resources) - {c.project}
        && routes == old(routes) - {c.project} && Tables() == old(Tables()).(jobs := old(jobs) - {c.project})
      ensures r.Failure? ==>
        && r.error == S.ClaimLost && projects == old(projects) && resources == old(resources)
        && routes == old(routes) && Tables() == old(Tables())
    {
      if !S.Live(S.Db(jobs, nextToken), c, now) || jobs[c.project].phase != S.MetadataDelete
         || c.project !in projects || projects[c.project] != Deleting || !RouteRemoved(c.project) {
        return Failure(S.ClaimLost);
      }
      routes := routes - {c.project};
      resources := resources - {c.project};
      jobs := jobs - {c.project};
      projects := projects - {c.project};
      r := Success(());
    }
  }
}
