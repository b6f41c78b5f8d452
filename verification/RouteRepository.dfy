/** The route tables as mutable rows: each method is one transaction, proved against RouteStore. */
module RouteRepository {
  import opened Wrappers
  import opened Ids
  import S = RouteStore

  /** The transaction either leaves the specified tables and returns the row, or changes nothing. */
  ghost predicate Commits(before: S.Db, outcome: Result<S.Db, S.RouteError>, after: S.Db,
                          p: ProjectId, r: Result<S.Route, S.RouteError>)
  {
    match outcome
    case Success(db) => after == db && p in db.routes && r == Success(db.routes[p])
    case Failure(e) => after == before && r == Failure(e)
  }

  class PublicRouteRepository {
    var projects: map<ProjectId, ProjectStatus>
    var routes: map<ProjectId, S.Route>
    var jobs: map<ProjectId, S.Job>
    var nextToken: Token

    constructor ()
      ensures Tables() == S.Db(map[], map[], map[], 0)
    {
      projects, routes, jobs, nextToken := map[], map[], map[], 0;
    }

    ghost function Tables(): S.Db
      reads this
    {
      S.Db(projects, routes, jobs, nextToken)
    }

    /** Writes a row whose desired state was requested and (re)starts its job. */
    method UpsertJob(p: ProjectId, row: S.Route, now: Time)
      modifies this`routes, this`jobs
      ensures Tables() == S.Request(old(Tables()), p, row, row.revision, now)
    {
      routes := routes[p := row.(status := S.Pending, lastError := None)];
      jobs := jobs[p := S.Job(row.revision, S.JobPending, 0, now, None, None)];
    }

    method SetEnabled(p: ProjectId, hostname: S.Hostname, now: Time) returns (r: Result<S.Route, S.RouteError>)
      modifies this`routes, this`jobs
      ensures Commits(old(Tables()), S.SetEnabled(old(Tables()), p, hostname, now), Tables(), p, r)
    {
      if p in projects && projects[p] == Deleting {
        return Failure(S.ProjectDeleting);
      }
      if exists q :: q in routes && q != p && S.Holds(routes[q], hostname) {
        return Failure(S.HostnameConflict);
      }
      if p !in routes {
        if p !in projects {
          return Failure(S.UnknownProject);
        }
        UpsertJob(p, S.Route(hostname, S.Enabled, S.Pending, 1, None, None, None), now);
        return Success(routes[p]);
      }
      var current := routes[p];
      var same := current.desired == S.Enabled && current.hostname == hostname;
      if same && current.status in {S.Pending, S.Applying, S.Active} {
        return Success(current);
      }
      var revision := current.revision;
      if !same {
        revision := revision + 1;
      }
      UpsertJob(p, current.(hostname := hostname, desired := S.Enabled, revision := revision), now);
      r := Success(routes[p]);
    }

    method Disable(p: ProjectId, now: Time) returns (r: Result<S.Route, S.RouteError>)
      modifies this`routes, this`jobs
      ensures Commits(old(Tables()), S.Disable(old(Tables()), p, now), Tables(), p, r)
    {
      if p in projects && projects[p] == Deleting {
        return Failure(S.ProjectDeleting);
      }
      if p !in routes {
        return Failure(S.RouteNotFound);
      }
      DisableExisting(p, now);
      r := Success(routes[p]);
    }

    method DisableForDeletion(p: ProjectId, now: Time) returns (r: Result<Option<S.Route>, S.RouteError>)
      modifies this`routes, this`jobs
      ensures match S.DisableForDeletion(old(Tables()), p, now)
        case Success(db) => Tables() == db && r == Success(if p in db.routes then Some(db.routes[p]) else None)
        case Failure(e) => Tables() == old(Tables()) && r == Failure(e)
    {
      if p !in projects || projects[p] != Deleting {
        return Failure(S.ProjectDeleting);
      }
      if p !in routes {
        return Success(None);
      }
      DisableExisting(p, now);
      r := Success(Some(routes[p]));
    }

    method DisableExisting(p: ProjectId, now: Time)
      requires p in routes
      modifies this`routes, this`jobs
      ensures Tables() == S.DisableRow(old(Tables()), p, now)
    {
      var current := routes[p];
      var same := current.desired == S.Disabled;
      if same && current.status in {S.Pending, S.Applying, S.Inactive} {
        return;
      }
      var revision := current.revision;
      if !same {
        revision := revision + 1;
      }
      UpsertJob(p, current.(desired := S.Disabled, revision := revision), now);
    }

    method WakePending(p: ProjectId, now: Time)
      modifies this`jobs
      ensures Tables() == S.WakePending(old(Tables()), p, now)
    {
      if p in jobs && p in routes {
        var job, route := jobs[p], routes[p];
        if && job.state == S.JobPending && job.lastError == Some(S.GATEWAY_START_FAILED)
           && route.desired == S.Enabled && route.status == S.Pending
           && route.revision == job.revision && route.lastError == Some(S.GATEWAY_START_FAILED)
           && now < job.availableAt
        {
          jobs := jobs[p := job.(availableAt := now)];
        }
      }
    }

    /** Claims some claimable job; refuses only when there is none. */
    method ClaimNext(owner: WorkerId, now: Time, duration: nat) returns (claim: Option<S.Claim>)
      modifies this
      ensures claim == None ==> Tables() == old(Tables()) && forall p :: p in old(jobs) ==> !S.Claimable(old(Tables()), p, now)
      ensures claim.Some? ==>
        && S.Claimable(old(Tables()), claim.value.project, now)
        && (Tables(), claim.value) == S.ClaimJob(old(Tables()), claim.value.project, owner, now, duration)
    {
      var tables := S.Db(projects, routes, jobs, nextToken);
      if !exists p :: p in jobs && S.Claimable(tables, p, now) {
        return None;
      }
      var p :| p in jobs && S.Claimable(tables, p, now);
      var token := nextToken;
      nextToken := nextToken + 1;
      var job := jobs[p];
      jobs := jobs[p := job.(state := S.JobClaimed, attempts := job.attempts + 1, lastError := None,
                             lease := Some(Lease(owner, token, now + duration)))];
      routes := routes[p := routes[p].(status := S.Applying, lastError := None)];
      claim := Some(S.Claim(p, routes[p], owner, token, job.revision, job.attempts + 1));
    }

    method Renew(c: S.Claim, now: Time, duration: nat) returns (r: Result<S.Route, S.RouteError>)
      modifies this`jobs
      ensures Commits(old(Tables()), S.Renew(old(Tables()), c, now, duration), Tables(), c.project, r)
    {
      if !S.Live(S.Db(projects, routes, jobs, nextToken), c, now) {
        return Failure(S.ClaimLost);
      }
      var job := jobs[c.project];
      jobs := jobs[c.project := job.(lease := Some(job.lease.value.(expiresAt := now + duration)))];
      r := Success(routes[c.project]);
    }

    method FinishJob(c: S.Claim, state: S.JobState, error: Option<string>)
      requires c.project in jobs
      modifies this`jobs
      ensures jobs == old(jobs)[c.project := old(jobs)[c.project].(state := state, lease := None, lastError := error)]
    {
      jobs := jobs[c.project := jobs[c.project].(state := state, lease := None, lastError := error)];
    }

    method Complete(c: S.Claim, now: Time) returns (r: Result<S.Route, S.RouteError>)
      modifies this`routes, this`jobs
      ensures Commits(old(Tables()), S.Complete(old(Tables()), c, now), Tables(), c.project, r)
    {
      if !S.Live(S.Db(projects, routes, jobs, nextToken), c, now) {
        return Failure(S.ClaimLost);
      }
      var current := routes[c.project];
      var status, hostname := S.Inactive, None;
      if current.desired == S.Enabled {
        status, hostname := S.Active, Some(current.hostname);
      }
      routes := routes[c.project := current.(status := status, appliedRevision := Some(current.revision),
                                             appliedHostname := hostname, lastError := None)];
      FinishJob(c, S.JobSucceeded, None);
      r := Success(routes[c.project]);
    }

    method Fail(c: S.Claim, now: Time, code: string, uncertain: bool) returns (r: Result<S.Route, S.RouteError>)
      modifies this`routes, this`jobs
      ensures Commits(old(Tables()), S.Fail(old(Tables()), c, now, code, uncertain), Tables(), c.project, r)
    {
      if !S.Live(S.Db(projects, routes, jobs, nextToken), c, now) {
        return Failure(S.ClaimLost);
      }
      var status := if uncertain then S.Uncertain else S.Failed;
      routes := routes[c.project := routes[c.project].(status := status, lastError := Some(code))];
      FinishJob(c, S.JobFailed, Some(code));
      r := Success(routes[c.project]);
    }

    method Reschedule(c: S.Claim, now: Time, availableAt: Time, code: string) returns (r: Result<S.Route, S.RouteError>)
      modifies this`routes, this`jobs
      ensures Commits(old(Tables()), S.Reschedule(old(Tables()), c, now, availableAt, code), Tables(), c.project, r)
    {
      if !S.Live(S.Db(projects, routes, jobs, nextToken), c, now) {
        return Failure(S.ClaimLost);
      }
      routes := routes[c.project := routes[c.project].(status := S.Pending, lastError := Some(code))];
      FinishJob(c, S.JobPending, Some(code));
      jobs := jobs[c.project := jobs[c.project].(availableAt := availableAt)];
      r := Success(routes[c.project]);
    }
  }
}
