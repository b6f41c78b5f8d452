/** The deployment tables as mutable rows: each method is one transaction, proved against DeploymentStore. */
module DeploymentRepository {
  import opened Wrappers
  import opened Ids
  import S = DeploymentStore

  ghost predicate Commits(before: S.Db, outcome: Result<S.Db, S.DeploymentError>, after: S.Db,
                          d: DeploymentId, r: Result<S.Deployment, S.DeploymentError>)
  {
    match outcome
    case Success(db) => after == db && d in db.deployments && r == Success(db.deployments[d])
    case Failure(e) => after == before && r == Failure(e)
  }

  class DeploymentRepository {
    var deployments: map<DeploymentId, S.Deployment>
    var jobs: map<DeploymentId, S.Job>
    var nextToken: Token

    constructor ()
      ensures Tables() == S.Db(map[], map[], 0)
    {
      deployments, jobs, nextToken := map[], map[], 0;
    }

    ghost function Tables(): S.Db
      reads this
    {
      S.Db(deployments, jobs, nextToken)
    }

    method Create(d: DeploymentId, p: ProjectId, project: Option<ProjectStatus>, snapshot: S.Snapshot, now: Time)
      returns (r: Result<S.Deployment, S.DeploymentError>)
      requires d !in deployments
      modifies this`deployments, this`jobs
      ensures Commits(old(Tables()), S.Create(old(Tables()), d, p, project, snapshot, now), Tables(), d, r)
    {
      if project == Some(Deleting) {
        return Failure(S.ProjectDeleting);
      }
      if project == None {
        return Failure(S.UnknownProject);
      }
      if S.HasActive(S.Db(deployments, jobs, nextToken), p) {
        return Failure(S.ActiveDeployment);
      }
      deployments := deployments[d := S.Deployment(p, snapshot, S.Queued, None)];
      jobs := jobs[d := S.Job(S.JobPending, 0, now, None)];
      r := Success(deployments[d]);
    }

    /** Claims some claimable job; refuses only when there is none. */
    method ClaimNext(owner: WorkerId, now: Time, duration: nat) returns (claim: Option<S.Claim>)
      modifies this
      ensures claim == None ==> Tables() == old(Tables()) && forall d :: d in old(jobs) ==> !S.Claimable(old(Tables()), d, now)
      ensures claim.Some? ==>
        && S.Claimable(old(Tables()), claim.value.deployment, now)
        && (Tables(), claim.value) == S.ClaimJob(old(Tables()), claim.value.deployment, owner, now, duration)
    {
      var tables := S.Db(deployments, jobs, nextToken);
      if !exists d :: d in jobs && S.Claimable(tables, d, now) {
        return None;
      }
      var d :| d in jobs && S.Claimable(tables, d, now);
      var token := nextToken;
      nextToken := nextToken + 1;
      var job := jobs[d];
      jobs := jobs[d := job.(state := S.JobClaimed, attempts := job.attempts + 1,
                             lease := Some(Lease(owner, token, now + duration)))];
      deployments := deployments[d := deployments[d].(status := S.Preparing, failure := None)];
      claim := Some(S.Claim(d, owner, token, job.attempts + 1));
    }

    method Renew(c: S.Claim, now: Time, duration: nat) returns (r: Result<S.Deployment, S.DeploymentError>)
      modifies this`jobs
      ensures Commits(old(Tables()), S.Renew(old(Tables()), c, now, duration), Tables(), c.deployment, r)
    {
      if !S.Live(S.Db(deployments, jobs, nextToken), c, now) {
        return Failure(S.ClaimLost);
      }
      var job := jobs[c.deployment];
      jobs := jobs[c.deployment := job.(lease := Some(job.lease.value.(expiresAt := now + duration)))];
      r := Success(deployments[c.deployment]);
    }

    /** Marks the locked claim's job as over. */
    method CompleteJob(c: S.Claim)
      requires c.deployment in jobs
      modifies this`jobs
      ensures jobs == old(jobs)[c.deployment := old(jobs)[c.deployment].(state := S.JobDone, lease := None)]
    {
      jobs := jobs[c.deployment := jobs[c.deployment].(state := S.JobDone, lease := None)];
    }

    method Advance(c: S.Claim, now: Time, status: S.Status) returns (r: Result<S.Deployment, S.DeploymentError>)
      requires S.Processing(status)
      modifies this`deployments
      ensures Commits(old(Tables()), S.Commit(old(Tables()), c, now, S.Advance(status)), Tables(), c.deployment, r)
    {
      if !S.Live(S.Db(deployments, jobs, nextToken), c, now) || S.Terminal(deployments[c.deployment].status) {
        return Failure(S.ClaimLost);
      }
      deployments := deployments[c.deployment := deployments[c.deployment].(status := status)];
      assert jobs == jobs[c.deployment := jobs[c.deployment]];
      r := Success(deployments[c.deployment]);
    }

    method Succeed(c: S.Claim, now: Time) returns (r: Result<S.Deployment, S.DeploymentError>)
      modifies this`deployments, this`jobs
      ensures Commits(old(Tables()), S.Commit(old(Tables()), c, now, S.Succeed), Tables(), c.deployment, r)
    {
      if !S.Live(S.Db(deployments, jobs, nextToken), c, now) || S.Terminal(deployments[c.deployment].status) {
        return Failure(S.ClaimLost);
      }
      deployments := deployments[c.deployment := deployments[c.deployment].(status := S.Succeeded, failure := None)];
      CompleteJob(c);
      r := Success(deployments[c.deployment]);
    }

    method Fail(c: S.Claim, now: Time, failure: S.FailureInfo) returns (r: Result<S.Deployment, S.DeploymentError>)
      modifies this`deployments, this`jobs
      ensures Commits(old(Tables()), S.Commit(old(Tables()), c, now, S.Fail(failure)), Tables(), c.deployment, r)
    {
      if !S.Live(S.Db(deployments, jobs, nextToken), c, now) || S.Terminal(deployments[c.deployment].status) {
        return Failure(S.ClaimLost);
      }
      deployments := deployments[c.deployment := deployments[c.deployment].(status := S.Failed, failure := Some(failure))];
      CompleteJob(c);
      r := Success(deployments[c.deployment]);
    }

    method Retry(c: S.Claim, now: Time, availableAt: Time, failure: S.FailureInfo)
      returns (r: Result<S.Deployment, S.DeploymentError>)
      modifies this`deployments, this`jobs
      ensures Commits(old(Tables()), S.Commit(old(Tables()), c, now, S.Retry(availableAt, failure)), Tables(), c.deployment, r)
    {
      if !S.Live(S.Db(deployments, jobs, nextToken), c, now) || S.Terminal(deployments[c.deployment].status) {
        return Failure(S.ClaimLost);
      }
      deployments := deployments[c.deployment := deployments[c.deployment].(status := S.Queued, failure := Some(failure))];
      jobs := jobs[c.deployment := jobs[c.deployment].(state := S.JobPending, availableAt := availableAt, lease := None)];
      r := Success(deployments[c.deployment]);
    }

    method ReconcileSucceeded(d: DeploymentId) returns (r: Result<S.Deployment, S.DeploymentError>)
      modifies this`deployments
      ensures Commits(old(Tables()), S.ReconcileSucceeded(old(Tables()), d), Tables(), d, r)
    {
      if d !in deployments {
        return Failure(S.NotFound);
      }
      var current := deployments[d];
      if current.status == S.Succeeded {
        return Success(current);
      }
      if current.status != S.Failed || current.failure != Some(S.UNCERTAIN) {
        return Failure(S.ReconciliationConflict);
      }
      deployments := deployments[d := current.(status := S.Succeeded, failure := None)];
      r := Success(deployments[d]);
    }
  }
}
