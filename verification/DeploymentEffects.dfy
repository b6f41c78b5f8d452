/**
 What the transactions on deployments and their jobs mean: what is created, who may work on
 a job at which time, and what each write says of the deployment.
 */
module DeploymentEffects {
  import opened Wrappers
  import opened Ids
  import opened DeploymentStore

  predicate OnlyRowsOf(db: Db, db': Db, d: DeploymentId) {
    && d in db'.deployments && d in db'.jobs
    && db' == db.(deployments := db.deployments[d := db'.deployments[d]], jobs := db.jobs[d := db'.jobs[d]])
  }

  /** Nobody holds the job, and it may be claimed from then on. */
  ghost predicate FreeFrom(db: Db, d: DeploymentId, from: Time) {
    && (forall t :: Claimable(db, d, t) <==> t >= from)
    && forall c: Claim, t :: c.deployment == d ==> !Live(db, c, t)
  }

  /** Nobody holds the job, and nobody ever will. */
  ghost predicate Over(db: Db, d: DeploymentId) {
    && (forall t :: !Claimable(db, d, t))
    && forall c: Claim, t :: c.deployment == d ==> !Live(db, c, t)
  }

  /** A new deployment keeps the configuration it was asked for with, and waits; one at a time, and none for a project that goes. */
  lemma CreateQueues(db: Db, d: DeploymentId, p: ProjectId, project: Option<ProjectStatus>, snapshot: Snapshot, now: Time)
    ensures var r := Create(db, d, p, project, snapshot, now);
            && (r.Success? <==>
                  && project.Some? && project != Some(Deleting)
                  && forall e :: e in db.deployments && db.deployments[e].project == p ==>
                       db.deployments[e].status == Succeeded || db.deployments[e].status == Failed)
            && (r.Success? ==>
                  && OnlyRowsOf(db, r.value, d) && FreeFrom(r.value, d, now)
                  && r.value.deployments[d].project == p && r.value.deployments[d].snapshot == snapshot
                  && r.value.deployments[d].status == Queued && r.value.deployments[d].failure == None
                  && r.value.jobs[d].attempts == 0)
  {
  }

  lemma LeaseExcludes(db: Db, c: Claim, now: Time)
    requires Live(db, c, now)
    ensures !Claimable(db, c.deployment, now)
  {
  }

  lemma ClaimHoldsUntil(db: Db, d: DeploymentId, owner: WorkerId, now: Time, duration: nat, t: Time)
    requires Claimable(db, d, now)
    ensures var (db', c) := ClaimJob(db, d, owner, now, duration);
            && OnlyRowsOf(db.(nextToken := db'.nextToken), db', d) && db'.nextToken > db.nextToken
            && c.deployment == d && c.owner == owner && c.token == db.nextToken
            && c.attempts == db'.jobs[d].attempts == db.jobs[d].attempts + 1
            && db'.deployments[d] == db.deployments[d].(status := Preparing, failure := None)
            && (Live(db', c, t) <==> t < now + duration)
            && (Claimable(db', d, t) <==> t >= now + duration)
  {
  }

  lemma RenewalHoldsUntil(db: Db, c: Claim, now: Time, duration: nat, t: Time)
    ensures var r := Renew(db, c, now, duration);
            && (r.Success? <==> Live(db, c, now))
            && (r.Success? ==>
                  && OnlyRowsOf(db, r.value, c.deployment) && r.value.deployments == db.deployments
                  && r.value.jobs[c.deployment] == db.jobs[c.deployment].(lease := r.value.jobs[c.deployment].lease)
                  && (Live(r.value, c, t) <==> t < now + duration)
                  && (!Terminal(db.deployments[c.deployment].status) ==>
                        (Claimable(r.value, c.deployment, t) <==> t >= now + duration)))
  {
    if Live(db, c, now) { assert db.deployments[c.deployment := db.deployments[c.deployment]] == db.deployments; }
  }

  /** What the claim says of its deployment; project and configuration are never touched. */
  predicate SaysOf(w: Write, d: Deployment, d': Deployment) {
    && d'.project == d.project && d'.snapshot == d.snapshot
    && match w
       case Advance(s) => d'.status == s && d'.failure == d.failure
       case Diagnose => d' == d
       case Succeed => d'.status == Succeeded && d'.failure == None
       case Fail(f) => d'.status == Failed && d'.failure == Some(f)
       case Retry(_, f) => d'.status == Queued && d'.failure == Some(f)
  }

  /** Only a live claim writes; the writes that end a deployment end its job, and a retry frees it from its time on. */
  lemma WriteSays(db: Db, c: Claim, now: Time, w: Write)
    requires Inv(db) && Allowed(w)
    ensures var r := Commit(db, c, now, w);
            && (r.Success? <==> Live(db, c, now))
            && (r.Success? ==>
                  && OnlyRowsOf(db, r.value, c.deployment)
                  && SaysOf(w, db.deployments[c.deployment], r.value.deployments[c.deployment])
                  && r.value.jobs[c.deployment].attempts == db.jobs[c.deployment].attempts
                  && (w.Succeed? || w.Fail? ==> Over(r.value, c.deployment))
                  && (w.Retry? ==> FreeFrom(r.value, c.deployment, w.availableAt))
                  && (w.Advance? || w.Diagnose? ==> r.value.jobs[c.deployment] == db.jobs[c.deployment]))
  {
    if Live(db, c, now) { assert RowInv(db.deployments[c.deployment], db.jobs[c.deployment], db.nextToken); }
  }

  /** Only a failure nobody could tell the outcome of may turn into a success later. */
  lemma OnlyUncertaintyIsResolved(db: Db, d: DeploymentId)
    ensures var r := ReconcileSucceeded(db, d);
            && (r.Success? <==>
                  && d in db.deployments
                  && (|| db.deployments[d].status == Succeeded
                      || (db.deployments[d].status == Failed
                          && db.deployments[d].failure == Some(FailureInfo("RECOVERY", "RECOVERY_STATE_UNCERTAIN")))))
            && (r.Success? ==>
                  && r.value.jobs == db.jobs && r.value.nextToken == db.nextToken
                  && r.value.deployments.Keys == db.deployments.Keys
                  && r.value.deployments[d].status == Succeeded
                  && (forall e :: e in db.deployments && e != d ==> r.value.deployments[e] == db.deployments[e])
                  && r.value.deployments[d].project == db.deployments[d].project
                  && r.value.deployments[d].snapshot == db.deployments[d].snapshot
                  && (db.deployments[d].status == Failed ==> r.value.deployments[d].failure == None))
  {
  }
}
