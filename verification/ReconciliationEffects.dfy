/** What the transactions on reconciliation requests mean: when a row opens, who may work on it, and how it is closed. */
module ReconciliationEffects {
  import opened Wrappers
  import opened Ids
  import opened ReconciliationStore

  predicate OnlyRowOf(db: Db, db': Db, d: DeploymentId) {
    d in db'.rows && db' == db.(rows := db.rows[d := db'.rows[d]])
  }

  /** Nobody holds the row, and it may be claimed from then on. */
  ghost predicate FreeFrom(db: Db, d: DeploymentId, from: Time) {
    && (forall t :: Claimable(db, d, t) <==> t >= from)
    && forall c: Claim, t :: c.deployment == d ==> !Live(db, c, t)
  }

  ghost predicate Over(db: Db, d: DeploymentId) {
    && (forall t :: !Claimable(db, d, t))
    && forall c: Claim, t :: c.deployment == d ==> !Live(db, c, t)
  }

  /** A request starts the row over, unless somebody is at it; the scheduler only opens rows where there is none. */
  lemma RequestOpens(db: Db, d: DeploymentId, project: Option<ProjectStatus>, now: Time)
    ensures var r := Request(db, d, project, now);
            && (r.Success? <==> project.Some? && project != Some(Deleting) && (d in db.rows ==> db.rows[d].state != Claimed))
            && (r.Success? ==> OnlyRowOf(db, r.value, d) && FreeFrom(r.value, d, now) && r.value.rows[d].attempts == 0)
    ensures var db' := Schedule(db, d, project, now);
            if d in db.rows || project == None || project == Some(Deleting) then db' == db
            else OnlyRowOf(db, db', d) && FreeFrom(db', d, now) && db'.rows[d].attempts == 0
  {
  }

  lemma LeaseExcludes(db: Db, c: Claim, now: Time)
    requires Live(db, c, now)
    ensures !Claimable(db, c.deployment, now)
  {
  }

  lemma ClaimHoldsUntil(db: Db, d: DeploymentId, owner: WorkerId, now: Time, duration: nat, t: Time)
    requires Claimable(db, d, now)
    ensures var (db', c) := ClaimRow(db, d, owner, now, duration);
            && OnlyRowOf(db.(nextToken := db'.nextToken), db', d) && db'.nextToken > db.nextToken
            && c.deployment == d && c.owner == owner && c.token == db.nextToken
            && c.attempts == db'.rows[d].attempts == db.rows[d].attempts + 1
            && (Live(db', c, t) <==> t < now + duration)
            && (Claimable(db', d, t) <==> t >= now + duration)
  {
  }

  lemma RenewalHoldsUntil(db: Db, c: Claim, now: Time, duration: nat, t: Time)
    ensures var r := Renew(db, c, now, duration);
            && (r.Success? <==> Live(db, c, now))
            && (r.Success? ==>
                  && OnlyRowOf(db, r.value, c.deployment)
                  && r.value.rows[c.deployment] == db.rows[c.deployment].(lease := r.value.rows[c.deployment].lease)
                  && (Live(r.value, c, t) <==> t < now + duration)
                  && (Claimable(r.value, c.deployment, t) <==> t >= now + duration))
  {
  }

  /** Resolved and blocked are told apart, and either is the end; a retry keeps the attempts and waits until its time. */
  lemma ClosingSays(db: Db, c: Claim, now: Time, blocked: bool, availableAt: Time)
    ensures var r := Finish(db, c, now, blocked);
            && (r.Success? <==> Live(db, c, now))
            && (r.Success? ==>
                  && OnlyRowOf(db, r.value, c.deployment) && Over(r.value, c.deployment)
                  && (r.value.rows[c.deployment].state == Blocked <==> blocked)
                  && (r.value.rows[c.deployment].state == Resolved <==> !blocked)
                  && r.value.rows[c.deployment].attempts == db.rows[c.deployment].attempts)
    ensures var r := Retry(db, c, now, availableAt);
            && (r.Success? <==> Live(db, c, now))
            && (r.Success? ==>
                  && OnlyRowOf(db, r.value, c.deployment) && FreeFrom(r.value, c.deployment, availableAt)
                  && r.value.rows[c.deployment].attempts == db.rows[c.deployment].attempts)
  {
  }
}
