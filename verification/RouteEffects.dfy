/**
 What the transactions on public routes mean to those who ask for them: what a request
 leaves to be done, what a report says, and who may work on a job at which time.
 */
module RouteEffects {
  import opened Wrappers
  import opened Ids
  import opened RouteStore

  /** Only the two rows of p may differ. */
  predicate OnlyRowsOf(db: Db, db': Db, p: ProjectId) {
    && p in db'.routes && p in db'.jobs
    && db' == db.(routes := db.routes[p := db'.routes[p]], jobs := db.jobs[p := db'.jobs[p]])
  }

  // ---------------------------------------------------------------- requests

  /** The row waits to be worked on from now on, with no attempt made and nothing held against it. */
  predicate WaitsFrom(db: Db, p: ProjectId, now: Time) {
    && p in db.routes && p in db.jobs
    && db.routes[p].status == Pending && db.routes[p].lastError == None
    && db.jobs[p].state == JobPending && db.jobs[p].attempts == 0 && db.jobs[p].availableAt == now
    && db.jobs[p].revision == db.routes[p].revision && db.jobs[p].lease == None && db.jobs[p].lastError == None
  }

  /** What is applied is not touched by asking for something else. */
  predicate SameApplied(db: Db, db': Db, p: ProjectId)
    requires p in db'.routes
  {
    if p in db.routes
    then db'.routes[p].appliedRevision == db.routes[p].appliedRevision && db'.routes[p].appliedHostname == db.routes[p].appliedHostname
    else db'.routes[p].appliedRevision == None && db'.routes[p].appliedHostname == None
  }

  /** p asks for h in the desired state: under the old revision if it did already, under the next one otherwise. */
  predicate AsksFor(db: Db, db': Db, p: ProjectId, h: Hostname, desired: Desired, now: Time) {
    && OnlyRowsOf(db, db', p) && SameApplied(db, db', p)
    && db'.routes[p].hostname == h && db'.routes[p].desired == desired
    && db'.routes[p].revision ==
       (if p !in db.routes then 1
        else if db.routes[p].hostname == h && db.routes[p].desired == desired then db.routes[p].revision
        else db.routes[p].revision + 1)
    && (db' == db || WaitsFrom(db', p, now))
  }

  /** Nothing is left to do if the same was asked for and is waiting, being applied or in place. */
  predicate UnderWay(db: Db, p: ProjectId, h: Hostname, desired: Desired) {
    && p in db.routes && db.routes[p].hostname == h && db.routes[p].desired == desired
    && (|| db.routes[p].status == Pending || db.routes[p].status == Applying
        || db.routes[p].status == if desired == Enabled then Active else Inactive)
  }

  /** Nobody else asks for the hostname or is served under it. */
  predicate IsFree(db: Db, p: ProjectId, h: Hostname) {
    forall q :: q in db.routes && q != p ==> db.routes[q].hostname != h && db.routes[q].appliedHostname != Some(h)
  }

  lemma EnableAsks(db: Db, p: ProjectId, h: Hostname, now: Time)
    requires Inv(db)
    ensures var r := SetEnabled(db, p, h, now);
            && (r.Success? <==> p in db.projects && db.projects[p] != Deleting && IsFree(db, p, h))
            && (r.Success? ==> AsksFor(db, r.value, p, h, Enabled, now))
            && (r.Success? ==> (r.value == db <==> UnderWay(db, p, h, Enabled)))
  {
    assert HostnameAvailable(db, p, h) <==> IsFree(db, p, h) by {
      forall q | q in db.routes && q != p
        ensures Holds(db.routes[q], h) <==> db.routes[q].hostname == h || db.routes[q].appliedHostname == Some(h)
      {
      }
    }
    if p !in db.routes && SetEnabled(db, p, h, now).Success? { assert p in SetEnabled(db, p, h, now).value.routes; }
    if p in db.routes { assert RowInv(db.routes[p], db.jobs[p], db.nextToken); }
  }

  /** Switching off leaves the hostname as it is; only a project that is not being deleted may do it, or its deletion. */
  lemma DisableAsks(db: Db, p: ProjectId, now: Time)
    requires Inv(db)
    ensures var r := Disable(db, p, now);
            && (r.Success? <==> p in db.routes && db.projects[p] != Deleting)
            && (r.Success? ==> AsksFor(db, r.value, p, db.routes[p].hostname, Disabled, now))
            && (r.Success? ==> (r.value == db <==> UnderWay(db, p, db.routes[p].hostname, Disabled)))
    ensures var r := DisableForDeletion(db, p, now);
            && (r.Success? <==> p in db.projects && db.projects[p] == Deleting)
            && (r.Success? && p !in db.routes ==> r.value == db)
            && (r.Success? && p in db.routes ==>
                  && AsksFor(db, r.value, p, db.routes[p].hostname, Disabled, now)
                  && (r.value == db <==> UnderWay(db, p, db.routes[p].hostname, Disabled)))
  {
    if p in db.routes {
      assert RowInv(db.routes[p], db.jobs[p], db.nextToken);
      DisableRowAsks(db, p, now);
    }
  }

  lemma DisableRowAsks(db: Db, p: ProjectId, now: Time)
    requires p in db.routes && p in db.jobs
    ensures var db' := DisableRow(db, p, now);
            && AsksFor(db, db', p, db.routes[p].hostname, Disabled, now)
            && (db' == db <==> UnderWay(db, p, db.routes[p].hostname, Disabled))
  {
    var db' := DisableRow(db, p, now);
    if db' != db {
      assert db'.routes[p].status == Pending;
    }
  }

  /** The job waits for the gateway of a route that is wanted, and not only until now. */
  predicate SleepsBeyond(db: Db, p: ProjectId, now: Time) {
    && p in db.jobs && p in db.routes
    && db.routes[p].desired == Enabled && db.routes[p].status == Pending && db.jobs[p].state == JobPending
    && db.routes[p].revision == db.jobs[p].revision
    && db.routes[p].lastError == db.jobs[p].lastError == Some(GATEWAY_START_FAILED)
    && db.jobs[p].availableAt > now
  }

  /** Waking a job may bring its time forward and does nothing else; only one that waits for its gateway is woken. */
  lemma WakingOnlyHastens(db: Db, p: ProjectId, now: Time)
    ensures var db' := WakePending(db, p, now);
            && (db' != db <==> SleepsBeyond(db, p, now))
            && (db' != db ==> db' == db.(jobs := db.jobs[p := db.jobs[p].(availableAt := now)]))
  {
    var db' := WakePending(db, p, now);
    if p in db.jobs {
      assert db.jobs[p].availableAt <= now ==> db'.jobs == db.jobs;
      if SleepsBeyond(db, p, now) { assert db'.jobs[p].availableAt == now; }
    }
  }

  // ---------------------------------------------------------------- who may work on a job, and when

  /** While a claim is live nobody else can claim its job. */
  lemma LeaseExcludes(db: Db, c: Claim, now: Time)
    requires Live(db, c, now)
    ensures !Claimable(db, c.project, now)
  {
  }

  /** A claim counts one attempt, takes what the row asks for, and is live until its lease runs out; then the job is free again. */
  lemma ClaimHoldsUntil(db: Db, p: ProjectId, owner: WorkerId, now: Time, duration: nat, t: Time)
    requires Claimable(db, p, now)
    ensures var (db', c) := ClaimJob(db, p, owner, now, duration);
            && OnlyRowsOf(db.(nextToken := db'.nextToken), db', p) && db'.nextToken > db.nextToken
            && c.project == p && c.owner == owner && c.token == db.nextToken && c.revision == db.routes[p].revision
            && c.attempts == db'.jobs[p].attempts == db.jobs[p].attempts + 1
            && db'.routes[p] == db.routes[p].(status := Applying, lastError := None) && c.route == db'.routes[p]
            && db'.jobs[p].state == JobClaimed && db'.jobs[p].revision == db.jobs[p].revision
            && (Live(db', c, t) <==> t < now + duration)
            && (Claimable(db', p, t) <==> t >= now + duration)
  {
  }

  /** A heartbeat sets the time anew, for its own claim alone. */
  lemma RenewalHoldsUntil(db: Db, c: Claim, now: Time, duration: nat, t: Time)
    ensures var r := Renew(db, c, now, duration);
            && (r.Success? <==> Live(db, c, now))
            && (r.Success? ==>
                  && OnlyRowsOf(db, r.value, c.project) && r.value.routes == db.routes
                  && r.value.jobs[c.project] == db.jobs[c.project].(lease := r.value.jobs[c.project].lease)
                  && (Live(r.value, c, t) <==> t < now + duration)
                  && (Claimable(r.value, c.project, t) <==> t >= now + duration))
  {
    if Live(db, c, now) { assert db.routes[c.project := db.routes[c.project]] == db.routes; }
  }

  /** A job put off is out of everybody's hands until its time, with its attempts as they are. */
  lemma RescheduledWaitsUntil(db: Db, c: Claim, now: Time, availableAt: Time, code: string, t: Time)
    ensures var r := Reschedule(db, c, now, availableAt, code);
            && (r.Success? <==> Live(db, c, now))
            && (r.Success? ==>
                  && OnlyRowsOf(db, r.value, c.project) && SameApplied(db, r.value, c.project)
                  && r.value.routes[c.project] == db.routes[c.project].(status := Pending, lastError := Some(code))
                  && r.value.jobs[c.project].attempts == db.jobs[c.project].attempts
                  && r.value.jobs[c.project].lastError == Some(code)
                  && !Live(r.value, c, t) && (Claimable(r.value, c.project, t) <==> t >= availableAt))
  {
  }

  /** A failure is told apart from an unknown outcome, says why, and ends the job for good. */
  lemma FailureEnds(db: Db, c: Claim, now: Time, code: string, uncertain: bool, t: Time)
    ensures var r := Fail(db, c, now, code, uncertain);
            && (r.Success? <==> Live(db, c, now))
            && (r.Success? ==>
                  && OnlyRowsOf(db, r.value, c.project) && SameApplied(db, r.value, c.project)
                  && (r.value.routes[c.project].status == Uncertain <==> uncertain)
                  && (r.value.routes[c.project].status == Failed <==> !uncertain)
                  && r.value.routes[c.project].lastError == r.value.jobs[c.project].lastError == Some(code)
                  && r.value.routes[c.project].hostname == db.routes[c.project].hostname
                  && r.value.routes[c.project].desired == db.routes[c.project].desired
                  && r.value.routes[c.project].revision == db.routes[c.project].revision
                  && !Live(r.value, c, t) && !Claimable(r.value, c.project, t))
  {
  }

  /** Completing applies what the row asks for, as it asks for it, and ends the job. */
  lemma CompletionEnds(db: Db, c: Claim, now: Time, t: Time)
    ensures var r := Complete(db, c, now);
            && (r.Success? <==> Live(db, c, now))
            && (r.Success? ==>
                  var row, row' := db.routes[c.project], r.value.routes[c.project];
                  && OnlyRowsOf(db, r.value, c.project)
                  && row'.hostname == row.hostname && row'.desired == row.desired && row'.revision == row.revision
                  && row'.appliedRevision == Some(row.revision) && row'.lastError == None
                  && (row.desired == Enabled ==> row'.status == Active && row'.appliedHostname == Some(row.hostname))
                  && (row.desired == Disabled ==> row'.status == Inactive && row'.appliedHostname == None)
                  && !Live(r.value, c, t) && !Claimable(r.value, c.project, t))
  {
  }
}
