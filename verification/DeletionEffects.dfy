/**
 What the transactions on a deletion job mean: what has to be confirmed, which attempts
 count, and who may work on the job at which time.
 */
module DeletionEffects {
  import opened Wrappers
  import opened Ids
  import opened DeletionStore

  predicate OnlyJobOf(db: Db, db': Db, p: ProjectId) {
    p in db'.jobs && db' == db.(jobs := db.jobs[p := db'.jobs[p]])
  }

  /** Nobody holds the job, and it may be claimed from then on. */
  ghost predicate FreeFrom(db: Db, p: ProjectId, from: Time) {
    && (forall t :: Claimable(db, p, t) <==> t >= from)
    && forall c: Claim, t :: c.project == p ==> !Live(db, c, t)
  }

  // ---------------------------------------------------------------- requests

  /** The project's name was typed as it is, and if there is a database, that it goes too, with its name. */
  predicate Agreed(c: Confirmation, hasDatabase: bool) {
    c.projectMatches && (hasDatabase ==> c.deleteDatabase && c.databaseMatches)
  }

  /** Nothing is deleted that was not confirmed; the first request opens the job, and says for good whether a database goes. */
  lemma RequestOpens(db: Db, p: ProjectId, isThere: bool, hasDatabase: bool, c: Confirmation, now: Time)
    ensures var r := Request(db, p, isThere, hasDatabase, c, now);
            && (r.Success? <==> isThere && Agreed(c, hasDatabase) && (p in db.jobs ==> db.jobs[p].state != Failed))
            && (isThere && !c.projectMatches ==> r == Failure(ConfirmationMismatch))
            && (isThere && c.projectMatches && !Agreed(c, hasDatabase) ==> r == Failure(DatabaseConfirmationRequired))
            && (r.Success? && p in db.jobs ==> r.value == db)
            && (r.Success? && p !in db.jobs ==>
                  && OnlyJobOf(db, r.value, p) && FreeFrom(r.value, p, now)
                  && r.value.jobs[p].phase == Requested && r.value.jobs[p].attempts == 0
                  && r.value.jobs[p].deleteDatabase == hasDatabase && r.value.jobs[p].lastError == None)
  {
  }

  /** A failed job goes on where it stopped, with all its attempts before it, if the deletion is confirmed anew. */
  lemma RetryReopens(db: Db, p: ProjectId, isThere: bool, hasDatabase: bool, c: Confirmation, now: Time)
    ensures var r := Retry(db, p, isThere, hasDatabase, c, now);
            && (r.Success? <==> isThere && Agreed(c, hasDatabase) && p in db.jobs && db.jobs[p].state == Failed)
            && (r.Success? ==>
                  && OnlyJobOf(db, r.value, p) && FreeFrom(r.value, p, now)
                  && r.value.jobs[p].phase == db.jobs[p].phase && r.value.jobs[p].deleteDatabase == db.jobs[p].deleteDatabase
                  && r.value.jobs[p].attempts == 0 && r.value.jobs[p].lastError == None)
  {
  }

  // ---------------------------------------------------------------- who may work on a job, and when

  lemma LeaseExcludes(db: Db, c: Claim, now: Time)
    requires Live(db, c, now)
    ensures !Claimable(db, c.project, now)
  {
  }

  lemma ClaimHoldsUntil(db: Db, p: ProjectId, owner: WorkerId, now: Time, duration: nat, t: Time)
    requires Claimable(db, p, now)
    ensures var (db', c) := ClaimJob(db, p, owner, now, duration);
            && OnlyJobOf(db.(nextToken := db'.nextToken), db', p) && db'.nextToken > db.nextToken
            && c.project == p && c.owner == owner && c.token == db.nextToken && c.job == db'.jobs[p]
            && c.job.phase == db.jobs[p].phase && c.job.deleteDatabase == db.jobs[p].deleteDatabase
            && c.job.attempts == db.jobs[p].attempts + 1
            && (Live(db', c, t) <==> t < now + duration)
            && (Claimable(db', p, t) <==> t >= now + duration)
  {
  }

  lemma RenewalHoldsUntil(db: Db, c: Claim, now: Time, duration: nat, t: Time)
    ensures var r := Renew(db, c, now, duration);
            && (r.Success? <==> Live(db, c, now))
            && (r.Success? ==>
                  && OnlyJobOf(db, r.value, c.project)
                  && r.value.jobs[c.project] == db.jobs[c.project].(lease := r.value.jobs[c.project].lease)
                  && (Live(r.value, c, t) <==> t < now + duration)
                  && (Claimable(r.value, c.project, t) <==> t >= now + duration))
  {
  }

  /** Advancing goes from the phase the worker knows to the one after it, and leaves the lease as it is. */
  lemma AdvanceGoesOn(db: Db, c: Claim, now: Time, expected: Phase, next: Phase)
    ensures var r := Advance(db, c, now, expected, next);
            && (r.Success? <==> Live(db, c, now) && db.jobs[c.project].phase == expected && Index(next) == Index(expected) + 1)
            && (r.Success? ==>
                  && OnlyJobOf(db, r.value, c.project) && r.value.jobs[c.project].phase == next
                  && r.value.jobs[c.project] == db.jobs[c.project].(phase := next)
                  && forall t :: Live(r.value, c, t) <==> Live(db, c, t))
  {
  }

  /** A failed job is in nobody's hands, and nobody can claim it any more. */
  lemma FailureEnds(db: Db, c: Claim, now: Time, error: LastError, t: Time)
    ensures var r := Fail(db, c, now, error);
            && (r.Success? <==> Live(db, c, now))
            && (r.Success? ==>
                  && OnlyJobOf(db, r.value, c.project) && r.value.jobs[c.project].state == Failed
                  && r.value.jobs[c.project].lastError == Some(error)
                  && r.value.jobs[c.project].phase == db.jobs[c.project].phase
                  && r.value.jobs[c.project].attempts == db.jobs[c.project].attempts
                  && !Live(r.value, c, t) && !Claimable(r.value, c.project, t))
  {
  }

  /** A retry keeps the attempt that was made; a deferral, which only waited, gives it back. */
  lemma PutOffWaitsUntil(db: Db, c: Claim, now: Time, availableAt: Time)
    ensures var r := Reschedule(db, c, now, availableAt);
            && (r.Success? <==> Live(db, c, now))
            && (r.Success? ==>
                  && OnlyJobOf(db, r.value, c.project) && FreeFrom(r.value, c.project, availableAt)
                  && r.value.jobs[c.project].phase == db.jobs[c.project].phase
                  && r.value.jobs[c.project].attempts == db.jobs[c.project].attempts)
    ensures var r := Defer(db, c, now, availableAt);
            && (r.Success? <==> Live(db, c, now))
            && (r.Success? ==>
                  && OnlyJobOf(db, r.value, c.project) && FreeFrom(r.value, c.project, availableAt)
                  && r.value.jobs[c.project].phase == db.jobs[c.project].phase
                  && (db.jobs[c.project].attempts >= 1 ==> r.value.jobs[c.project].attempts == db.jobs[c.project].attempts - 1)
                  && (db.jobs[c.project].attempts == 0 ==> r.value.jobs[c.project].attempts == 0))
  {
  }

  /** Claiming a job only to defer it costs no attempt, however often it happens. */
  lemma WaitingCostsNothing(db: Db, p: ProjectId, owner: WorkerId, claimed: Time, duration: nat, now: Time, availableAt: Time)
    requires Claimable(db, p, claimed) && now < claimed + duration
    ensures var (held, c) := ClaimJob(db, p, owner, claimed, duration);
            var r := Defer(held, c, now, availableAt);
            && r.Success? && r.value.jobs[p].attempts == db.jobs[p].attempts && r.value.jobs[p].phase == db.jobs[p].phase
            && FreeFrom(r.value, p, availableAt)
  {
    ClaimHoldsUntil(db, p, owner, claimed, duration, now);
    var (held, c) := ClaimJob(db, p, owner, claimed, duration);
    PutOffWaitsUntil(held, c, now, availableAt);
  }
}
