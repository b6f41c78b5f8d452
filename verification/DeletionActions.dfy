/** What the single actions of a deletion worker find out and do, each at the moment it is taken. */
module DeletionActions {
  import opened Wrappers
  import opened Ids
  import opened DeletionSystem
  import D = DeletionStore
  import Effects = DeletionEffects
  import F = DeploymentStore
  import Q = ReconciliationStore
  import R = RouteStore

  /** From now on the claim is live until then, and nobody else can take the job before. */
  ghost predicate HeldUntil(s: Sys, c: D.Claim, until: Time) {
    forall t :: (D.Live(s.deletions, c, t) <==> t < until) && (D.Claimable(s.deletions, c.project, t) <==> t >= until)
  }

  lemma RenewedIsHeld(s: Sys, c: D.Claim, now: Time, duration: nat)
    requires D.Renew(s.deletions, c, now, duration).Success?
    ensures HeldUntil(s.(deletions := D.Renew(s.deletions, c, now, duration).value), c, now + duration)
  {
    forall t ensures var db := D.Renew(s.deletions, c, now, duration).value;
                     (D.Live(db, c, t) <==> t < now + duration) && (D.Claimable(db, c.project, t) <==> t >= now + duration) {
      Effects.RenewalHoldsUntil(s.deletions, c, now, duration, t);
    }
  }

  lemma BeatIs(s: Sys, k: WorkerId, now: Time, duration: nat)
    requires k in s.workers
    ensures var r := D.Renew(s.deletions, s.workers[k].claim, now, duration);
            WorkerDo(s, k, s.workers[k], Beat(now, duration)) == if r.Success? then s.(deletions := r.value) else s
  {
  }

  /** A heartbeat prolongs the lease of a live claim, and touches nothing when the claim is lost. */
  lemma BeatProlongs(s: Sys, k: WorkerId, now: Time, duration: nat)
    requires k in s.workers
    ensures var c, s' := s.workers[k].claim, Do(s, Act(k, Beat(now, duration)));
            if D.Live(s.deletions, c, now) then HeldUntil(s', c, now + duration) && s' == s.(deletions := s'.deletions) else s' == s
  {
    BeatIs(s, k, now, duration);
    Effects.RenewalHoldsUntil(s.deletions, s.workers[k].claim, now, duration, now);
    if D.Live(s.deletions, s.workers[k].claim, now) { RenewedIsHeld(s, s.workers[k].claim, now, duration); }
  }

  /** The phases in which a worker authorizes; those of a database only if there is one and the job says so. */
  predicate AsksToAct(s: Sys, work: Work) {
    && work.point in {AtPhase, Cleared}
    && work.claim.job.phase !in {D.Requested, D.WaitingForOperations, D.RouteRemoved}
    && (work.claim.job.phase in {D.DatabaseQuiescing, D.DatabaseDropDatabase, D.DatabaseDropRole} ==>
          work.claim.project in s.resources && work.claim.job.deleteDatabase)
  }

  /** The project is being deleted, and its route is gone unless switching it off is what is asked for. */
  predicate MayAct(s: Sys, work: Work) {
    && work.claim.project in s.host.db.projects && s.host.db.projects[work.claim.project] == Deleting
    && (work.claim.job.phase != D.RouteDisabling && work.claim.project in s.host.db.routes ==>
          var r := s.host.db.routes[work.claim.project];
          r.desired == R.Disabled && r.status == R.Inactive && r.appliedRevision == Some(r.revision) && r.appliedHostname == None)
  }

  lemma AuthorizeIs(s: Sys, k: WorkerId, now: Time, duration: nat)
    requires k in s.workers && AsksToAct(s, s.workers[k])
    ensures WorkerDo(s, k, s.workers[k], Authorize(now, duration)) == AuthorizeDo(s, k, s.workers[k], now, duration)
  {
  }

  lemma GuardIs(s: Sys, work: Work, now: Time)
    ensures MutationAllowed(s, work.claim, now, work.claim.job.phase != D.RouteDisabling)
            <==> D.Live(s.deletions, work.claim, now) && MayAct(s, work)
  {
  }

  /** Authorizing clears the worker exactly if its claim is live and it may act; either way a live claim is prolonged. */
  lemma AuthorizeClearsIff(s: Sys, k: WorkerId, now: Time, duration: nat)
    requires k in s.workers && AsksToAct(s, s.workers[k]) && duration > 0
    ensures var work, s' := s.workers[k], Do(s, Act(k, Authorize(now, duration)));
            && k in s'.workers
            && (s'.workers[k].point == Cleared <==> D.Live(s.deletions, work.claim, now) && MayAct(s, work))
            && (D.Live(s.deletions, work.claim, now) ==> HeldUntil(s', work.claim, now + duration))
  {
    var work := s.workers[k];
    AuthorizeIs(s, k, now, duration);
    Effects.RenewalHoldsUntil(s.deletions, work.claim, now, duration, now);
    if D.Live(s.deletions, work.claim, now) {
      RenewedIsHeld(s, work.claim, now, duration);
      GuardIs(s.(deletions := D.Renew(s.deletions, work.claim, now, duration).value), work, now);
    }
  }

  /** Of the project nothing is queued or worked on: no deployment, no reconciliation, no change of its route. */
  predicate NothingUnderWay(s: Sys, p: ProjectId) {
    && (forall d :: d in s.fleet.deployments && s.fleet.deployments[d].project == p ==>
          && (s.fleet.deployments[d].status == F.Succeeded || s.fleet.deployments[d].status == F.Failed)
          && (d in s.fleet.jobs ==> s.fleet.jobs[d].state != F.JobClaimed)
          && (d in s.recs.rows ==> s.recs.rows[d].state == Q.Resolved || s.recs.rows[d].state == Q.Blocked))
    && (p in s.host.db.jobs ==> s.host.db.jobs[p].state != R.JobClaimed)
  }

  /** The operations count as drained exactly if nothing is under way and the locks could be had. */
  lemma DrainedIff(s: Sys, k: WorkerId, locksFree: bool)
    requires k in s.workers && s.workers[k].point == AtPhase && s.workers[k].claim.job.phase == D.WaitingForOperations
    ensures var s' := Do(s, Act(k, CheckDrained(locksFree)));
            && k in s'.workers && s' == s.(workers := s.workers[k := s'.workers[k]])
            && (s'.workers[k].point == Drained <==> locksFree && NothingUnderWay(s, s.workers[k].claim.project))
  {
    DrainedIs(s, s.workers[k].claim.project);
    assert s.workers[k := s.workers[k]] == s.workers;
  }

  lemma DrainedIs(s: Sys, p: ProjectId)
    ensures OperationsDrained(s, p) <==> NothingUnderWay(s, p)
  {
    if OperationsDrained(s, p) {
      forall d | d in s.fleet.deployments && s.fleet.deployments[d].project == p && d in s.recs.rows
        ensures s.recs.rows[d].state == Q.Resolved || s.recs.rows[d].state == Q.Blocked
      {
        assert !Q.Open(s.recs.rows[d]);
      }
    }
  }

  /** The route counts as gone exactly if there is none, or the routing worker has taken it out under its last revision. */
  lemma AppliedIff(s: Sys, k: WorkerId)
    requires k in s.workers && s.workers[k].point == AtPhase && s.workers[k].claim.job.phase in {D.RouteDisabling, D.RouteRemoved}
    ensures var p, s' := s.workers[k].claim.project, Do(s, Act(k, CheckApplied));
            && k in s'.workers && s' == s.(workers := s.workers[k := s'.workers[k]])
            && (s'.workers[k].point == RouteApplied <==>
                  p in s.host.db.routes ==>
                    var r := s.host.db.routes[p];
                    r.desired == R.Disabled && r.status == R.Inactive && r.appliedRevision == Some(r.revision)
                    && r.appliedHostname == None)
  {
    assert s.workers[k := s.workers[k]] == s.workers;
  }

  // ---------------------------------------------------------------- giving the claim up

  lemma ReleaseIs(s: Sys, k: WorkerId, action: Action)
    requires k in s.workers && (action.Defer? || action.Reschedule? || action.Fail?)
    ensures var c := s.workers[k].claim;
            WorkerDo(s, k, s.workers[k], action) ==
            Release(s, k, match action
                          case Defer(now, at) => D.Defer(s.deletions, c, now, at)
                          case Reschedule(now, at) => D.Reschedule(s.deletions, c, now, at)
                          case Fail(now, error) => D.Fail(s.deletions, c, now, error))
  {
  }

  /** A worker that puts its job off leaves it to anybody from the given time on; waiting costs no attempt, trying again does. */
  lemma PuttingOffFrees(s: Sys, k: WorkerId, now: Time, at: Time, waits: bool)
    requires k in s.workers && D.Live(s.deletions, s.workers[k].claim, now)
    ensures var p, s' := s.workers[k].claim.project, Do(s, Act(k, if waits then Defer(now, at) else Reschedule(now, at)));
            && k !in s'.workers && p in s'.deletions.jobs && p in s.deletions.jobs
            && Effects.FreeFrom(s'.deletions, p, at) && s'.deletions.jobs[p].phase == s.deletions.jobs[p].phase
            && s'.deletions.jobs[p].attempts ==
               (if waits && s.deletions.jobs[p].attempts >= 1 then s.deletions.jobs[p].attempts - 1 else s.deletions.jobs[p].attempts)
  {
    ReleaseIs(s, k, if waits then Defer(now, at) else Reschedule(now, at));
    Effects.PutOffWaitsUntil(s.deletions, s.workers[k].claim, now, at);
  }

  /** A worker that fails its job leaves it to nobody, with the reason and in the phase it was in. */
  lemma FailingEnds(s: Sys, k: WorkerId, now: Time, error: D.LastError, t: Time)
    requires k in s.workers && D.Live(s.deletions, s.workers[k].claim, now)
    ensures var p, s' := s.workers[k].claim.project, Do(s, Act(k, Action.Fail(now, error)));
            && k !in s'.workers && p in s'.deletions.jobs && p in s.deletions.jobs
            && !D.Claimable(s'.deletions, p, t) && s'.deletions.jobs[p].state == D.Failed
            && s'.deletions.jobs[p].lastError == Some(error) && s'.deletions.jobs[p].phase == s.deletions.jobs[p].phase
  {
    ReleaseIs(s, k, Action.Fail(now, error));
    Effects.FailureEnds(s.deletions, s.workers[k].claim, now, error, t);
  }

  // ---------------------------------------------------------------- removing

  lemma RemoveIs(s: Sys, k: WorkerId, kind: Kind, ok: bool, gone: bool)
    requires k in s.workers && s.workers[k].point == Cleared
    requires RemovesIn(s.workers[k].claim.job.phase, kind) && MayTake(s.workers[k], kind)
    ensures WorkerDo(s, k, s.workers[k], Remove(kind, ok, gone)) == RemoveDo(s, k, s.workers[k], kind, ok, gone)
  {
  }

  /** A removal that worked, as reported or not, takes the one thing it names and leaves all others; one that did not takes nothing. */
  lemma RemovalTakes(s: Sys, k: WorkerId, kind: Kind, ok: bool, gone: bool)
    requires k in s.workers && s.workers[k].point == Cleared
    requires RemovesIn(s.workers[k].claim.job.phase, kind) && MayTake(s.workers[k], kind)
    ensures var s' := Do(s, Act(k, Remove(kind, ok, gone)));
            && (forall key :: key in s'.site.objects <==>
                  key in s.site.objects && !((ok || gone) && kind == Docker(key.docker, s.site.objects[key].id)))
            && (forall key :: key in s'.site.objects ==> s'.site.objects[key] == s.site.objects[key])
            && (forall t :: t in s'.site.directories <==> t in s.site.directories && !((ok || gone) && kind == Directory(t)))
            && (forall part :: part in s'.present <==>
                  part in s.present && !((ok || gone) && part == (s.workers[k].claim.project, kind)))
  {
    RemoveIs(s, k, kind, ok, gone);
  }
}
