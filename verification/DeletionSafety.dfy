/** What every run of the deletion system keeps, and why its check-then-act guards are sound. */
module DeletionSafety {
  import opened Wrappers
  import opened Ids
  import opened DeletionSystem
  import R = RouteStore
  import H = RoutingHost
  import S = RoutingSafety
  import T = RoutingTheorems
  import F = DeploymentStore
  import Q = ReconciliationStore
  import D = DeletionStore

  // ---------------------------------------------------------------- facts that stay true

  /** The project is gone, or it is deleting and nothing of it runs or waits to run. */
  predicate QuiescedForGood(s: Sys, p: ProjectId) {
    p in s.host.seen && (p in s.host.db.projects ==> IsDeleting(s, p) && Quiesced(s.fleet, s.recs, p))
  }

  /** Facts established once are still facts, and a spent project id is not given out again. */
  ghost predicate Steady(s: Sys, s': Sys) {
    && s.host.seen <= s'.host.seen
    && (forall p :: T.GoneForGood(s.host, p) ==> T.GoneForGood(s'.host, p))
    && (forall p :: QuiescedForGood(s, p) ==> QuiescedForGood(s', p))
    && (forall p :: p in s.host.seen && p !in s.host.db.projects ==> p !in s'.host.db.projects)
  }

  // ---------------------------------------------------------------- the invariant

  /** A project is deleting exactly while it has a deletion job, whose flag tells whether it has a database. */
  predicate RowsInv(s: Sys) {
    && D.Inv(s.deletions)
    && (forall p :: p in s.deletions.jobs ==>
          IsDeleting(s, p) && (s.deletions.jobs[p].deleteDatabase <==> p in s.resources))
    && (forall p :: p in s.host.db.projects && s.host.db.projects[p] == Deleting ==> p in s.deletions.jobs)
    && s.resources <= s.host.db.projects.Keys
  }

  predicate FleetInv(s: Sys) {
    && F.Inv(s.fleet)
    && s.fleet.deployments.Keys <= s.used.Keys
    && s.recs.rows.Keys <= s.fleet.deployments.Keys
    && (forall d :: d in s.fleet.deployments ==> s.fleet.deployments[d].project in s.host.db.projects)
  }

  /** From ROUTE_DISABLING on nothing of the project runs; from ROUTE_REMOVED on its route is gone. */
  predicate PhaseFacts(s: Sys, p: ProjectId, phase: D.Phase) {
    && (D.Index(phase) >= 2 ==> QuiescedForGood(s, p))
    && (D.Index(phase) >= 3 ==> T.GoneForGood(s.host, p))
  }

  predicate PhasesInv(s: Sys) {
    forall p :: p in s.deletions.jobs ==> PhaseFacts(s, p, s.deletions.jobs[p].phase)
  }

  predicate WorkInv(s: Sys, work: Work) {
    && work.claim.project in s.host.seen
    && work.claim.token < s.deletions.nextToken
    && PhaseFacts(s, work.claim.project, work.claim.job.phase)
    && (work.point == Drained ==> QuiescedForGood(s, work.claim.project))
    && (work.point == RouteApplied ==> T.GoneForGood(s.host, work.claim.project))
    && (if work.claim.project in s.deletions.jobs
        then
          && s.deletions.jobs[work.claim.project].deleteDatabase == work.claim.job.deleteDatabase
          && (s.deletions.jobs[work.claim.project].lease.Some?
              && s.deletions.jobs[work.claim.project].lease.value.token == work.claim.token ==>
                s.deletions.jobs[work.claim.project].phase == work.claim.job.phase)
        else work.claim.project !in s.host.db.projects)
  }

  predicate WorkersInv(s: Sys) {
    && (forall k :: k in s.workers ==> WorkInv(s, s.workers[k]))
    && (forall j, k :: j in s.workers && k in s.workers && j != k ==> s.workers[j].claim.token != s.workers[k].claim.token)
  }

  predicate RemovalInv(s: Sys, r: Removal) {
    T.GoneForGood(s.host, r.project) && QuiescedForGood(s, r.project) && !r.namedInFile
  }

  predicate RemovalsInv(s: Sys) {
    forall i :: 0 <= i < |s.removals| ==> RemovalInv(s, s.removals[i])
  }

  predicate SysInv(s: Sys) {
    S.WorldInv(s.host) && RowsInv(s) && FleetInv(s) && PhasesInv(s) && WorkersInv(s) && RemovalsInv(s)
  }

  // ---------------------------------------------------------------- steps outside the deletion jobs

  lemma WorkSteady(s: Sys, s': Sys, work: Work)
    requires WorkInv(s, work) && Steady(s, s') && s'.deletions == s.deletions
    ensures WorkInv(s', work)
  {
  }

  lemma RemovalsSteady(s: Sys, s': Sys)
    requires RemovalsInv(s) && Steady(s, s') && s'.removals == s.removals
    ensures RemovalsInv(s')
  {
    forall i | 0 <= i < |s'.removals| ensures RemovalInv(s', s'.removals[i]) { assert RemovalInv(s, s.removals[i]); }
  }

  lemma OutsideStepKeeps(s: Sys, s': Sys)
    requires SysInv(s) && Steady(s, s')
    requires s'.deletions == s.deletions && s'.workers == s.workers && s'.removals == s.removals
    requires S.WorldInv(s'.host) && RowsInv(s') && FleetInv(s')
    ensures SysInv(s')
  {
    forall p | p in s'.deletions.jobs ensures PhaseFacts(s', p, s'.deletions.jobs[p].phase) {
      assert PhaseFacts(s, p, s.deletions.jobs[p].phase);
    }
    forall k | k in s'.workers ensures WorkInv(s', s'.workers[k]) {
      WorkSteady(s, s', s.workers[k]);
    }
    RemovalsSteady(s, s');
  }

  /** An open host step neither deletes a project nor marks one, and only gives out new ids. */
  lemma OpenHostKeepsProjects(w: H.World, h: H.Step)
    requires S.WorldInv(w) && OpenHostStep(h)
    ensures var w' := H.Do(w, h);
            && w.seen <= w'.seen
            && w.db.projects.Keys <= w'.db.projects.Keys
            && (forall p :: p in w'.db.projects ==>
                  if p in w.db.projects then w'.db.projects[p] == w.db.projects[p] else p !in w.seen && w'.db.projects[p] == Ready)
  {
    if H.ApiStep(h) {
      match h
      case EnableRoute(p, hostname, now) =>
        if R.SetEnabled(w.db, p, hostname, now).Success? { R.SetEnabledTouches(w.db, p, hostname, now); }
      case DisableRoute(p, now) => if R.Disable(w.db, p, now).Success? { R.DisableRowTouches(w.db, p, now); }
      case _ =>
    } else if h.Finalize? {
      T.FinalizeIsGrowing(w, h);
    } else if !h.Crash? {
      T.WorkerIsCalm(w, h);
    }
  }

  lemma HostStepIsSteady(s: Sys, h: H.Step)
    requires SysInv(s) && OpenHostStep(h)
    ensures Steady(s, s.(host := H.Do(s.host, h)))
  {
    var s' := s.(host := H.Do(s.host, h));
    OpenHostKeepsProjects(s.host, h);
    forall p | T.GoneForGood(s.host, p) ensures T.GoneForGood(s'.host, p) { T.StepKeepsGone(s.host, h, p); }
    forall p | QuiescedForGood(s, p) ensures QuiescedForGood(s', p) { }
  }

  lemma HostStepKeepsRows(s: Sys, h: H.Step)
    requires SysInv(s) && OpenHostStep(h)
    ensures var s' := s.(host := H.Do(s.host, h)); RowsInv(s') && FleetInv(s')
  {
    OpenHostKeepsProjects(s.host, h);
  }

  lemma HostStepKeeps(s: Sys, h: H.Step)
    requires SysInv(s)
    ensures SysInv(Do(s, Host(h)))
  {
    if OpenHostStep(h) {
      S.StepKeeps(s.host, h);
      HostStepIsSteady(s, h);
      HostStepKeepsRows(s, h);
      OutsideStepKeeps(s, s.(host := H.Do(s.host, h)));
    }
  }

  /** Old deployments keep their project and configuration and stay over once over; new ones need a project that is not deleting. */
  predicate FleetMoves(s: Sys, fleet': F.Db) {
    && s.fleet.deployments.Keys <= fleet'.deployments.Keys
    && forall d :: d in fleet'.deployments ==>
         if d in s.fleet.deployments
         then
           && fleet'.deployments[d].project == s.fleet.deployments[d].project
           && fleet'.deployments[d].snapshot == s.fleet.deployments[d].snapshot
           && (F.Terminal(s.fleet.deployments[d].status) ==> F.Terminal(fleet'.deployments[d].status))
         else
           && d !in s.used
           && fleet'.deployments[d].project in s.host.db.projects
           && !IsDeleting(s, fleet'.deployments[d].project)
  }

  lemma WriteMovesFleet(s: Sys, c: F.Claim, now: Time, write: F.Write)
    requires F.Inv(s.fleet) && F.Allowed(write) && F.Commit(s.fleet, c, now, write).Success?
    ensures FleetMoves(s, F.Commit(s.fleet, c, now, write).value)
    ensures F.Inv(F.Commit(s.fleet, c, now, write).value)
  {
    F.CommitKeeps(s.fleet, c, now, write);
  }

  lemma CreateMovesFleet(s: Sys, f: FleetStep)
    requires FleetInv(s) && f.Create?
    ensures FleetMoves(s, FleetDo(s, f)) && F.Inv(FleetDo(s, f))
  {
    if f.d !in s.used && F.Create(s.fleet, f.d, f.p, ProjectStatusOf(s, f.p), f.snapshot, f.now).Success? {
      F.CreateKeeps(s.fleet, f.d, f.p, ProjectStatusOf(s, f.p), f.snapshot, f.now);
    }
  }

  lemma ClaimMovesFleet(s: Sys, f: FleetStep)
    requires FleetInv(s) && (f.ClaimDeployment? || f.RenewDeployment?)
    ensures FleetMoves(s, FleetDo(s, f)) && F.Inv(FleetDo(s, f))
  {
    if f.ClaimDeployment? {
      if F.Claimable(s.fleet, f.d, f.now) { F.ClaimJobKeeps(s.fleet, f.d, f.owner, f.now, f.duration); }
    } else if F.Renew(s.fleet, f.fc, f.now, f.duration).Success? {
      F.RenewKeeps(s.fleet, f.fc, f.now, f.duration);
    }
  }

  lemma ReconcileMovesFleet(s: Sys, d: DeploymentId)
    requires FleetInv(s)
    ensures FleetMoves(s, FleetDo(s, ReconcileSucceeded(d))) && F.Inv(FleetDo(s, ReconcileSucceeded(d)))
  {
    if F.ReconcileSucceeded(s.fleet, d).Success? { F.ReconcileSucceededKeeps(s.fleet, d); }
  }

  lemma FleetStepMoves(s: Sys, f: FleetStep)
    requires FleetInv(s)
    ensures FleetMoves(s, FleetDo(s, f)) && F.Inv(FleetDo(s, f))
  {
    match f
    case Create(_, _, _, _) => CreateMovesFleet(s, f);
    case ClaimDeployment(_, _, _, _) => ClaimMovesFleet(s, f);
    case RenewDeployment(_, _, _) => ClaimMovesFleet(s, f);
    case Write(c, now, write) =>
      if F.Allowed(write) && F.Commit(s.fleet, c, now, write).Success? { WriteMovesFleet(s, c, now, write); }
    case ReconcileSucceeded(d) => ReconcileMovesFleet(s, d);
  }

  lemma FleetStepUses(s: Sys, f: FleetStep)
    requires FleetInv(s)
    ensures FleetDo(s, f).deployments.Keys <= Do(s, Fleet(f)).used.Keys
  {
  }

  lemma FleetStepKeepsRows(s: Sys, s': Sys)
    requires RowsInv(s) && FleetInv(s) && F.Inv(s'.fleet) && FleetMoves(s, s'.fleet)
    requires s' == s.(fleet := s'.fleet, used := s'.used) && s'.fleet.deployments.Keys <= s'.used.Keys
    ensures RowsInv(s') && FleetInv(s')
  {
  }

  lemma FleetStepIsSteady(s: Sys, s': Sys)
    requires FleetInv(s) && F.Inv(s'.fleet) && FleetMoves(s, s'.fleet)
    requires s' == s.(fleet := s'.fleet, used := s'.used)
    ensures Steady(s, s')
  {
    forall p | QuiescedForGood(s, p) ensures QuiescedForGood(s', p) {
      if p in s.host.db.projects {
        forall d | d in s'.fleet.deployments && s'.fleet.deployments[d].project == p
          ensures F.Terminal(s'.fleet.deployments[d].status)
                  && (d in s'.fleet.jobs ==> s'.fleet.jobs[d].state != F.JobClaimed)
                  && (d in s'.recs.rows ==> !Q.Open(s'.recs.rows[d]))
        {
          assert d in s.fleet.deployments;
          assert F.RowInv(s'.fleet.deployments[d], s'.fleet.jobs[d], s'.fleet.nextToken);
        }
      }
    }
  }

  lemma FleetStepKeeps(s: Sys, f: FleetStep)
    requires SysInv(s)
    ensures SysInv(Do(s, Fleet(f)))
  {
    var s' := Do(s, Fleet(f));
    FleetStepMoves(s, f);
    FleetStepUses(s, f);
    FleetStepIsSteady(s, s');
    FleetStepKeepsRows(s, s');
    OutsideStepKeeps(s, s');
  }

  /** A row can only be opened for a project that is not deleting. */
  predicate RecsMove(s: Sys, recs': Q.Db) {
    forall d :: d in recs'.rows ==>
      && (d in s.recs.rows || d in s.fleet.deployments)
      && (Q.Open(recs'.rows[d]) ==>
            || (d in s.recs.rows && Q.Open(s.recs.rows[d]))
            || (d in s.fleet.deployments && !IsDeleting(s, s.fleet.deployments[d].project)))
  }

  lemma RecsStepMoves(s: Sys, q: RecsStep)
    ensures RecsMove(s, RecsDo(s, q))
  {
  }

  lemma RecsStepIsSteady(s: Sys, s': Sys)
    requires RecsMove(s, s'.recs) && s' == s.(recs := s'.recs)
    ensures Steady(s, s')
  {
  }

  lemma RecsStepKeepsRows(s: Sys, s': Sys)
    requires RowsInv(s) && FleetInv(s) && RecsMove(s, s'.recs) && s' == s.(recs := s'.recs)
    ensures RowsInv(s') && FleetInv(s')
  {
  }

  lemma RecsStepKeeps(s: Sys, q: RecsStep)
    requires SysInv(s)
    ensures SysInv(Do(s, Recs(q)))
  {
    var s' := Do(s, Recs(q));
    RecsStepMoves(s, q);
    RecsStepIsSteady(s, s');
    RecsStepKeepsRows(s, s');
    OutsideStepKeeps(s, s');
  }

  lemma EnsureDatabaseKeepsRows(s: Sys, p: ProjectId)
    requires RowsInv(s) && FleetInv(s)
    ensures RowsInv(Do(s, EnsureDatabase(p))) && FleetInv(Do(s, EnsureDatabase(p)))
    ensures Steady(s, Do(s, EnsureDatabase(p)))
  {
  }

  lemma EnsureDatabaseKeeps(s: Sys, p: ProjectId)
    requires SysInv(s)
    ensures SysInv(Do(s, EnsureDatabase(p)))
  {
    EnsureDatabaseKeepsRows(s, p);
    OutsideStepKeeps(s, Do(s, EnsureDatabase(p)));
  }

  lemma AppearKeeps(s: Sys, p: ProjectId, kind: Kind)
    requires SysInv(s)
    ensures SysInv(Do(s, Appear(p, kind)))
  {
    var s' := Do(s, Appear(p, kind));
    SamePlacesKeep(s, s');
  }

  lemma SiteStepKeeps(s: Sys, change: SiteStep)
    requires SysInv(s)
    ensures SysInv(Do(s, OnSite(change)))
  {
    SamePlacesKeep(s, Do(s, OnSite(change)));
  }

  /** What there is outside the tables is nothing the tables depend on. */
  lemma SamePlacesKeep(s: Sys, s': Sys)
    requires SysInv(s) && s' == s.(present := s'.present, site := s'.site)
    ensures SysInv(s')
  {
    SameTablesAreSteady(s, s');
    OutsideStepKeeps(s, s');
  }

  // ---------------------------------------------------------------- steps on the deletion jobs that move no phase

  predicate SameJobs(db: D.Db, db': D.Db) {
    && D.Inv(db')
    && db.nextToken <= db'.nextToken
    && db'.jobs.Keys == db.jobs.Keys
    && forall p :: p in db.jobs ==>
         && db'.jobs[p].phase == db.jobs[p].phase
         && db'.jobs[p].deleteDatabase == db.jobs[p].deleteDatabase
         && (db'.jobs[p].lease.Some? ==>
               || (db.jobs[p].lease.Some? && db'.jobs[p].lease.value.token == db.jobs[p].lease.value.token)
               || db.nextToken <= db'.jobs[p].lease.value.token)
  }

  lemma PutKeepsJobs(db: D.Db, db': D.Db, p: ProjectId, j: D.Job)
    requires D.Inv(db) && p in db.jobs && db' == db.(jobs := db.jobs[p := j]) && D.JobInv(j, db.nextToken)
    requires j.phase == db.jobs[p].phase && j.deleteDatabase == db.jobs[p].deleteDatabase
    requires j.lease.Some? ==> db.jobs[p].lease.Some? && j.lease.value.token == db.jobs[p].lease.value.token
    ensures SameJobs(db, db')
  {
  }

  lemma RenewKeepsJobs(db: D.Db, c: D.Claim, now: Time, duration: nat)
    requires D.Inv(db) && D.Renew(db, c, now, duration).Success?
    ensures SameJobs(db, D.Renew(db, c, now, duration).value)
  {
    var db' := D.Renew(db, c, now, duration).value;
    PutKeepsJobs(db, db', c.project, db'.jobs[c.project]);
  }

  lemma FailKeepsJobs(db: D.Db, c: D.Claim, now: Time, error: D.LastError)
    requires D.Inv(db) && D.Fail(db, c, now, error).Success?
    ensures SameJobs(db, D.Fail(db, c, now, error).value)
  {
    var db' := D.Fail(db, c, now, error).value;
    PutKeepsJobs(db, db', c.project, db'.jobs[c.project]);
  }

  lemma RescheduleKeepsJobs(db: D.Db, c: D.Claim, now: Time, at: Time)
    requires D.Inv(db) && D.Reschedule(db, c, now, at).Success?
    ensures SameJobs(db, D.Reschedule(db, c, now, at).value)
  {
    var db' := D.Reschedule(db, c, now, at).value;
    PutKeepsJobs(db, db', c.project, db'.jobs[c.project]);
  }

  lemma DeferKeepsJobs(db: D.Db, c: D.Claim, now: Time, at: Time)
    requires D.Inv(db) && D.Defer(db, c, now, at).Success?
    ensures SameJobs(db, D.Defer(db, c, now, at).value)
  {
    var db' := D.Defer(db, c, now, at).value;
    PutKeepsJobs(db, db', c.project, db'.jobs[c.project]);
  }

  lemma RetryKeepsJobs(db: D.Db, p: ProjectId, projectExists: bool, hasDatabase: bool, confirmation: D.Confirmation, now: Time)
    requires D.Inv(db)
    ensures var r := D.Retry(db, p, projectExists, hasDatabase, confirmation, now); r.Success? ==> SameJobs(db, r.value)
  {
  }

  lemma ClaimKeepsJobs(db: D.Db, p: ProjectId, owner: WorkerId, now: Time, duration: nat)
    requires D.Inv(db) && D.Claimable(db, p, now)
    ensures SameJobs(db, D.ClaimJob(db, p, owner, now, duration).0)
  {
  }

  lemma SameTablesAreSteady(s: Sys, s': Sys)
    requires s'.host == s.host && s'.fleet == s.fleet && s'.recs == s.recs
    ensures Steady(s, s')
  {
  }

  lemma JobsStepKeepsWorkers(s: Sys, s': Sys)
    requires SysInv(s) && SameJobs(s.deletions, s'.deletions) && s' == s.(deletions := s'.deletions)
    ensures WorkersInv(s') && PhasesInv(s')
  {
    SameTablesAreSteady(s, s');
    forall p | p in s'.deletions.jobs ensures PhaseFacts(s', p, s'.deletions.jobs[p].phase) {
      assert PhaseFacts(s, p, s.deletions.jobs[p].phase);
    }
    forall k | k in s'.workers ensures WorkInv(s', s'.workers[k]) {
      assert WorkInv(s, s.workers[k]);
    }
  }

  lemma JobsStepKeeps(s: Sys, s': Sys)
    requires SysInv(s) && SameJobs(s.deletions, s'.deletions) && s' == s.(deletions := s'.deletions)
    ensures SysInv(s')
  {
    JobsStepKeepsWorkers(s, s');
    SameTablesAreSteady(s, s');
    RemovalsSteady(s, s');
  }

  /** Only worker k's own memory changes, to something that is true. */
  lemma WorkerMoves(s: Sys, k: WorkerId, work: Work)
    requires SysInv(s) && WorkInv(s, work)
    requires forall j :: j in s.workers && j != k ==> s.workers[j].claim.token != work.claim.token
    ensures SysInv(At(s, k, work))
  {
    var s' := At(s, k, work);
    SameTablesAreSteady(s, s');
    RemovalsSteady(s, s');
    forall j | j in s'.workers ensures WorkInv(s', s'.workers[j]) {
      WorkSteady(s, s', s'.workers[j]);
    }
    forall p | p in s'.deletions.jobs ensures PhaseFacts(s', p, s'.deletions.jobs[p].phase) {
      assert PhaseFacts(s, p, s.deletions.jobs[p].phase);
    }
  }

  lemma RestKeeps(s: Sys, k: WorkerId)
    requires SysInv(s)
    ensures SysInv(Rest(s, k))
  {
    var s' := Rest(s, k);
    SameTablesAreSteady(s, s');
    RemovalsSteady(s, s');
    forall j | j in s'.workers ensures WorkInv(s', s'.workers[j]) {
      WorkSteady(s, s', s'.workers[j]);
    }
    forall p | p in s'.deletions.jobs ensures PhaseFacts(s', p, s'.deletions.jobs[p].phase) {
      assert PhaseFacts(s, p, s.deletions.jobs[p].phase);
    }
  }

  lemma ReleaseKeeps(s: Sys, k: WorkerId, r: Result<D.Db, D.DeletionError>)
    requires SysInv(s) && (r.Success? ==> SameJobs(s.deletions, r.value))
    ensures SysInv(Release(s, k, r))
  {
    if r.Success? {
      JobsStepKeeps(s, s.(deletions := r.value));
      RestKeeps(s.(deletions := r.value), k);
    } else {
      RestKeeps(s, k);
    }
  }

  lemma RetryKeeps(s: Sys, p: ProjectId, confirmation: D.Confirmation, now: Time)
    requires SysInv(s)
    ensures SysInv(Do(s, RetryDeletion(p, confirmation, now)))
  {
    RetryKeepsJobs(s.deletions, p, p in s.host.db.projects, p in s.resources, confirmation, now);
    var r := D.Retry(s.deletions, p, p in s.host.db.projects, p in s.resources, confirmation, now);
    if r.Success? { JobsStepKeeps(s, s.(deletions := r.value)); }
  }

  lemma TakeKeeps(s: Sys, k: WorkerId, p: ProjectId, now: Time, duration: nat)
    requires SysInv(s)
    ensures SysInv(TakeDo(s, k, p, now, duration))
  {
    if k !in s.workers && D.Claimable(s.deletions, p, now) {
      var (deletions, c) := D.ClaimJob(s.deletions, p, k, now, duration);
      var s1 := s.(deletions := deletions);
      ClaimKeepsJobs(s.deletions, p, k, now, duration);
      JobsStepKeeps(s, s1);
      TakenWorkHolds(s, s1, k, p, now, duration);
      forall j | j in s1.workers && j != k ensures s1.workers[j].claim.token != c.token {
        assert WorkInv(s, s.workers[j]);
      }
      WorkerMoves(s1, k, Work(c, AtPhase, NO_NOTES));
    }
  }

  lemma TakenWorkHolds(s: Sys, s1: Sys, k: WorkerId, p: ProjectId, now: Time, duration: nat)
    requires RowsInv(s) && PhasesInv(s) && D.Claimable(s.deletions, p, now) && s.host.db.projects.Keys <= s.host.seen
    requires s1 == s.(deletions := D.ClaimJob(s.deletions, p, k, now, duration).0)
    ensures WorkInv(s1, Work(D.ClaimJob(s.deletions, p, k, now, duration).1, AtPhase, NO_NOTES))
  {
    assert PhaseFacts(s, p, s.deletions.jobs[p].phase);
    SameTablesAreSteady(s, s1);
  }

  // ---------------------------------------------------------------- what a worker does with its claim

  lemma BeatKeeps(s: Sys, c: D.Claim, now: Time, duration: nat)
    requires SysInv(s)
    ensures var r := D.Renew(s.deletions, c, now, duration);
            r.Success? ==> SysInv(s.(deletions := r.value))
  {
    var r := D.Renew(s.deletions, c, now, duration);
    if r.Success? {
      RenewKeepsJobs(s.deletions, c, now, duration);
      JobsStepKeeps(s, s.(deletions := r.value));
    }
  }

  /** The worker remembers the same claim at another point that is justified. */
  lemma PointKeeps(s: Sys, k: WorkerId, point: Point)
    requires SysInv(s) && k in s.workers
    requires point == Drained ==> QuiescedForGood(s, s.workers[k].claim.project)
    requires point == RouteApplied ==> T.GoneForGood(s.host, s.workers[k].claim.project)
    ensures SysInv(At(s, k, s.workers[k].(point := point)))
  {
    assert WorkInv(s, s.workers[k]);
    WorkerMoves(s, k, s.workers[k].(point := point));
  }

  /** What a worker noted down of the site decides nothing about the tables. */
  lemma NotesKeep(s: Sys, k: WorkerId, notes: Notes)
    requires SysInv(s) && k in s.workers
    ensures SysInv(At(s, k, s.workers[k].(notes := notes)))
  {
    assert WorkInv(s, s.workers[k]);
    WorkerMoves(s, k, s.workers[k].(notes := notes));
  }

  lemma NotingKeeps(s: Sys, k: WorkerId, action: Action)
    requires SysInv(s) && k in s.workers && (action.Read? || action.Look?)
    ensures SysInv(WorkerDo(s, k, s.workers[k], action))
  {
    var s' := WorkerDo(s, k, s.workers[k], action);
    if s' != s {
      assert s' == At(s, k, s.workers[k].(notes := s'.workers[k].notes));
      NotesKeep(s, k, s'.workers[k].notes);
    }
  }

  /** A project a worker holds a claim on is deleting or gone. */
  lemma ClaimedProjectIsDeleting(s: Sys, k: WorkerId)
    requires SysInv(s) && k in s.workers
    ensures var p := s.workers[k].claim.project;
            p in s.host.seen && (p in s.host.db.projects ==> IsDeleting(s, p))
  {
    assert WorkInv(s, s.workers[k]);
  }

  lemma ChecksKeep(s: Sys, k: WorkerId, action: Action)
    requires SysInv(s) && k in s.workers && (action.CheckDrained? || action.CheckApplied? || action.FinishWork?)
    ensures SysInv(WorkerDo(s, k, s.workers[k], action))
  {
    ClaimedProjectIsDeleting(s, k);
    if WorkerDo(s, k, s.workers[k], action) != s {
      PointKeeps(s, k, if action.CheckDrained? then Drained else if action.CheckApplied? then RouteApplied else Worked);
    }
  }

  lemma AuthorizeKeeps(s: Sys, k: WorkerId, now: Time, duration: nat)
    requires SysInv(s) && k in s.workers
    ensures SysInv(AuthorizeDo(s, k, s.workers[k], now, duration))
  {
    var r := D.Renew(s.deletions, s.workers[k].claim, now, duration);
    var s1 := if r.Failure? then s else s.(deletions := r.value);
    BeatKeeps(s, s.workers[k].claim, now, duration);
    PointKeeps(s1, k, AuthorizeDo(s, k, s.workers[k], now, duration).workers[k].point);
  }

  lemma DisableDeletedKeepsProjects(w: H.World, p: ProjectId, now: Time)
    ensures var w' := H.Do(w, H.DisableDeleted(p, now)); w'.db.projects == w.db.projects && w'.seen == w.seen
  {
    if R.DisableForDeletion(w.db, p, now).Success? && p in w.db.routes { R.DisableRowTouches(w.db, p, now); }
  }

  lemma SameProjectsKeepRows(s: Sys, w: H.World)
    requires RowsInv(s) && FleetInv(s) && w.db.projects == s.host.db.projects
    ensures RowsInv(s.(host := w)) && FleetInv(s.(host := w))
  {
  }

  lemma DisableDeletedIsSteady(s: Sys, p: ProjectId, now: Time)
    requires S.WorldInv(s.host)
    ensures Steady(s, s.(host := H.Do(s.host, H.DisableDeleted(p, now))))
  {
    var s1 := s.(host := H.Do(s.host, H.DisableDeleted(p, now)));
    DisableDeletedKeepsProjects(s.host, p, now);
    forall q | T.GoneForGood(s.host, q) ensures T.GoneForGood(s1.host, q) {
      T.StepKeepsGone(s.host, H.DisableDeleted(p, now), q);
    }
  }

  lemma DisableKeeps(s: Sys, k: WorkerId, now: Time)
    requires SysInv(s) && k in s.workers
    ensures var p := s.workers[k].claim.project;
            SysInv(At(s.(host := H.Do(s.host, H.DisableDeleted(p, now))), k, s.workers[k].(point := AtPhase)))
  {
    var p := s.workers[k].claim.project;
    var s1 := s.(host := H.Do(s.host, H.DisableDeleted(p, now)));
    S.StepKeeps(s.host, H.DisableDeleted(p, now));
    DisableDeletedIsSteady(s, p, now);
    DisableDeletedKeepsProjects(s.host, p, now);
    SameProjectsKeepRows(s, s1.host);
    OutsideStepKeeps(s, s1);
    PointKeeps(s1, k, AtPhase);
  }

  /** The file does not name a project whose route is gone for good. */
  lemma GoneIsNotNamed(w: H.World, p: ProjectId)
    requires S.WorldInv(w) && T.GoneForGood(w, p)
    ensures p !in H.RoutesOf(w.files.config)
  {
    assert H.RoutesOf(w.files.config).Keys <= R.Unremoved(w.db);
  }

  lemma RemoveKeeps(s: Sys, k: WorkerId, kind: Kind, ok: bool, gone: bool)
    requires SysInv(s) && k in s.workers && RemovesIn(s.workers[k].claim.job.phase, kind)
    ensures SysInv(RemoveDo(s, k, s.workers[k], kind, ok, gone))
  {
    var p := s.workers[k].claim.project;
    var r := Removal(p, kind, ok, p in H.RoutesOf(s.host.files.config));
    var s1 := RemoveDo(s, k, s.workers[k], kind, ok, gone).(workers := s.workers);
    assert WorkInv(s, s.workers[k]);
    GoneIsNotNamed(s.host, p);
    assert RemovalInv(s, r);
    RemovalIsRecorded(s, s1, r);
    PointKeeps(s1, k, AfterRemoval(kind, ok));
  }

  lemma RemovalIsRecorded(s: Sys, s1: Sys, r: Removal)
    requires SysInv(s) && RemovalInv(s, r) && s1 == s.(removals := s.removals + [r], present := s1.present, site := s1.site)
    ensures SysInv(s1)
  {
    SameTablesAreSteady(s, s1);
    forall i | 0 <= i < |s1.removals| ensures RemovalInv(s1, s1.removals[i]) {
      if i < |s.removals| { assert RemovalInv(s, s.removals[i]); }
    }
    forall p | p in s1.deletions.jobs ensures PhaseFacts(s1, p, s1.deletions.jobs[p].phase) {
      assert PhaseFacts(s, p, s.deletions.jobs[p].phase);
    }
    forall j | j in s1.workers ensures WorkInv(s1, s1.workers[j]) { WorkSteady(s, s1, s.workers[j]); }
  }

  // ---------------------------------------------------------------- advancing a phase

  /** What a worker found out within a phase is what the next phase builds on. */
  lemma NextPhaseFacts(s: Sys, work: Work)
    requires WorkInv(s, work) && work.claim.job.phase != D.MetadataDelete && work.point == ReadyPoint(work.claim.job.phase)
    ensures PhaseFacts(s, work.claim.project, D.PHASES[D.Index(work.claim.job.phase) + 1])
  {
    var next := D.PHASES[D.Index(work.claim.job.phase) + 1];
    assert D.Index(next) == D.Index(work.claim.job.phase) + 1;
  }

  /** One job moves to another phase; its lease stays. */
  predicate PhaseMoved(db: D.Db, db': D.Db, c: D.Claim, next: D.Phase) {
    && c.project in db.jobs
    && db.jobs[c.project].lease.Some? && db.jobs[c.project].lease.value.token == c.token
    && db' == db.(jobs := db.jobs[c.project := db.jobs[c.project].(phase := next)])
  }

  lemma PhaseMoveKeepsWork(s: Sys, s1: Sys, c: D.Claim, next: D.Phase, work: Work)
    requires WorkInv(s, work) && PhaseMoved(s.deletions, s1.deletions, c, next) && s1 == s.(deletions := s1.deletions)
    requires work.claim.token != c.token
    ensures WorkInv(s1, work)
  {
    SameTablesAreSteady(s, s1);
  }

  lemma PhaseMoveKeepsRows(s: Sys, s1: Sys, c: D.Claim, next: D.Phase)
    requires SysInv(s) && PhaseMoved(s.deletions, s1.deletions, c, next) && PhaseFacts(s, c.project, next)
    requires s1 == s.(deletions := s1.deletions, workers := s1.workers)
    ensures RowsInv(s1) && FleetInv(s1) && PhasesInv(s1) && RemovalsInv(s1)
  {
    SameTablesAreSteady(s, s1);
    RemovalsSteady(s, s1);
    forall p | p in s1.deletions.jobs ensures PhaseFacts(s1, p, s1.deletions.jobs[p].phase) {
      assert PhaseFacts(s, p, s.deletions.jobs[p].phase);
    }
  }

  predicate ReadyToAdvance(work: Work) {
    work.claim.job.phase != D.MetadataDelete && work.point == ReadyPoint(work.claim.job.phase)
  }

  function AdvanceResult(s: Sys, work: Work, now: Time): Result<D.Db, D.DeletionError>
    requires ReadyToAdvance(work)
  {
    D.Advance(s.deletions, work.claim, now, work.claim.job.phase, D.PHASES[D.Index(work.claim.job.phase) + 1])
  }

  lemma AdvanceMovesPhase(s: Sys, work: Work, now: Time)
    requires ReadyToAdvance(work) && AdvanceResult(s, work, now).Success?
    ensures PhaseMoved(s.deletions, AdvanceResult(s, work, now).value, work.claim, D.PHASES[D.Index(work.claim.job.phase) + 1])
  {
  }

  lemma AdvanceKeepsWorkers(s: Sys, s2: Sys, k: WorkerId, now: Time)
    requires SysInv(s) && k in s.workers && ReadyToAdvance(s.workers[k]) && AdvanceResult(s, s.workers[k], now).Success?
    requires var work := s.workers[k];
             var db := AdvanceResult(s, work, now).value;
             s2 == s.(deletions := db, workers := s.workers[k := Work(work.claim.(job := db.jobs[work.claim.project]), AtPhase, NO_NOTES)])
    ensures WorkersInv(s2)
  {
    var work := s.workers[k];
    var s1 := s.(deletions := s2.deletions);
    assert WorkInv(s, work);
    AdvanceMovesPhase(s, work, now);
    SameTablesAreSteady(s1, s2);
    AdvancedWorkHolds(s, s2, work, now);
    forall j | j in s2.workers && j != k ensures WorkInv(s2, s2.workers[j]) {
      PhaseMoveKeepsWork(s, s1, work.claim, D.PHASES[D.Index(work.claim.job.phase) + 1], s.workers[j]);
      WorkSteady(s1, s2, s.workers[j]);
    }
  }

  lemma AdvanceKeeps(s: Sys, k: WorkerId, now: Time)
    requires SysInv(s) && k in s.workers && ReadyToAdvance(s.workers[k])
    ensures SysInv(AdvanceDo(s, k, s.workers[k].claim, now))
  {
    var work := s.workers[k];
    if AdvanceResult(s, work, now).Failure? {
      RestKeeps(s, k);
    } else {
      var s2 := AdvanceDo(s, k, work.claim, now);
      assert WorkInv(s, work);
      NextPhaseFacts(s, work);
      AdvanceMovesPhase(s, work, now);
      PhaseMoveKeepsRows(s, s2, work.claim, D.PHASES[D.Index(work.claim.job.phase) + 1]);
      AdvanceKeepsWorkers(s, s2, k, now);
    }
  }

  lemma AdvancedWorkHolds(s: Sys, s2: Sys, work: Work, now: Time)
    requires WorkInv(s, work) && ReadyToAdvance(work) && AdvanceResult(s, work, now).Success?
    requires s2 == s.(deletions := AdvanceResult(s, work, now).value, workers := s2.workers)
    ensures WorkInv(s2, Work(work.claim.(job := s2.deletions.jobs[work.claim.project]), AtPhase, NO_NOTES))
  {
    NextPhaseFacts(s, work);
    SameTablesAreSteady(s, s2);
  }

  // ---------------------------------------------------------------- the end of a project

  lemma DroppedHost(w: H.World, p: ProjectId)
    requires p in w.db.projects && w.db.projects[p] == Deleting && R.RouteGone(w.db, p)
    ensures H.Do(w, H.DropProject(p)) == w.(db := R.RemoveProject(w.db, p))
  {
  }

  predicate Finalizable(s: Sys, p: ProjectId) {
    IsDeleting(s, p) && R.RouteGone(s.host.db, p) && p in s.deletions.jobs
  }

  lemma FinalizeIsSteady(s: Sys, p: ProjectId)
    requires SysInv(s) && Finalizable(s, p)
    ensures Steady(s, FinalizeDo(s, p))
  {
    var s' := FinalizeDo(s, p);
    DroppedHost(s.host, p);
    forall q | T.GoneForGood(s.host, q) ensures T.GoneForGood(s'.host, q) { T.StepKeepsGone(s.host, H.DropProject(p), q); }
    forall q | QuiescedForGood(s, q) ensures QuiescedForGood(s', q) { }
  }

  lemma FinalizeKeepsRows(s: Sys, p: ProjectId)
    requires RowsInv(s) && Finalizable(s, p)
    ensures RowsInv(FinalizeDo(s, p))
  {
    DroppedHost(s.host, p);
  }

  lemma FinalizeKeepsFleet(s: Sys, p: ProjectId)
    requires FleetInv(s) && Finalizable(s, p)
    ensures FleetInv(FinalizeDo(s, p))
  {
    DroppedHost(s.host, p);
    F.RemoveProjectKeeps(s.fleet, p);
  }

  lemma FinalizeKeepsWork(s: Sys, p: ProjectId, work: Work)
    requires WorkInv(s, work) && Finalizable(s, p) && Steady(s, FinalizeDo(s, p))
    ensures WorkInv(FinalizeDo(s, p), work)
  {
    DroppedHost(s.host, p);
  }

  lemma FinalizeKeeps(s: Sys, p: ProjectId)
    requires SysInv(s) && Finalizable(s, p)
    ensures SysInv(FinalizeDo(s, p))
  {
    var s' := FinalizeDo(s, p);
    S.StepKeeps(s.host, H.DropProject(p));
    FinalizeIsSteady(s, p);
    FinalizeKeepsRows(s, p);
    FinalizeKeepsFleet(s, p);
    RemovalsSteady(s, s');
    forall q | q in s'.deletions.jobs ensures PhaseFacts(s', q, s'.deletions.jobs[q].phase) {
      assert PhaseFacts(s, q, s.deletions.jobs[q].phase);
    }
    forall k | k in s'.workers ensures WorkInv(s', s'.workers[k]) { FinalizeKeepsWork(s, p, s.workers[k]); }
  }

  // ---------------------------------------------------------------- the beginning of a deletion

  /** A project that is not deleting yet becomes deleting and gets its job. */
  predicate Marked(s: Sys, s': Sys, p: ProjectId, j: D.Job) {
    && p in s.host.db.projects && p !in s.deletions.jobs
    && j.phase == D.Requested && j.deleteDatabase == (p in s.resources) && D.JobInv(j, s.deletions.nextToken)
    && s' == s.(deletions := s.deletions.(jobs := s.deletions.jobs[p := j]), host := H.Do(s.host, H.MarkDeleting(p)))
  }

  lemma MarkIsSteady(s: Sys, s': Sys, p: ProjectId, j: D.Job)
    requires SysInv(s) && Marked(s, s', p, j)
    ensures Steady(s, s')
  {
    forall q | T.GoneForGood(s.host, q) ensures T.GoneForGood(s'.host, q) { T.StepKeepsGone(s.host, H.MarkDeleting(p), q); }
    forall q | QuiescedForGood(s, q) ensures QuiescedForGood(s', q) { }
  }

  lemma MarkKeepsRows(s: Sys, s': Sys, p: ProjectId, j: D.Job)
    requires RowsInv(s) && FleetInv(s) && Marked(s, s', p, j)
    ensures RowsInv(s') && FleetInv(s')
  {
  }

  lemma MarkKeepsWork(s: Sys, s': Sys, p: ProjectId, j: D.Job, work: Work)
    requires WorkInv(s, work) && Marked(s, s', p, j) && Steady(s, s')
    ensures WorkInv(s', work)
  {
  }

  lemma MarkKeeps(s: Sys, s': Sys, p: ProjectId, j: D.Job)
    requires SysInv(s) && Marked(s, s', p, j)
    ensures SysInv(s')
  {
    S.StepKeeps(s.host, H.MarkDeleting(p));
    MarkIsSteady(s, s', p, j);
    MarkKeepsRows(s, s', p, j);
    RemovalsSteady(s, s');
    forall q | q in s'.deletions.jobs ensures PhaseFacts(s', q, s'.deletions.jobs[q].phase) {
      if q != p { assert PhaseFacts(s, q, s.deletions.jobs[q].phase); }
    }
    forall k | k in s'.workers ensures WorkInv(s', s'.workers[k]) { MarkKeepsWork(s, s', p, j, s.workers[k]); }
  }

  lemma RequestKeeps(s: Sys, p: ProjectId, confirmation: D.Confirmation, now: Time)
    requires SysInv(s)
    ensures SysInv(RequestDo(s, p, confirmation, now))
  {
    var s' := RequestDo(s, p, confirmation, now);
    if s' != s { MarkKeeps(s, s', p, s'.deletions.jobs[p]); }
  }

  // ---------------------------------------------------------------- every step, every run

  predicate GivesUp(action: Action) {
    action.Defer? || action.Reschedule? || action.Fail?
  }

  function GivenUp(db: D.Db, c: D.Claim, action: Action): Result<D.Db, D.DeletionError>
    requires GivesUp(action)
  {
    match action
    case Defer(now, at) => D.Defer(db, c, now, at)
    case Reschedule(now, at) => D.Reschedule(db, c, now, at)
    case Fail(now, error) => D.Fail(db, c, now, error)
  }

  lemma GivingUpReleases(s: Sys, k: WorkerId, action: Action)
    requires k in s.workers && GivesUp(action)
    ensures WorkerDo(s, k, s.workers[k], action) == Release(s, k, GivenUp(s.deletions, s.workers[k].claim, action))
  {
  }

  lemma GivingUpKeepsJobs(db: D.Db, c: D.Claim, action: Action)
    requires D.Inv(db) && GivesUp(action) && GivenUp(db, c, action).Success?
    ensures SameJobs(db, GivenUp(db, c, action).value)
  {
    match action
    case Defer(now, at) => DeferKeepsJobs(db, c, now, at);
    case Reschedule(now, at) => RescheduleKeepsJobs(db, c, now, at);
    case Fail(now, error) => FailKeepsJobs(db, c, now, error);
  }

  lemma ReleasesKeep(s: Sys, k: WorkerId, action: Action)
    requires SysInv(s) && k in s.workers && GivesUp(action)
    ensures SysInv(WorkerDo(s, k, s.workers[k], action))
  {
    var r := GivenUp(s.deletions, s.workers[k].claim, action);
    if r.Success? { GivingUpKeepsJobs(s.deletions, s.workers[k].claim, action); }
    ReleaseKeeps(s, k, r);
    GivingUpReleases(s, k, action);
  }

  lemma LiveIsFinalizable(s: Sys, c: D.Claim, now: Time)
    requires MutationAllowed(s, c, now, true)
    ensures Finalizable(s, c.project)
  {
  }

  lemma FinalizeActKeeps(s: Sys, k: WorkerId, now: Time)
    requires SysInv(s) && k in s.workers
    ensures SysInv(WorkerDo(s, k, s.workers[k], Finalize(now)))
  {
    var c := s.workers[k].claim;
    var s' := WorkerDo(s, k, s.workers[k], Finalize(now));
    RestKeeps(s, k);
    if s' != s && s' != Rest(s, k) {
      LiveIsFinalizable(s, c, now);
      FinalizeKeeps(s, c.project);
      RestKeeps(FinalizeDo(s, c.project), k);
      assert s' == Rest(FinalizeDo(s, c.project), k);
    }
  }

  lemma AdvanceCases(s: Sys, k: WorkerId, now: Time)
    requires k in s.workers
    ensures var s' := WorkerDo(s, k, s.workers[k], AdvancePhase(now));
            s' == s || (ReadyToAdvance(s.workers[k]) && s' == AdvanceDo(s, k, s.workers[k].claim, now))
  {
  }

  lemma RemoveCases(s: Sys, k: WorkerId, kind: Kind, ok: bool, gone: bool)
    requires k in s.workers
    ensures var s' := WorkerDo(s, k, s.workers[k], Remove(kind, ok, gone));
            || s' == s
            || (&& s' == RemoveDo(s, k, s.workers[k], kind, ok, gone) && s.workers[k].point == Cleared
                && RemovesIn(s.workers[k].claim.job.phase, kind) && MayTake(s.workers[k], kind))
  {
  }

  lemma StopIs(s: Sys, k: WorkerId)
    requires k in s.workers
    ensures WorkerDo(s, k, s.workers[k], Stop) == Rest(s, k)
  {
  }

  lemma RemoveActKeeps(s: Sys, k: WorkerId, kind: Kind, ok: bool, gone: bool)
    requires SysInv(s) && k in s.workers
    ensures SysInv(WorkerDo(s, k, s.workers[k], Remove(kind, ok, gone)))
  {
    RemoveCases(s, k, kind, ok, gone);
    if WorkerDo(s, k, s.workers[k], Remove(kind, ok, gone)) != s { RemoveKeeps(s, k, kind, ok, gone); }
  }

  lemma AdvanceActKeeps(s: Sys, k: WorkerId, now: Time)
    requires SysInv(s) && k in s.workers
    ensures SysInv(WorkerDo(s, k, s.workers[k], AdvancePhase(now)))
  {
    AdvanceCases(s, k, now);
    if WorkerDo(s, k, s.workers[k], AdvancePhase(now)) != s { AdvanceKeeps(s, k, now); }
  }

  /** A worker looks at something, or calls its work done. */
  lemma LookingKeeps(s: Sys, k: WorkerId, action: Action)
    requires SysInv(s) && k in s.workers
    requires action.CheckDrained? || action.CheckApplied? || action.FinishWork? || action.Read? || action.Look?
    ensures SysInv(WorkerDo(s, k, s.workers[k], action))
  {
    if action.Read? || action.Look? { NotingKeeps(s, k, action); } else { ChecksKeep(s, k, action); }
  }

  /** A worker gives its claim up or forgets it. */
  lemma LeavingKeeps(s: Sys, k: WorkerId, action: Action)
    requires SysInv(s) && k in s.workers
    requires action.Defer? || action.Reschedule? || action.Fail? || action.Stop?
    ensures SysInv(WorkerDo(s, k, s.workers[k], action))
  {
    if action.Stop? {
      StopIs(s, k);
      RestKeeps(s, k);
    } else {
      ReleasesKeep(s, k, action);
    }
  }

  lemma BeatActKeeps(s: Sys, k: WorkerId, now: Time, duration: nat)
    requires SysInv(s) && k in s.workers
    ensures SysInv(WorkerDo(s, k, s.workers[k], Beat(now, duration)))
  {
    BeatKeeps(s, s.workers[k].claim, now, duration);
  }

  lemma ActKeeps(s: Sys, k: WorkerId, action: Action)
    requires SysInv(s) && k in s.workers
    ensures SysInv(WorkerDo(s, k, s.workers[k], action))
  {
    if action.Defer? || action.Reschedule? || action.Fail? || action.Stop? {
      LeavingKeeps(s, k, action);
    } else if action.CheckDrained? || action.CheckApplied? || action.FinishWork? || action.Read? || action.Look? {
      LookingKeeps(s, k, action);
    } else {
      WritingKeeps(s, k, action);
    }
  }

  lemma WritingKeeps(s: Sys, k: WorkerId, action: Action)
    requires SysInv(s) && k in s.workers
    requires || action.Beat? || action.Authorize? || action.DisableRoute? || action.Remove? || action.AdvancePhase?
             || action.Finalize?
    ensures SysInv(WorkerDo(s, k, s.workers[k], action))
  {
    match action
    case Beat(now, duration) => BeatActKeeps(s, k, now, duration);
    case Authorize(now, duration) => AuthorizeKeeps(s, k, now, duration);
    case DisableRoute(now) => DisableKeeps(s, k, now);
    case Remove(kind, ok, gone) => RemoveActKeeps(s, k, kind, ok, gone);
    case AdvancePhase(now) => AdvanceActKeeps(s, k, now);
    case Finalize(now) => FinalizeActKeeps(s, k, now);
  }

  lemma StepKeeps(s: Sys, step: Step)
    requires SysInv(s)
    ensures SysInv(Do(s, step))
  {
    match step
    case Host(h) => HostStepKeeps(s, h);
    case Fleet(f) => FleetStepKeeps(s, f);
    case Recs(q) => RecsStepKeeps(s, q);
    case EnsureDatabase(p) => EnsureDatabaseKeeps(s, p);
    case Appear(p, kind) => AppearKeeps(s, p, kind);
    case OnSite(change) => SiteStepKeeps(s, change);
    case RequestDeletion(p, confirmation, now) => RequestKeeps(s, p, confirmation, now);
    case RetryDeletion(p, confirmation, now) => RetryKeeps(s, p, confirmation, now);
    case TakeDeletion(k, p, now, duration) => TakeKeeps(s, k, p, now, duration);
    case Act(k, action) => if k in s.workers { ActKeeps(s, k, action); }
  }

  lemma {:induction false} RunKeeps(s: Sys, run: seq<Step>)
    requires SysInv(s)
    ensures SysInv(After(s, run))
    decreases |run|
  {
    if run != [] {
      RunKeeps(s, run[..|run| - 1]);
      StepKeeps(After(s, run[..|run| - 1]), run[|run| - 1]);
    }
  }

  lemma Reachable(maxAttempts: nat, run: seq<Step>)
    ensures SysInv(After(Init(maxAttempts), run))
  {
    RunKeeps(Init(maxAttempts), run);
  }
}
