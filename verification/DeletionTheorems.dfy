/** What a project deletion guarantees, over every run of the system around it. */
module DeletionTheorems {
  import opened Wrappers
  import opened Ids
  import opened DeletionSystem
  import opened DeletionSafety
  import R = RouteStore
  import H = RoutingHost
  import T = RoutingTheorems
  import F = DeploymentStore
  import D = DeletionStore

  // ---------------------------------------------------------------- facts that stay true through any run

  /** Which steps leave which tables alone. */
  lemma HostStands(s: Sys, step: Step)
    requires !step.Host? && !step.Act? && !step.RequestDeletion?
    ensures Do(s, step).host == s.host
  {
  }

  lemma FleetStands(s: Sys, step: Step)
    requires !step.Fleet? && !step.Act?
    ensures Do(s, step).fleet == s.fleet
  {
  }

  lemma JobsStand(s: Sys, step: Step)
    requires !step.RequestDeletion? && !step.RetryDeletion? && !step.TakeDeletion? && !step.Act?
    ensures Do(s, step).deletions == s.deletions
  {
  }

  lemma TablesStand(s: Sys, step: Step)
    requires step.Appear? || step.OnSite? || step.RetryDeletion? || step.TakeDeletion?
    ensures var s' := Do(s, step); s'.host == s.host && s'.fleet == s.fleet && s'.recs == s.recs && s'.resources == s.resources
  {
  }

  lemma ActTables(s: Sys, k: WorkerId, action: Action)
    requires k in s.workers && !action.DisableRoute? && !action.Finalize?
    ensures var s' := WorkerDo(s, k, s.workers[k], action);
            s'.host == s.host && s'.fleet == s.fleet && s'.recs == s.recs && s'.resources == s.resources
  {
  }

  lemma FinalizeCases(s: Sys, k: WorkerId, now: Time)
    requires k in s.workers
    ensures var work := s.workers[k];
            var s' := WorkerDo(s, k, work, Finalize(now));
            || s' == s
            || s' == Rest(s, k)
            || (&& s' == Rest(FinalizeDo(s, work.claim.project), k)
                && Finalizable(s, work.claim.project) && work.point == Worked
                && D.Live(s.deletions, work.claim, now)
                && work.claim.job.phase == s.deletions.jobs[work.claim.project].phase == D.MetadataDelete)
  {
  }

  lemma ActIsSteady(s: Sys, k: WorkerId, action: Action)
    requires SysInv(s) && k in s.workers
    ensures Steady(s, WorkerDo(s, k, s.workers[k], action))
  {
    var s' := WorkerDo(s, k, s.workers[k], action);
    var p := s.workers[k].claim.project;
    if action.DisableRoute? {
      DisableDeletedIsSteady(s, p, action.now);
    } else if action.Finalize? {
      FinalizeCases(s, k, action.now);
      if s' == s || s' == Rest(s, k) {
        SameTablesAreSteady(s, s');
      } else {
        FinalizeIsSteady(s, p);
      }
    } else {
      ActTables(s, k, action);
      SameTablesAreSteady(s, s');
    }
  }

  lemma RequestIsSteady(s: Sys, p: ProjectId, confirmation: D.Confirmation, now: Time)
    requires SysInv(s)
    ensures Steady(s, RequestDo(s, p, confirmation, now))
  {
    var s' := RequestDo(s, p, confirmation, now);
    if s' != s { MarkIsSteady(s, s', p, s'.deletions.jobs[p]); }
  }

  lemma StepIsSteady(s: Sys, step: Step)
    requires SysInv(s)
    ensures Steady(s, Do(s, step))
  {
    match step
    case Host(h) => if OpenHostStep(h) { HostStepIsSteady(s, h); }
    case Fleet(f) => FleetStepMoves(s, f); FleetStepIsSteady(s, Do(s, step));
    case Recs(q) => RecsStepMoves(s, q); RecsStepIsSteady(s, Do(s, step));
    case EnsureDatabase(p) => EnsureDatabaseKeepsRows(s, p);
    case RequestDeletion(p, confirmation, now) => RequestIsSteady(s, p, confirmation, now);
    case Act(k, action) => if k in s.workers { ActIsSteady(s, k, action); }
    case _ => TablesStand(s, step); SameTablesAreSteady(s, Do(s, step));
  }

  lemma {:induction false} RunIsSteady(s: Sys, run: seq<Step>)
    requires SysInv(s)
    ensures Steady(s, After(s, run))
    decreases |run|
  {
    if run != [] {
      RunIsSteady(s, run[..|run| - 1]);
      RunKeeps(s, run[..|run| - 1]);
      StepIsSteady(After(s, run[..|run| - 1]), run[|run| - 1]);
    }
  }

  // ---------------------------------------------------------------- removals

  /**
   Nothing of a project is ever removed unless its route is gone and nothing of it runs.
   That was so when the removal happened, however long ago the worker had checked and
   whether or not it still held its lease, and stays so in every continuation of the run,
   in which the routing file never names the project again.
   */
  lemma RemovalsComeAfterTheRoute(maxAttempts: nat, run: seq<Step>, more: seq<Step>, i: nat)
    requires i < |After(Init(maxAttempts), run).removals|
    ensures var s := After(Init(maxAttempts), run);
            var r := s.removals[i];
            var later := After(s, more);
            && !r.namedInFile
            && T.GoneForGood(later.host, r.project)
            && QuiescedForGood(later, r.project)
            && r.project !in H.RoutesOf(later.host.files.config)
  {
    var s := After(Init(maxAttempts), run);
    Reachable(maxAttempts, run);
    assert RemovalInv(s, s.removals[i]);
    RunIsSteady(s, more);
    RunKeeps(s, more);
    GoneIsNotNamed(After(s, more).host, s.removals[i].project);
  }

  /** A project that is gone has no rows left that a guard could trip over. */
  lemma NothingIsLeft(s: Sys, p: ProjectId)
    requires SysInv(s) && p !in s.host.db.projects
    ensures R.RouteGone(s.host.db, p) && Quiesced(s.fleet, s.recs, p)
    ensures p !in s.host.db.routes && p !in s.host.db.jobs && p !in s.deletions.jobs && p !in s.resources
    ensures F.OfProject(s.fleet, p) == {}
  {
  }

  lemma GoneAndQuiesced(s: Sys, p: ProjectId)
    requires SysInv(s) && QuiescedForGood(s, p)
    ensures Quiesced(s.fleet, s.recs, p)
    ensures T.GoneForGood(s.host, p) ==> R.RouteGone(s.host.db, p)
  {
    if p !in s.host.db.projects { NothingIsLeft(s, p); }
  }

  lemma RemoveNeedsClearance(s: Sys, k: WorkerId, kind: Kind, ok: bool, gone: bool)
    requires k in s.workers && Do(s, Act(k, Remove(kind, ok, gone))) != s
    ensures s.workers[k].point == Cleared && RemovesIn(s.workers[k].claim.job.phase, kind)
  {
  }

  /** From step j on the worker has been cleared. */
  ghost predicate ClearedFrom(maxAttempts: nat, run: seq<Step>, k: WorkerId, j: nat) {
    && j < |run| && run[j].Act? && run[j].k == k && run[j].action.Authorize?
    && forall n :: j < n <= |run| ==> ClearedThere(maxAttempts, run[..n], k)
  }

  predicate ClearedThere(maxAttempts: nat, run: seq<Step>, k: WorkerId) {
    var s := After(Init(maxAttempts), run);
    k in s.workers && s.workers[k].point == Cleared
  }

  lemma OnlyAuthorizingClears(s: Sys, step: Step, k: WorkerId)
    requires k in Do(s, step).workers && Do(s, step).workers[k].point == Cleared
    requires !(step.Act? && step.k == k && step.action.Authorize?)
    ensures k in s.workers && s.workers[k].point == Cleared
  {
    if step.Act? {
      if step.k in s.workers { ActClears(s, step.k, step.action, k); }
    } else if !step.TakeDeletion? {
      WorkersStand(s, step);
    }
  }

  lemma WorkersStand(s: Sys, step: Step)
    requires !step.Act? && !step.TakeDeletion?
    ensures Do(s, step).workers == s.workers
  {
  }

  lemma ActClears(s: Sys, j: WorkerId, action: Action, k: WorkerId)
    requires j in s.workers && !(j == k && action.Authorize?)
    requires var s' := WorkerDo(s, j, s.workers[j], action); k in s'.workers && s'.workers[k].point == Cleared
    ensures k in s.workers && s.workers[k].point == Cleared
  {
  }

  /** A cleared worker has been cleared ever since it authorized last. */
  lemma {:induction false} ClearedSinceAuthorized(maxAttempts: nat, run: seq<Step>, k: WorkerId) returns (j: nat)
    requires ClearedThere(maxAttempts, run, k)
    ensures ClearedFrom(maxAttempts, run, k, j)
    decreases |run|
  {
    assert run != [];
    var n := |run| - 1;
    assert run[..n + 1] == run;
    if run[n].Act? && run[n].k == k && run[n].action.Authorize? {
      j := n;
    } else {
      OnlyAuthorizingClears(After(Init(maxAttempts), run[..n]), run[n], k);
      j := ClearedSinceAuthorized(maxAttempts, run[..n], k);
      forall m | j < m <= |run| ensures ClearedThere(maxAttempts, run[..m], k) {
        if m <= n { assert run[..n][..m] == run[..m]; }
      }
    }
  }

  /** A removal that happens ends the clearance it needed. */
  lemma RemovalEndsClearance(s: Sys, k: WorkerId, kind: Kind, ok: bool, gone: bool)
    requires k in s.workers && Do(s, Act(k, Remove(kind, ok, gone))) != s
    ensures s.workers[k].point == Cleared && k in Do(s, Act(k, Remove(kind, ok, gone))).workers
    ensures Do(s, Act(k, Remove(kind, ok, gone))).workers[k].point != Cleared
  {
  }

  /** Step i of the run is a removal that this worker carries out. */
  predicate RemovesAt(maxAttempts: nat, run: seq<Step>, k: WorkerId, i: nat)
    requires i < |run|
  {
    var s := After(Init(maxAttempts), run[..i]);
    run[i].Act? && run[i].k == k && run[i].action.Remove? && k in s.workers && Do(s, run[i]) != s
  }

  lemma RemovalIsClearedBefore(maxAttempts: nat, run: seq<Step>, k: WorkerId, i: nat)
    requires i < |run| && RemovesAt(maxAttempts, run, k, i)
    ensures ClearedThere(maxAttempts, run[..i], k) && !ClearedThere(maxAttempts, run[..i + 1], k)
  {
    assert run[..i + 1][..i] == run[..i];
    RemovalEndsClearance(After(Init(maxAttempts), run[..i]), k, run[i].action.kind, run[i].action.ok, run[i].action.gone);
  }

  /** Between any two removals that one worker carries out, and before its first, it authorizes anew. */
  lemma RemovalsAreAuthorized(maxAttempts: nat, run: seq<Step>, k: WorkerId, m: nat)
    requires m < |run| && RemovesAt(maxAttempts, run, k, m)
    ensures exists j :: 0 <= j < m && run[j].Act? && run[j].k == k && run[j].action.Authorize?
                        && forall i :: j < i < m ==> !RemovesAt(maxAttempts, run, k, i)
  {
    RemovalIsClearedBefore(maxAttempts, run, k, m);
    var j := ClearedSinceAuthorized(maxAttempts, run[..m], k);
    forall i | j < i < m ensures !RemovesAt(maxAttempts, run, k, i) {
      assert run[..m][..i + 1] == run[..i + 1];
      if RemovesAt(maxAttempts, run, k, i) { RemovalIsClearedBefore(maxAttempts, run, k, i); }
    }
    assert run[..m][j] == run[j];
  }

  /** A worker may act only on a project whose operations drained and whose route is gone. */
  lemma ClearedWorkerIsSafe(maxAttempts: nat, run: seq<Step>, k: WorkerId, kind: Kind, ok: bool, gone: bool)
    requires var s := After(Init(maxAttempts), run);
             k in s.workers && Do(s, Act(k, Remove(kind, ok, gone))) != s
    ensures var s := After(Init(maxAttempts), run);
            var p := s.workers[k].claim.project;
            && s.workers[k].point == Cleared && RemovesIn(s.workers[k].claim.job.phase, kind)
            && R.RouteGone(s.host.db, p) && Quiesced(s.fleet, s.recs, p)
  {
    var s := After(Init(maxAttempts), run);
    Reachable(maxAttempts, run);
    RemoveNeedsClearance(s, k, kind, ok, gone);
    assert WorkInv(s, s.workers[k]);
    GoneAndQuiesced(s, s.workers[k].claim.project);
  }

  /** What each phase of a deletion job vouches for, in every reachable state. */
  lemma PhaseVouches(maxAttempts: nat, run: seq<Step>, p: ProjectId)
    requires p in After(Init(maxAttempts), run).deletions.jobs
    ensures var s := After(Init(maxAttempts), run);
            var i := D.Index(s.deletions.jobs[p].phase);
            && IsDeleting(s, p)
            && (i >= 2 ==> Quiesced(s.fleet, s.recs, p))
            && (i >= 3 ==> R.RouteGone(s.host.db, p) && p !in H.RoutesOf(s.host.files.config))
  {
    var s := After(Init(maxAttempts), run);
    Reachable(maxAttempts, run);
    assert PhaseFacts(s, p, s.deletions.jobs[p].phase);
    if D.Index(s.deletions.jobs[p].phase) >= 3 { GoneIsNotNamed(s.host, p); }
  }

  // ---------------------------------------------------------------- deleting is final

  /** The project is deleting, or gone and its id spent. */
  predicate Doomed(s: Sys, p: ProjectId) {
    p in s.host.seen && (p in s.host.db.projects ==> IsDeleting(s, p))
  }

  lemma HostStepKeepsDoomed(s: Sys, h: H.Step, p: ProjectId)
    requires SysInv(s) && Doomed(s, p) && OpenHostStep(h)
    ensures Doomed(s.(host := H.Do(s.host, h)), p)
  {
    OpenHostKeepsProjects(s.host, h);
  }

  lemma ActKeepsDoomed(s: Sys, k: WorkerId, action: Action, p: ProjectId)
    requires SysInv(s) && k in s.workers && Doomed(s, p)
    ensures Doomed(WorkerDo(s, k, s.workers[k], action), p)
  {
    var s' := WorkerDo(s, k, s.workers[k], action);
    var q := s.workers[k].claim.project;
    if action.DisableRoute? {
      DisableDeletedKeepsProjects(s.host, q, action.now);
    } else if action.Finalize? {
      FinalizeCases(s, k, action.now);
      if Finalizable(s, q) { DroppedHost(s.host, q); }
    } else {
      ActTables(s, k, action);
    }
  }

  lemma StepKeepsDoomed(s: Sys, step: Step, p: ProjectId)
    requires SysInv(s) && Doomed(s, p)
    ensures Doomed(Do(s, step), p)
  {
    match step
    case Host(h) => if OpenHostStep(h) { HostStepKeepsDoomed(s, h, p); }
    case Act(k, action) => if k in s.workers { ActKeepsDoomed(s, k, action, p); }
    case RequestDeletion(_, _, _) =>
    case _ => HostStands(s, step);
  }

  /** Once a project is deleting it stays so until its row is gone, and its id never comes back. */
  lemma {:induction false} DeletingIsFinal(s: Sys, run: seq<Step>, p: ProjectId)
    requires SysInv(s) && Doomed(s, p)
    ensures Doomed(After(s, run), p)
    decreases |run|
  {
    if run != [] {
      DeletingIsFinal(s, run[..|run| - 1], p);
      RunKeeps(s, run[..|run| - 1]);
      StepKeepsDoomed(After(s, run[..|run| - 1]), run[|run| - 1], p);
    }
  }

  // ---------------------------------------------------------------- a deleting project's deployments are fixed

  /** Either the project is gone, or it has exactly the deployments it had, configured as they were. */
  predicate Frozen(fleet: F.Db, s': Sys, p: ProjectId) {
    p in s'.host.db.projects ==>
      && F.OfProject(s'.fleet, p) == F.OfProject(fleet, p)
      && forall d :: d in F.OfProject(fleet, p) ==> s'.fleet.deployments[d].snapshot == fleet.deployments[d].snapshot
  }

  lemma FleetStepFreezes(s: Sys, f: FleetStep, p: ProjectId)
    requires SysInv(s) && IsDeleting(s, p)
    ensures Frozen(s.fleet, Do(s, Fleet(f)), p)
  {
    var s' := Do(s, Fleet(f));
    FleetStepMoves(s, f);
    forall d ensures d in F.OfProject(s'.fleet, p) <==> d in F.OfProject(s.fleet, p) {
      if d in s'.fleet.deployments && d !in s.fleet.deployments { assert s'.fleet.deployments[d].project != p; }
    }
  }

  lemma FinalizeFreezes(s: Sys, q: ProjectId, p: ProjectId)
    requires SysInv(s) && Finalizable(s, q)
    ensures Frozen(s.fleet, FinalizeDo(s, q), p)
  {
    DroppedHost(s.host, q);
  }

  lemma ActFreezes(s: Sys, k: WorkerId, action: Action, p: ProjectId)
    requires SysInv(s) && k in s.workers && IsDeleting(s, p)
    ensures Frozen(s.fleet, WorkerDo(s, k, s.workers[k], action), p)
  {
    var q := s.workers[k].claim.project;
    if action.Finalize? {
      FinalizeCases(s, k, action.now);
      if Finalizable(s, q) { FinalizeFreezes(s, q, p); }
    } else if !action.DisableRoute? {
      ActTables(s, k, action);
    }
  }

  lemma StepFreezes(s: Sys, step: Step, p: ProjectId)
    requires SysInv(s) && IsDeleting(s, p)
    ensures Frozen(s.fleet, Do(s, step), p)
  {
    if step.Fleet? {
      FleetStepFreezes(s, step.f, p);
    } else if step.Act? {
      if step.k in s.workers { ActFreezes(s, step.k, step.action, p); }
    } else {
      FleetStands(s, step);
    }
  }

  /**
   From the moment a project is deleting its deployments and their configurations are
   fixed, so two looks at them, far apart, give the teardown the same list.
   */
  lemma {:induction false} DeploymentsAreFrozen(s: Sys, run: seq<Step>, p: ProjectId)
    requires SysInv(s) && IsDeleting(s, p)
    ensures Frozen(s.fleet, After(s, run), p)
    decreases |run|
  {
    if run != [] {
      var before := After(s, run[..|run| - 1]);
      DeploymentsAreFrozen(s, run[..|run| - 1], p);
      RunKeeps(s, run[..|run| - 1]);
      DeletingIsFinal(s, run[..|run| - 1], p);
      StepIsSteady(before, run[|run| - 1]);
      if p in before.host.db.projects { StepFreezes(before, run[|run| - 1], p); }
    }
  }

  /** Once a deleting project has nothing running or waiting to run, that stays so. */
  lemma QuiescenceIsStable(s: Sys, run: seq<Step>, p: ProjectId)
    requires SysInv(s) && IsDeleting(s, p) && Quiesced(s.fleet, s.recs, p)
    ensures var later := After(s, run);
            Quiesced(later.fleet, later.recs, p) && (p in later.host.db.projects ==> IsDeleting(later, p))
  {
    RunIsSteady(s, run);
    RunKeeps(s, run);
    assert QuiescedForGood(s, p);
    GoneAndQuiesced(After(s, run), p);
  }

  // ---------------------------------------------------------------- the database flag

  /** The flag of a deletion job always tells whether the project has a database. */
  lemma FlagMatchesDatabase(maxAttempts: nat, run: seq<Step>, p: ProjectId)
    requires p in After(Init(maxAttempts), run).deletions.jobs
    ensures var s := After(Init(maxAttempts), run); s.deletions.jobs[p].deleteDatabase <==> p in s.resources
  {
    Reachable(maxAttempts, run);
  }

  /**
   A worker finds its authorization not to match the database exactly when another worker
   has finished deleting the project, database included; its error can then not be written.
   */
  lemma MismatchMeansFinished(maxAttempts: nat, run: seq<Step>, k: WorkerId, now: Time, error: D.LastError)
    requires k in After(Init(maxAttempts), run).workers
    ensures var s := After(Init(maxAttempts), run);
            var c := s.workers[k].claim;
            && (AuthorizationMismatch(s, c) <==> c.project !in s.host.db.projects && c.job.deleteDatabase)
            && (AuthorizationMismatch(s, c) ==> D.Fail(s.deletions, c, now, error) == Failure(D.ClaimLost))
  {
    var s := After(Init(maxAttempts), run);
    Reachable(maxAttempts, run);
    assert WorkInv(s, s.workers[k]);
  }

  // ---------------------------------------------------------------- phases

  /** Jobs that survive a step keep their phase, or a live claim on them moves it one on. */
  predicate PhaseKept(s: Sys, s': Sys, p: ProjectId) {
    p in s.deletions.jobs && p in s'.deletions.jobs ==> s'.deletions.jobs[p].phase == s.deletions.jobs[p].phase
  }

  predicate PhaseAdvanced(s: Sys, s': Sys, step: Step, p: ProjectId) {
    && step.Act? && step.k in s.workers && step.action.AdvancePhase?
    && s.workers[step.k].claim.project == p
    && D.Live(s.deletions, s.workers[step.k].claim, step.action.now)
    && p in s'.deletions.jobs
    && D.Index(s'.deletions.jobs[p].phase) == D.Index(s.deletions.jobs[p].phase) + 1
  }

  lemma ReleaseKeepsPhase(s: Sys, k: WorkerId, r: Result<D.Db, D.DeletionError>, p: ProjectId)
    requires r.Success? ==> SameJobs(s.deletions, r.value)
    ensures PhaseKept(s, Release(s, k, r), p)
  {
  }

  lemma ReleasesKeepPhase(s: Sys, k: WorkerId, action: Action, p: ProjectId)
    requires SysInv(s) && k in s.workers && GivesUp(action)
    ensures PhaseKept(s, WorkerDo(s, k, s.workers[k], action), p)
  {
    var r := GivenUp(s.deletions, s.workers[k].claim, action);
    if r.Success? { GivingUpKeepsJobs(s.deletions, s.workers[k].claim, action); }
    ReleaseKeepsPhase(s, k, r, p);
    GivingUpReleases(s, k, action);
  }

  lemma BeatingKeepsPhase(s: Sys, k: WorkerId, action: Action, p: ProjectId)
    requires SysInv(s) && k in s.workers && (action.Beat? || action.Authorize?)
    ensures PhaseKept(s, WorkerDo(s, k, s.workers[k], action), p)
  {
    var c := s.workers[k].claim;
    if D.Renew(s.deletions, c, action.now, action.duration).Success? {
      RenewKeepsJobs(s.deletions, c, action.now, action.duration);
    }
  }

  lemma AdvanceMovesOnePhase(s: Sys, k: WorkerId, now: Time, p: ProjectId)
    requires k in s.workers
    ensures var s' := WorkerDo(s, k, s.workers[k], AdvancePhase(now));
            PhaseKept(s, s', p) || PhaseAdvanced(s, s', Act(k, AdvancePhase(now)), p)
  {
  }

  lemma ActMovesPhase(s: Sys, k: WorkerId, action: Action, p: ProjectId)
    requires SysInv(s) && k in s.workers
    ensures var s' := WorkerDo(s, k, s.workers[k], action);
            PhaseKept(s, s', p) || PhaseAdvanced(s, s', Act(k, action), p)
  {
    if action.AdvancePhase? {
      AdvanceMovesOnePhase(s, k, action.now, p);
    } else if action.Beat? || action.Authorize? {
      BeatingKeepsPhase(s, k, action, p);
    } else if action.Defer? || action.Reschedule? || action.Fail? {
      ReleasesKeepPhase(s, k, action, p);
    }
  }

  lemma ClaimingKeepsPhase(s: Sys, k: WorkerId, q: ProjectId, now: Time, duration: nat, p: ProjectId)
    requires SysInv(s)
    ensures PhaseKept(s, TakeDo(s, k, q, now, duration), p)
  {
    if D.Claimable(s.deletions, q, now) { ClaimKeepsJobs(s.deletions, q, k, now, duration); }
  }

  lemma RequestKeepsPhase(s: Sys, q: ProjectId, confirmation: D.Confirmation, now: Time, p: ProjectId)
    ensures PhaseKept(s, RequestDo(s, q, confirmation, now), p)
  {
  }

  /** One step moves a phase by at most one, forward, and only for the worker holding the live claim. */
  lemma StepMovesPhase(s: Sys, step: Step, p: ProjectId)
    requires SysInv(s)
    ensures PhaseKept(s, Do(s, step), p) || PhaseAdvanced(s, Do(s, step), step, p)
  {
    match step
    case Act(k, action) => if k in s.workers { ActMovesPhase(s, k, action, p); }
    case RetryDeletion(q, confirmation, now) =>
      RetryKeepsJobs(s.deletions, q, q in s.host.db.projects, q in s.resources, confirmation, now);
    case TakeDeletion(k, q, now, duration) => ClaimingKeepsPhase(s, k, q, now, duration, p);
    case RequestDeletion(q, confirmation, now) => RequestKeepsPhase(s, q, confirmation, now, p);
    case _ => JobsStand(s, step);
  }

  lemma DoomedHasJob(s: Sys, p: ProjectId)
    requires SysInv(s) && Doomed(s, p)
    ensures p in s.deletions.jobs <==> p in s.host.db.projects
  {
  }

  /** Neither failures, retries, deferrals nor lost leases take a deletion back to an earlier phase. */
  lemma {:induction false} PhaseNeverGoesBack(s: Sys, run: seq<Step>, p: ProjectId)
    requires SysInv(s) && p in s.deletions.jobs
    ensures p in After(s, run).deletions.jobs ==>
              D.Index(s.deletions.jobs[p].phase) <= D.Index(After(s, run).deletions.jobs[p].phase)
    decreases |run|
  {
    if run != [] {
      var before := After(s, run[..|run| - 1]);
      PhaseNeverGoesBack(s, run[..|run| - 1], p);
      RunKeeps(s, run[..|run| - 1]);
      DeletingIsFinal(s, run[..|run| - 1], p);
      DoomedHasJob(before, p);
      StepMovesPhase(before, run[|run| - 1], p);
      StepKeepsDoomed(before, run[|run| - 1], p);
      StepKeeps(before, run[|run| - 1]);
      DoomedHasJob(After(s, run), p);
      StepIsSteady(before, run[|run| - 1]);
    }
  }

  // ---------------------------------------------------------------- the end

  /** The state in which, and the step by which, a project may disappear. */
  predicate Finishes(s: Sys, step: Step, p: ProjectId) {
    && step.Act? && step.k in s.workers && step.action.Finalize?
    && s.workers[step.k].claim.project == p
    && s.workers[step.k].point == Worked
    && D.Live(s.deletions, s.workers[step.k].claim, step.action.now)
    && s.deletions.jobs[p].phase == D.MetadataDelete
    && R.RouteGone(s.host.db, p)
    && Quiesced(s.fleet, s.recs, p)
    && p !in H.RoutesOf(s.host.files.config)
  }

  lemma HostStepDropsNothing(s: Sys, h: H.Step, p: ProjectId)
    requires SysInv(s) && p in s.host.db.projects
    ensures p in Do(s, Host(h)).host.db.projects
  {
    if OpenHostStep(h) { OpenHostKeepsProjects(s.host, h); }
  }

  lemma OnlyFinalizeDrops(s: Sys, k: WorkerId, action: Action, p: ProjectId)
    requires SysInv(s) && k in s.workers && p in s.host.db.projects
    requires p !in WorkerDo(s, k, s.workers[k], action).host.db.projects
    ensures action.Finalize? && s.workers[k].claim.project == p && s.workers[k].point == Worked
    ensures Finalizable(s, p) && D.Live(s.deletions, s.workers[k].claim, action.now)
    ensures s.deletions.jobs[p].phase == D.MetadataDelete
  {
    var q := s.workers[k].claim.project;
    if action.DisableRoute? {
      DisableDeletedKeepsProjects(s.host, q, action.now);
    } else if !action.Finalize? {
      ActTables(s, k, action);
    } else {
      FinalizeCases(s, k, action.now);
      if Finalizable(s, q) { DroppedHost(s.host, q); }
    }
  }

  lemma LastPhaseFacts(s: Sys, p: ProjectId)
    requires SysInv(s) && p in s.deletions.jobs && s.deletions.jobs[p].phase == D.MetadataDelete && p in s.host.db.projects
    ensures Quiesced(s.fleet, s.recs, p) && p !in H.RoutesOf(s.host.files.config)
  {
    assert PhaseFacts(s, p, s.deletions.jobs[p].phase);
    GoneIsNotNamed(s.host, p);
  }

  lemma ActDropsOnlyAtTheEnd(s: Sys, k: WorkerId, action: Action, p: ProjectId)
    requires SysInv(s) && k in s.workers && p in s.host.db.projects
    requires p !in WorkerDo(s, k, s.workers[k], action).host.db.projects
    ensures Finishes(s, Act(k, action), p)
  {
    OnlyFinalizeDrops(s, k, action, p);
    LastPhaseFacts(s, p);
  }

  predicate RowsGone(s: Sys, s': Sys, p: ProjectId) {
    forall d :: d in F.OfProject(s.fleet, p) ==> d !in s'.recs.rows && d !in s'.fleet.jobs
  }

  lemma RowsOfDeploymentsGo(s: Sys, k: WorkerId, now: Time, p: ProjectId)
    requires k in s.workers && s.workers[k].claim.project == p
    requires p in s.host.db.projects && p !in WorkerDo(s, k, s.workers[k], Finalize(now)).host.db.projects
    ensures RowsGone(s, WorkerDo(s, k, s.workers[k], Finalize(now)), p)
  {
    FinalizeCases(s, k, now);
  }

  lemma DroppingStep(s: Sys, step: Step, p: ProjectId)
    requires SysInv(s) && p in s.host.db.projects && p !in Do(s, step).host.db.projects
    ensures Finishes(s, step, p) && RowsGone(s, Do(s, step), p)
  {
    match step
    case Host(h) => HostStepDropsNothing(s, h, p);
    case Act(k, action) => ActDropsOnlyAtTheEnd(s, k, action, p); RowsOfDeploymentsGo(s, k, action.now, p);
    case RequestDeletion(_, _, _) =>
    case _ => HostStands(s, step);
  }

  /**
   A project disappears only when a worker with the live claim finalizes its deletion in
   the last phase, with its route gone, nothing running and the file free of it; after
   that step no table has a row of it.
   */
  lemma ProjectsDisappearOnlyAtTheEnd(maxAttempts: nat, run: seq<Step>, step: Step, p: ProjectId)
    requires var s := After(Init(maxAttempts), run);
             p in s.host.db.projects && p !in Do(s, step).host.db.projects
    ensures var s := After(Init(maxAttempts), run);
            var s' := Do(s, step);
            && Finishes(s, step, p)
            && p !in s'.host.db.routes && p !in s'.host.db.jobs && p !in s'.deletions.jobs && p !in s'.resources
            && F.OfProject(s'.fleet, p) == {}
            && RowsGone(s, s', p)
  {
    var s := After(Init(maxAttempts), run);
    Reachable(maxAttempts, run);
    DroppingStep(s, step, p);
    StepKeeps(s, step);
    NothingIsLeft(Do(s, step), p);
  }
}
