/**
 What deletion workers find out about Docker and the directories, and why it stays true:
 nothing that concerns a spent project appears any more, and the rows a teardown goes by
 are fixed. So looks at different moments, by different workers, add up.
 */
module DeletionSite {
  import opened Wrappers
  import opened Ids
  import opened DeletionSystem
  import opened DeletionSafety
  import D = DeletionStore
  import H = RoutingHost
  import T = DeletionTheorems

  // ---------------------------------------------------------------- a spent project stays spent

  lemma StepKeepsSpent(s: Sys, step: Step, p: ProjectId)
    requires SysInv(s) && Spent(s, p)
    ensures Spent(Do(s, step), p)
  {
    var s' := Do(s, step);
    T.StepIsSteady(s, step);
    StepKeeps(s, step);
    if p in s'.host.db.projects {
      assert PhaseFacts(s, p, s.deletions.jobs[p].phase);
      assert QuiescedForGood(s', p);
      T.StepMovesPhase(s, step, p);
    }
  }

  /** Nothing that concerns the project is there that was not there before, and what an id stands for stays. */
  ghost predicate Dwindles(s: Sys, s': Sys, p: ProjectId) {
    && (forall k :: k in s'.site.objects && Concerns(k, s'.site.objects[k], p) ==>
          k in s.site.objects && s.site.objects[k] == s'.site.objects[k])
    && (forall t :: t in s'.site.directories && OwnTarget(s', p, t) ==> t in s.site.directories)
    && (forall t :: OwnTarget(s', p, t) <==> OwnTarget(s, p, t))
    && (forall kind :: (p, kind) in s'.present ==> (p, kind) in s.present)
    && (forall e :: e in s.site.labels ==> e in s'.site.labels && s'.site.labels[e] == s.site.labels[e])
  }

  lemma DwindlesOn(a: Sys, b: Sys, c: Sys, p: ProjectId)
    requires Dwindles(a, b, p) && Dwindles(b, c, p)
    ensures Dwindles(a, c, p)
  {
    forall k | k in c.site.objects && Concerns(k, c.site.objects[k], p)
      ensures k in a.site.objects && a.site.objects[k] == c.site.objects[k]
    {
      assert k in b.site.objects && b.site.objects[k] == c.site.objects[k];
    }
    forall t | t in c.site.directories && OwnTarget(c, p, t) ensures t in a.site.directories {
      assert OwnTarget(b, p, t) && t in b.site.directories;
    }
  }

  lemma SameSiteDwindles(s: Sys, s': Sys, p: ProjectId)
    requires s'.site.objects == s.site.objects && s'.site.directories == s.site.directories && s'.site.labels == s.site.labels
    requires s'.present <= s.present && s'.used == s.used
    ensures Dwindles(s, s', p)
  {
  }

  lemma SiteStepDwindles(s: Sys, change: SiteStep, p: ProjectId)
    requires Spent(s, p)
    ensures Dwindles(s, Do(s, OnSite(change)), p)
  {
  }

  /** A spent project gets no deployments any more. */
  lemma NotCreatedForSpent(s: Sys, f: FleetStep, p: ProjectId)
    requires SysInv(s) && Spent(s, p) && Creates(s, f)
    ensures f.p != p
  {
    assert ProjectStatusOf(s, f.p) != None && ProjectStatusOf(s, f.p) != Some(Deleting);
  }

  lemma CreatedDwindles(s: Sys, s': Sys, f: FleetStep, p: ProjectId)
    requires f.Create? && f.p != p && f.d !in s.used && s' == s.(fleet := s'.fleet, used := s.used[f.d := f.p])
    ensures Dwindles(s, s', p)
  {
  }

  lemma FleetStepDwindles(s: Sys, f: FleetStep, p: ProjectId)
    requires SysInv(s) && Spent(s, p)
    ensures Dwindles(s, Do(s, Fleet(f)), p)
  {
    var s' := s.(fleet := FleetDo(s, f), used := UsedAfter(s, f));
    if Creates(s, f) {
      NotCreatedForSpent(s, f, p);
      CreatedDwindles(s, s', f, p);
    } else {
      SameSiteDwindles(s, s', p);
    }
  }

  lemma WithoutDwindles(s: Sys, s': Sys, kind: Kind, p: ProjectId)
    requires s' == s.(site := Without(s.site, kind), present := s'.present, removals := s'.removals, workers := s'.workers)
    requires s'.present <= s.present
    ensures Dwindles(s, s', p)
  {
  }

  lemma RemoveDwindles(s: Sys, k: WorkerId, kind: Kind, ok: bool, gone: bool, p: ProjectId)
    requires k in s.workers
    ensures Dwindles(s, RemoveDo(s, k, s.workers[k], kind, ok, gone), p)
  {
    var s' := RemoveDo(s, k, s.workers[k], kind, ok, gone);
    if ok || gone { WithoutDwindles(s, s', kind, p); } else { SameSiteDwindles(s, s', p); }
  }

  predicate SameSite(s: Sys, s': Sys) {
    && s'.site.objects == s.site.objects && s'.site.directories == s.site.directories && s'.site.labels == s.site.labels
    && s'.present == s.present && s'.used == s.used
  }

  lemma TableActSite(s: Sys, k: WorkerId, action: Action)
    requires k in s.workers
    requires action.Finalize? || action.AdvancePhase? || action.Authorize? || action.DisableRoute?
    ensures SameSite(s, WorkerDo(s, k, s.workers[k], action))
  {
  }

  lemma ReleaseSite(s: Sys, k: WorkerId, action: Action)
    requires k in s.workers && (action.Beat? || action.Defer? || action.Reschedule? || action.Fail? || action.Stop?)
    ensures SameSite(s, WorkerDo(s, k, s.workers[k], action))
  {
  }

  lemma LookSite(s: Sys, k: WorkerId, action: Action)
    requires k in s.workers
    requires action.CheckDrained? || action.CheckApplied? || action.Read? || action.Look? || action.FinishWork?
    ensures SameSite(s, WorkerDo(s, k, s.workers[k], action))
  {
  }

  /** Only removals touch the site, and only the end of a project its gateway row. */
  lemma ActSite(s: Sys, k: WorkerId, action: Action)
    requires k in s.workers && !action.Remove?
    ensures SameSite(s, WorkerDo(s, k, s.workers[k], action))
  {
    if action.Finalize? || action.AdvancePhase? || action.Authorize? || action.DisableRoute? {
      TableActSite(s, k, action);
    } else if action.Beat? || action.Defer? || action.Reschedule? || action.Fail? || action.Stop? {
      ReleaseSite(s, k, action);
    } else {
      LookSite(s, k, action);
    }
  }

  lemma ActDwindles(s: Sys, k: WorkerId, action: Action, p: ProjectId)
    requires k in s.workers
    ensures Dwindles(s, WorkerDo(s, k, s.workers[k], action), p)
  {
    var s' := WorkerDo(s, k, s.workers[k], action);
    if action.Remove? {
      RemoveCases(s, k, action.kind, action.ok, action.gone);
      if s' == s { SameSiteDwindles(s, s', p); } else { RemoveDwindles(s, k, action.kind, action.ok, action.gone, p); }
    } else {
      ActSite(s, k, action);
      SameSiteDwindles(s, s', p);
    }
  }

  lemma SiteStands(s: Sys, step: Step)
    requires !step.OnSite? && !step.Appear? && !step.Fleet? && !step.Act?
    ensures var s' := Do(s, step); s'.site == s.site && s'.present == s.present && s'.used == s.used
  {
  }

  lemma StepDwindles(s: Sys, step: Step, p: ProjectId)
    requires SysInv(s) && Spent(s, p)
    ensures Dwindles(s, Do(s, step), p)
  {
    match step
    case OnSite(change) => SiteStepDwindles(s, change, p);
    case Appear(_, _) =>
    case Fleet(f) => FleetStepDwindles(s, f, p);
    case Act(k, action) => if k in s.workers { ActDwindles(s, k, action, p); }
    case _ => SiteStands(s, step); SameSiteDwindles(s, Do(s, step), p);
  }

  lemma {:induction false} RunDwindles(s: Sys, run: seq<Step>, p: ProjectId)
    requires SysInv(s) && Spent(s, p)
    ensures Dwindles(s, After(s, run), p) && Spent(After(s, run), p)
    decreases |run|
  {
    if run != [] {
      var before := After(s, run[..|run| - 1]);
      RunDwindles(s, run[..|run| - 1], p);
      RunKeeps(s, run[..|run| - 1]);
      StepDwindles(before, run[|run| - 1], p);
      StepKeepsSpent(before, run[|run| - 1], p);
      DwindlesOn(s, before, After(s, run), p);
    }
  }

  // ---------------------------------------------------------------- the labels of ids and the projects of deployments

  /** What stands for an object is what its id always stood for; deployments belong to projects that are or were there. */
  predicate RegisterInv(s: Sys) {
    && (forall k :: k in s.site.objects ==>
          && (k.docker, s.site.objects[k].id) in s.site.labels
          && s.site.labels[(k.docker, s.site.objects[k].id)] == s.site.objects[k].labels)
    && (forall d :: d in s.fleet.deployments ==> d in s.used && s.used[d] == s.fleet.deployments[d].project)
    && (forall d :: d in s.used ==>
          s.used[d] in s.host.seen && (s.used[d] in s.host.db.projects ==> d in s.fleet.deployments))
  }

  lemma SiteStepKeepsRegister(s: Sys, change: SiteStep)
    requires RegisterInv(s)
    ensures RegisterInv(Do(s, OnSite(change)))
  {
  }

  /** Deployments come by being created and go with their project. */
  predicate RegisterMoves(s: Sys, s': Sys) {
    && s'.used == s.used && s'.site.labels == s.site.labels
    && (forall k :: k in s'.site.objects ==> k in s.site.objects && s'.site.objects[k] == s.site.objects[k])
    && (forall d :: d in s'.fleet.deployments ==>
          d in s.fleet.deployments && s'.fleet.deployments[d].project == s.fleet.deployments[d].project)
    && s.host.seen <= s'.host.seen
    && (forall p :: p in s.host.seen && p in s'.host.db.projects ==> p in s.host.db.projects)
    && (forall d :: d in s.fleet.deployments && d !in s'.fleet.deployments ==> s.fleet.deployments[d].project !in s'.host.db.projects)
  }

  lemma RegisterMovesKeep(s: Sys, s': Sys)
    requires RegisterInv(s) && RegisterMoves(s, s')
    ensures RegisterInv(s')
  {
    forall d | d in s'.used && s'.used[d] in s'.host.db.projects ensures d in s'.fleet.deployments {
      assert d in s.used && s.used[d] in s.host.seen;
      assert s.used[d] in s.host.db.projects;
    }
  }

  lemma FleetStepKeepsRegister(s: Sys, f: FleetStep)
    requires FleetInv(s) && s.host.db.projects.Keys <= s.host.seen && RegisterInv(s)
    ensures RegisterInv(s.(fleet := FleetDo(s, f), used := UsedAfter(s, f)))
  {
    var s' := s.(fleet := FleetDo(s, f), used := UsedAfter(s, f));
    FleetStepMoves(s, f);
    forall d | d in s'.fleet.deployments && d !in s.fleet.deployments
      ensures d in s'.used && s'.used[d] == s'.fleet.deployments[d].project
    {
      CreatedIsUsed(s, f, d);
    }
    CreationIs(s, f);
    FleetMovesKeepRegister(s, s', f);
  }

  lemma FleetMovesKeepRegister(s: Sys, s': Sys, f: FleetStep)
    requires RegisterInv(s) && FleetMoves(s, s'.fleet) && s' == s.(fleet := s'.fleet, used := UsedAfter(s, f))
    requires s.host.db.projects.Keys <= s.host.seen
    requires Creates(s, f) ==> f.p in s.host.db.projects && f.d in s'.fleet.deployments
    requires forall d :: d in s'.fleet.deployments && d !in s.fleet.deployments ==>
               d in s'.used && s'.used[d] == s'.fleet.deployments[d].project
    ensures RegisterInv(s')
  {
  }

  lemma CreatedIsUsed(s: Sys, f: FleetStep, d: DeploymentId)
    requires FleetInv(s) && d in FleetDo(s, f).deployments && d !in s.fleet.deployments
    ensures Creates(s, f) && f.d == d && FleetDo(s, f).deployments[d].project == f.p
  {
  }

  lemma CreationIs(s: Sys, f: FleetStep)
    ensures Creates(s, f) ==> f.p in s.host.db.projects && f.d in FleetDo(s, f).deployments
  {
    if Creates(s, f) { assert ProjectStatusOf(s, f.p) != None; }
  }

  lemma RemovalKeepsRegister(s: Sys, k: WorkerId, kind: Kind, ok: bool, gone: bool)
    requires RegisterInv(s) && k in s.workers
    ensures RegisterInv(RemoveDo(s, k, s.workers[k], kind, ok, gone))
  {
    RegisterMovesKeep(s, RemoveDo(s, k, s.workers[k], kind, ok, gone));
  }

  lemma FinalizeKeepsRegister(s: Sys, k: WorkerId, p: ProjectId)
    requires RegisterInv(s) && Finalizable(s, p)
    ensures RegisterInv(Rest(FinalizeDo(s, p), k))
  {
    DroppedHost(s.host, p);
    RegisterMovesKeep(s, Rest(FinalizeDo(s, p), k));
  }

  lemma ActKeepsRegister(s: Sys, k: WorkerId, action: Action)
    requires SysInv(s) && RegisterInv(s) && k in s.workers
    ensures RegisterInv(WorkerDo(s, k, s.workers[k], action))
  {
    var s' := WorkerDo(s, k, s.workers[k], action);
    if action.Remove? {
      RemoveCases(s, k, action.kind, action.ok, action.gone);
      if s' != s { RemovalKeepsRegister(s, k, action.kind, action.ok, action.gone); }
    } else if action.Finalize? {
      T.FinalizeCases(s, k, action.now);
      if s' == s || s' == Rest(s, k) { RegisterMovesKeep(s, s'); } else { FinalizeKeepsRegister(s, k, s.workers[k].claim.project); }
    } else {
      ActSite(s, k, action);
      if action.DisableRoute? {
        DisableDeletedKeepsProjects(s.host, s.workers[k].claim.project, action.now);
      } else {
        T.ActTables(s, k, action);
      }
      OtherActKeepsFleet(s, k, action);
      RegisterMovesKeep(s, s');
    }
  }

  lemma OtherActKeepsFleet(s: Sys, k: WorkerId, action: Action)
    requires k in s.workers && !action.Finalize?
    ensures WorkerDo(s, k, s.workers[k], action).fleet == s.fleet
  {
  }

  lemma HostStepKeepsRegister(s: Sys, h: H.Step)
    requires SysInv(s) && RegisterInv(s)
    ensures RegisterInv(Do(s, Host(h)))
  {
    if OpenHostStep(h) { OpenHostKeepsProjects(s.host, h); }
    RegisterMovesKeep(s, Do(s, Host(h)));
  }

  lemma RequestKeepsRegister(s: Sys, p: ProjectId, confirmation: D.Confirmation, now: Time)
    requires RegisterInv(s)
    ensures RegisterInv(RequestDo(s, p, confirmation, now))
  {
    RegisterMovesKeep(s, RequestDo(s, p, confirmation, now));
  }

  lemma StepKeepsRegister(s: Sys, step: Step)
    requires SysInv(s) && RegisterInv(s)
    ensures RegisterInv(Do(s, step))
  {
    match step
    case OnSite(change) => SiteStepKeepsRegister(s, change);
    case Fleet(f) => FleetStepKeepsRegister(s, f);
    case Act(k, action) => if k in s.workers { ActKeepsRegister(s, k, action); }
    case Host(h) => HostStepKeepsRegister(s, h);
    case RequestDeletion(p, confirmation, now) => RequestKeepsRegister(s, p, confirmation, now);
    case _ => T.HostStands(s, step); T.FleetStands(s, step); OtherStepKeepsSite(s, step); RegisterMovesKeep(s, Do(s, step));
  }

  lemma OtherStepKeepsSite(s: Sys, step: Step)
    requires !step.OnSite? && !step.Fleet? && !step.Act?
    ensures var s' := Do(s, step); s'.site == s.site && s'.used == s.used
  {
  }
}
