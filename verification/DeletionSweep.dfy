/**
 That nothing of a project is left when it disappears: from what its deletion's workers
 saw of Docker and the directories, piece by piece and at different moments, and from the
 removals of the other phases.
 */
module DeletionSweep {
  import opened Wrappers
  import opened Ids
  import opened DeletionSystem
  import opened DeletionSafety
  import opened DeletionSite
  import C = DeletionCleanup
  import D = DeletionStore
  import F = DeploymentStore
  import R = RouteStore
  import T = DeletionTheorems
  import TD = Teardown

  // ---------------------------------------------------------------- what a worker noted down is true

  /** The rows are still those of the project, unless it is gone. */
  ghost predicate RecordsHold(s: Sys, p: ProjectId, r: Records) {
    && (forall i :: 0 <= i < |r.deployments| ==> OwnTarget(s, p, TD.Workspace(r.deployments[i].id)))
    && (p in s.host.db.projects ==> Listed(s.fleet, p, r.deployments) && r.runtime == RuntimeOf(s, p))
  }

  ghost predicate SightHolds(s: Sys, p: ProjectId, sight: Sight) {
    match sight
    case NoObject(k) => TD.BearsName(k, p) ==> k !in s.site.objects
    case NoLabel(docker) =>
      forall k :: k in s.site.objects && k.docker == docker ==> s.site.objects[k].labels.project != Some(p)
    case NoDirectory(t) => OwnTarget(s, p, t) ==> t !in s.site.directories
    case NoPart(kind) => (p, kind) !in s.present
    case Exactly(r, id) =>
      && (r.docker, id) in s.site.labels
      && s.site.labels[(r.docker, id)].managed && s.site.labels[(r.docker, id)].project == Some(p)
  }

  ghost predicate NotesHold(s: Sys, p: ProjectId, notes: Notes) {
    && (notes.records.Some? ==> RecordsHold(s, p, notes.records.value))
    && (forall sight :: sight in notes.sights ==> SightHolds(s, p, sight))
  }

  ghost predicate WorkSite(s: Sys, work: Work) {
    && (D.Index(work.claim.job.phase) >= 2 ==> Spent(s, work.claim.project))
    && (work.notes != NO_NOTES ==> LooksIn(work.claim.job.phase))
    && NotesHold(s, work.claim.project, work.notes)
    && (work.claim.job.phase == D.RuntimeCleanup && work.point == Worked ==> LookedThrough(work.claim.project, work.notes))
  }

  lemma SightStays(s: Sys, s': Sys, p: ProjectId, sight: Sight)
    requires SightHolds(s, p, sight) && Dwindles(s, s', p)
    ensures SightHolds(s', p, sight)
  {
    match sight
    case NoObject(k) => if k in s'.site.objects && TD.BearsName(k, p) { assert Concerns(k, s'.site.objects[k], p); }
    case NoLabel(docker) =>
      forall k | k in s'.site.objects && k.docker == docker ensures s'.site.objects[k].labels.project != Some(p) {
        if s'.site.objects[k].labels.project == Some(p) { assert Concerns(k, s'.site.objects[k], p); }
      }
    case NoDirectory(_) =>
    case NoPart(_) =>
    case Exactly(_, _) =>
  }

  /** The rows of a deleting project are frozen, so what was read of them stays right. */
  lemma FrozenRowsStayListed(s: Sys, s': Sys, p: ProjectId, rows: seq<TD.Deployment>)
    requires Listed(s.fleet, p, rows) && T.Frozen(s.fleet, s', p) && p in s'.host.db.projects
    ensures Listed(s'.fleet, p, rows)
  {
    forall i | 0 <= i < |rows| ensures rows[i].id in F.OfProject(s'.fleet, p) && rows[i] == RowOf(s'.fleet, rows[i].id) {
      assert rows[i].id in F.OfProject(s.fleet, p);
    }
  }

  lemma SiteStepKeepsRuntime(s: Sys, change: SiteStep, p: ProjectId)
    requires Spent(s, p)
    ensures RuntimeOf(s.(site := SiteDo(s, change)), p) == RuntimeOf(s, p)
  {
  }

  lemma RuntimeStays(s: Sys, step: Step, p: ProjectId)
    requires Spent(s, p) && p in Do(s, step).host.db.projects
    ensures RuntimeOf(Do(s, step), p) == RuntimeOf(s, p)
  {
    if step.Act? {
      if step.k in s.workers { ActKeepsRuntime(s, step.k, step.action, p); }
    } else if step.OnSite? {
      SiteStepKeepsRuntime(s, step.change, p);
    } else {
      RuntimesStand(s, step);
    }
  }

  lemma RuntimesStand(s: Sys, step: Step)
    requires !step.Act? && !step.OnSite?
    ensures Do(s, step).site == s.site
  {
  }

  lemma OtherActsKeepRuntimes(s: Sys, k: WorkerId, action: Action)
    requires k in s.workers && !action.Finalize?
    ensures WorkerDo(s, k, s.workers[k], action).site.runtimes == s.site.runtimes
  {
  }

  lemma ActKeepsRuntime(s: Sys, k: WorkerId, action: Action, p: ProjectId)
    requires k in s.workers && p in WorkerDo(s, k, s.workers[k], action).host.db.projects
    ensures RuntimeOf(WorkerDo(s, k, s.workers[k], action), p) == RuntimeOf(s, p)
  {
    if action.Finalize? {
      T.FinalizeCases(s, k, action.now);
      if Finalizable(s, s.workers[k].claim.project) { DroppedHost(s.host, s.workers[k].claim.project); }
    } else {
      OtherActsKeepRuntimes(s, k, action);
    }
  }

  lemma RecordsStay(s: Sys, step: Step, p: ProjectId, r: Records)
    requires SysInv(s) && Spent(s, p) && RecordsHold(s, p, r)
    ensures RecordsHold(Do(s, step), p, r)
  {
    var s' := Do(s, step);
    StepDwindles(s, step, p);
    if p in s'.host.db.projects {
      T.StepIsSteady(s, step);
      assert IsDeleting(s, p);
      T.StepFreezes(s, step, p);
      FrozenRowsStayListed(s, s', p, r.deployments);
      RuntimeStays(s, step, p);
    }
  }

  lemma NotesStay(s: Sys, step: Step, p: ProjectId, notes: Notes)
    requires SysInv(s) && Spent(s, p) && NotesHold(s, p, notes)
    ensures NotesHold(Do(s, step), p, notes)
  {
    if notes.records.Some? { RecordsStay(s, step, p, notes.records.value); }
    StepDwindles(s, step, p);
    forall sight | sight in notes.sights ensures SightHolds(Do(s, step), p, sight) {
      SightStays(s, Do(s, step), p, sight);
    }
  }

  /** Whatever anybody does, what a worker has in mind of the site stays true. */
  lemma OldWorkHolds(s: Sys, step: Step, work: Work)
    requires SysInv(s) && WorkSite(s, work)
    ensures WorkSite(Do(s, step), work)
  {
    if D.Index(work.claim.job.phase) >= 2 { StepKeepsSpent(s, step, work.claim.project); }
    if work.notes != NO_NOTES { NotesStay(s, step, work.claim.project, work.notes); }
  }

  // ---------------------------------------------------------------- what a worker adds to its notes

  lemma SeenHolds(s: Sys, work: Work, sight: Sight)
    requires RegisterInv(s) && Sees(s, work, sight)
    ensures SightHolds(s, work.claim.project, sight)
  {
  }

  lemma ListedHolds(s: Sys, p: ProjectId, rows: seq<TD.Deployment>)
    requires RegisterInv(s) && Listed(s.fleet, p, rows)
    ensures RecordsHold(s, p, Records(rows, RuntimeOf(s, p)))
  {
    forall i | 0 <= i < |rows| ensures OwnTarget(s, p, TD.Workspace(rows[i].id)) {
      assert rows[i].id in F.OfProject(s.fleet, p);
    }
  }

  lemma NotingHolds(s: Sys, k: WorkerId, action: Action)
    requires RegisterInv(s) && k in s.workers && WorkSite(s, s.workers[k]) && (action.Read? || action.Look?)
    ensures var s' := WorkerDo(s, k, s.workers[k], action); k in s'.workers && WorkSite(s', s'.workers[k])
  {
    var s', work := WorkerDo(s, k, s.workers[k], action), s.workers[k];
    if s' != s {
      match action
      case Read(rows) => ListedHolds(s, work.claim.project, rows);
      case Look(sight) => SeenHolds(s, work, sight);
      SameSiteHolds(s, s', s'.workers[k]);
    }
  }

  lemma SameSiteHolds(s: Sys, s': Sys, work: Work)
    requires WorkSite(s, work) && s' == s.(workers := s'.workers)
    ensures WorkSite(s', work)
  {
    forall sight | sight in work.notes.sights ensures SightHolds(s', work.claim.project, sight) {
      assert SightHolds(s, work.claim.project, sight);
    }
  }

  /** Other actions change the point at most, or begin a phase with empty notes, or end the work. */
  lemma OtherActs(s: Sys, k: WorkerId, action: Action)
    requires k in s.workers && !action.Read? && !action.Look? && k in WorkerDo(s, k, s.workers[k], action).workers
    ensures var work, work' := s.workers[k], WorkerDo(s, k, s.workers[k], action).workers[k];
            if action.AdvancePhase? && work' != work
            then
              && work'.claim.project == work.claim.project && work'.notes == NO_NOTES && work'.point == AtPhase
              && work.claim.project in WorkerDo(s, k, work, action).deletions.jobs
              && WorkerDo(s, k, work, action).deletions.jobs[work.claim.project].phase == work'.claim.job.phase
            else
              && work'.claim == work.claim && work'.notes == work.notes
              && (work'.point == work.point || work'.point != Worked || MayFinish(work))
  {
  }

  lemma AdvancedHolds(s': Sys, work': Work)
    requires work'.notes == NO_NOTES && work'.point == AtPhase && work'.claim.project in s'.host.seen
    requires work'.claim.project in s'.deletions.jobs && s'.deletions.jobs[work'.claim.project].phase == work'.claim.job.phase
    ensures WorkSite(s', work')
  {
  }

  lemma PointHolds(s: Sys, work: Work, work': Work)
    requires WorkSite(s, work) && work'.claim == work.claim && work'.notes == work.notes
    requires work'.point == work.point || work'.point != Worked || MayFinish(work)
    ensures WorkSite(s, work')
  {
  }

  lemma SteppedHolds(s: Sys, step: Step, s': Sys, work: Work)
    requires SysInv(s) && WorkInv(s, work) && WorkSite(s, work) && s' == Do(s, step)
    ensures WorkSite(s', work) && work.claim.project in s'.host.seen
  {
    T.StepIsSteady(s, step);
    OldWorkHolds(s, step, work);
  }

  lemma ActedHolds(s: Sys, k: WorkerId, action: Action)
    requires SysInv(s) && k in s.workers && WorkSite(s, s.workers[k]) && !action.Read? && !action.Look?
    requires k in WorkerDo(s, k, s.workers[k], action).workers
    ensures var s' := WorkerDo(s, k, s.workers[k], action); WorkSite(s', s'.workers[k])
  {
    var s', work := WorkerDo(s, k, s.workers[k], action), s.workers[k];
    assert WorkInv(s, work);
    SteppedHolds(s, Act(k, action), s', work);
    PointedHolds(s, s', k, action);
  }

  lemma PointedHolds(s: Sys, s': Sys, k: WorkerId, action: Action)
    requires k in s.workers && !action.Read? && !action.Look? && s' == WorkerDo(s, k, s.workers[k], action) && k in s'.workers
    requires WorkSite(s', s.workers[k]) && s.workers[k].claim.project in s'.host.seen
    ensures WorkSite(s', s'.workers[k])
  {
    OtherActs(s, k, action);
    if action.AdvancePhase? && s'.workers[k] != s.workers[k] {
      AdvancedHolds(s', s'.workers[k]);
    } else {
      PointHolds(s', s.workers[k], s'.workers[k]);
    }
  }

  lemma TakenHolds(s: Sys, k: WorkerId, p: ProjectId, now: Time, duration: nat)
    requires SysInv(s) && k !in s.workers && k in TakeDo(s, k, p, now, duration).workers
    ensures var s' := TakeDo(s, k, p, now, duration); WorkSite(s', s'.workers[k])
  {
    var s' := TakeDo(s, k, p, now, duration);
    assert p in s.host.db.projects && p in s.host.seen;
    AdvancedHolds(s', s'.workers[k]);
  }

  // ---------------------------------------------------------------- the invariant

  /** No object is the project's by label or stands under a name its rows imply, and no directory is its own. */
  ghost predicate Swept(s: Sys, p: ProjectId) {
    && (forall k :: k in s.site.objects ==> s.site.objects[k].labels.project != Some(p))
    && (forall rows, i :: Listed(s.fleet, p, rows) && 0 <= i < |TD.Expected(p, rows, RuntimeOf(s, p))| ==>
          TD.KeyOf(TD.Expected(p, rows, RuntimeOf(s, p))[i]) !in s.site.objects)
    && (forall t :: t in s.site.directories ==> !OwnTarget(s, p, t))
  }

  lemma SameRowsSameExpected(fleet: F.Db, p: ProjectId, a: seq<TD.Deployment>, b: seq<TD.Deployment>, runtime: Option<TD.Runtime>,
                             r: TD.Resource)
    requires Listed(fleet, p, a) && Listed(fleet, p, b) && r in TD.Expected(p, a, runtime)
    ensures r in TD.Expected(p, b, runtime)
  {
    TD.ExpectedCoversProject(p, a, runtime, r);
    TD.ExpectedCoversProject(p, b, runtime, r);
    if !(runtime.Some? && r == TD.Resource(TD.Container, TD.GatewayLabel, TD.GatewayName(p), None)) {
      var i :| 0 <= i < |a| && TD.OfDeployment(r, p, a[i]);
      assert a[i].id in F.OfProject(fleet, p);
      assert HasRow(b, a[i].id);
      var j :| 0 <= j < |b| && b[j].id == a[i].id;
      assert b[j] == a[i];
    }
  }

  lemma ExpectedNamesAreGone(s: Sys, p: ProjectId, notes: Notes, rows: seq<TD.Deployment>, i: nat)
    requires NotesHold(s, p, notes) && LookedThrough(p, notes) && p in s.host.db.projects
    requires Listed(s.fleet, p, rows) && i < |TD.Expected(p, rows, RuntimeOf(s, p))|
    ensures TD.KeyOf(TD.Expected(p, rows, RuntimeOf(s, p))[i]) !in s.site.objects
  {
    var r, records := TD.Expected(p, rows, RuntimeOf(s, p))[i], notes.records.value;
    assert RecordsHold(s, p, records);
    SameRowsSameExpected(s.fleet, p, rows, records.deployments, records.runtime, r);
    TD.ExpectedBearsName(p, rows, RuntimeOf(s, p), r);
    assert SightHolds(s, p, NoObject(TD.KeyOf(r)));
  }

  lemma OwnDirectoriesAreGone(s: Sys, p: ProjectId, notes: Notes, t: TD.Target)
    requires RegisterInv(s) && NotesHold(s, p, notes) && LookedThrough(p, notes) && p in s.host.db.projects
    requires OwnTarget(s, p, t)
    ensures t !in s.site.directories
  {
    var rows := notes.records.value.deployments;
    var ts := TD.Targets(p, rows);
    assert Listed(s.fleet, p, rows);
    match t
    case GatewayDirectory(_) => assert ts[|rows|] == t; assert SightHolds(s, p, NoDirectory(t));
    case Workspace(d) =>
      assert d in F.OfProject(s.fleet, p);
      assert HasRow(rows, d);
      var i :| 0 <= i < |rows| && rows[i].id == d;
      assert ts[i] == t;
      assert SightHolds(s, p, NoDirectory(t));
  }

  /** A worker that looked through everything knows that nothing is left. */
  lemma LookedIsSwept(s: Sys, p: ProjectId, notes: Notes)
    requires RegisterInv(s) && NotesHold(s, p, notes) && LookedThrough(p, notes) && p in s.host.db.projects
    ensures Swept(s, p)
  {
    forall k | k in s.site.objects ensures s.site.objects[k].labels.project != Some(p) {
      assert NoLabel(k.docker) in notes.sights by { match k.docker case Container => case Network => case Image => }
      assert SightHolds(s, p, NoLabel(k.docker));
    }
    forall rows, i | Listed(s.fleet, p, rows) && 0 <= i < |TD.Expected(p, rows, RuntimeOf(s, p))|
      ensures TD.KeyOf(TD.Expected(p, rows, RuntimeOf(s, p))[i]) !in s.site.objects
    {
      ExpectedNamesAreGone(s, p, notes, rows, i);
    }
    forall t | t in s.site.directories ensures !OwnTarget(s, p, t) {
      if OwnTarget(s, p, t) { OwnDirectoriesAreGone(s, p, notes, t); }
    }
  }

  /** What is swept stays swept while the project is there. */
  lemma SweptStays(s: Sys, step: Step, p: ProjectId)
    requires SysInv(s) && Spent(s, p) && Swept(s, p) && p in Do(s, step).host.db.projects
    ensures Swept(Do(s, step), p)
  {
    var s' := Do(s, step);
    StepDwindles(s, step, p);
    RuntimeStays(s, step, p);
    T.StepIsSteady(s, step);
    assert IsDeleting(s, p);
    T.StepFreezes(s, step, p);
    StillSwept(s, s', p);
  }

  lemma FrozenRowsWereListed(s: Sys, s': Sys, p: ProjectId, rows: seq<TD.Deployment>)
    requires Listed(s'.fleet, p, rows) && T.Frozen(s.fleet, s', p) && p in s'.host.db.projects
    ensures Listed(s.fleet, p, rows)
  {
    forall i | 0 <= i < |rows| ensures rows[i].id in F.OfProject(s.fleet, p) && rows[i] == RowOf(s.fleet, rows[i].id) {
      assert rows[i].id in F.OfProject(s'.fleet, p);
    }
  }

  lemma StillSwept(s: Sys, s': Sys, p: ProjectId)
    requires Swept(s, p) && Dwindles(s, s', p) && RuntimeOf(s', p) == RuntimeOf(s, p)
    requires T.Frozen(s.fleet, s', p) && p in s'.host.db.projects
    ensures Swept(s', p)
  {
    forall k | k in s'.site.objects ensures s'.site.objects[k].labels.project != Some(p) {
      if s'.site.objects[k].labels.project == Some(p) { assert Concerns(k, s'.site.objects[k], p); }
    }
    forall rows, i | Listed(s'.fleet, p, rows) && 0 <= i < |TD.Expected(p, rows, RuntimeOf(s', p))|
      ensures TD.KeyOf(TD.Expected(p, rows, RuntimeOf(s', p))[i]) !in s'.site.objects
    {
      var r := TD.Expected(p, rows, RuntimeOf(s', p))[i];
      FrozenRowsWereListed(s, s', p, rows);
      TD.ExpectedBearsName(p, rows, RuntimeOf(s', p), r);
      if TD.KeyOf(r) in s'.site.objects { assert Concerns(TD.KeyOf(r), s'.site.objects[TD.KeyOf(r)], p); }
    }
  }

  ghost predicate SweepInv(s: Sys) {
    && RegisterInv(s)
    && (forall k :: k in s.workers ==> WorkSite(s, s.workers[k]))
    && (forall p :: p in s.deletions.jobs && D.Index(s.deletions.jobs[p].phase) >= 5 ==> Swept(s, p))
  }

  lemma OnlyOwnWork(s: Sys, j: WorkerId, action: Action, k: WorkerId)
    requires j in s.workers && j != k && k in WorkerDo(s, j, s.workers[j], action).workers
    ensures k in s.workers && WorkerDo(s, j, s.workers[j], action).workers[k] == s.workers[k]
  {
  }

  lemma WorkAfterStep(s: Sys, step: Step, k: WorkerId)
    requires k in Do(s, step).workers
    ensures (k in s.workers && Do(s, step).workers[k] == s.workers[k])
            || (step.Act? && step.k == k && k in s.workers) || (step.TakeDeletion? && step.k == k && k !in s.workers)
  {
    if step.Act? {
      if step.k in s.workers && step.k != k { OnlyOwnWork(s, step.k, step.action, k); }
    } else if !step.TakeDeletion? {
      T.WorkersStand(s, step);
    }
  }

  lemma ActKeepsWorkSite(s: Sys, k: WorkerId, action: Action)
    requires SysInv(s) && RegisterInv(s) && k in s.workers && WorkSite(s, s.workers[k])
    requires k in WorkerDo(s, k, s.workers[k], action).workers
    ensures var s' := WorkerDo(s, k, s.workers[k], action); WorkSite(s', s'.workers[k])
  {
    if action.Read? || action.Look? { NotingHolds(s, k, action); } else { ActedHolds(s, k, action); }
  }

  lemma StepKeepsWorkSite(s: Sys, step: Step, k: WorkerId)
    requires SysInv(s) && SweepInv(s) && k in Do(s, step).workers
    ensures WorkSite(Do(s, step), Do(s, step).workers[k])
  {
    WorkAfterStep(s, step, k);
    if k in s.workers && Do(s, step).workers[k] == s.workers[k] {
      OldWorkHolds(s, step, s.workers[k]);
    } else if step.TakeDeletion? {
      TakenHolds(s, k, step.p, step.now, step.duration);
    } else {
      ActKeepsWorkSite(s, k, step.action);
    }
  }

  lemma AdvanceWasReady(s: Sys, k: WorkerId, now: Time, p: ProjectId)
    requires k in s.workers && p in s.deletions.jobs
    requires WorkerDo(s, k, s.workers[k], AdvancePhase(now)).deletions != s.deletions
    ensures ReadyToAdvance(s.workers[k])
  {
  }

  lemma LiveWorkIsUpToDate(s: Sys, work: Work, now: Time)
    requires WorkInv(s, work) && D.Live(s.deletions, work.claim, now)
    ensures s.deletions.jobs[work.claim.project].phase == work.claim.job.phase
  {
  }

  /** The phase after the teardown begins with everything swept. */
  lemma AdvancedIsSwept(s: Sys, step: Step, p: ProjectId)
    requires SysInv(s) && SweepInv(s) && T.PhaseAdvanced(s, Do(s, step), step, p) && p in s.deletions.jobs
    requires D.Index(s.deletions.jobs[p].phase) == 4
    ensures Swept(s, p)
  {
    AdvanceWasReady(s, step.k, step.action.now, p);
    ReadyIsSwept(s, s.workers[step.k], step.action.now);
  }

  lemma ReadyIsSwept(s: Sys, work: Work, now: Time)
    requires SysInv(s) && RegisterInv(s) && WorkInv(s, work) && WorkSite(s, work) && ReadyToAdvance(work)
    requires D.Live(s.deletions, work.claim, now) && s.deletions.jobs[work.claim.project].phase == D.RuntimeCleanup
    ensures Swept(s, work.claim.project)
  {
    LiveWorkIsUpToDate(s, work, now);
    JobHasProject(s, work.claim.project);
    LookedIsSwept(s, work.claim.project, work.notes);
  }

  lemma JobHasProject(s: Sys, p: ProjectId)
    requires SysInv(s) && p in s.deletions.jobs
    ensures p in s.host.db.projects
  {
  }

  lemma StepKeepsSwept(s: Sys, step: Step, p: ProjectId)
    requires SysInv(s) && SweepInv(s) && p in Do(s, step).deletions.jobs && D.Index(Do(s, step).deletions.jobs[p].phase) >= 5
    ensures Swept(Do(s, step), p)
  {
    var s' := Do(s, step);
    StepKeeps(s, step);
    T.StepMovesPhase(s, step, p);
    NewJobsAreEarly(s, step, p);
    if D.Index(s.deletions.jobs[p].phase) < 5 { AdvancedIsSwept(s, step, p); }
    SweptStays(s, step, p);
  }

  lemma JobsAreOld(s: Sys, step: Step, p: ProjectId)
    requires SysInv(s) && p in Do(s, step).deletions.jobs && p !in s.deletions.jobs
    ensures D.Index(Do(s, step).deletions.jobs[p].phase) == 0
  {
    match step
    case RequestDeletion(_, _, _) =>
    case RetryDeletion(q, confirmation, now) =>
      RetryKeepsJobs(s.deletions, q, q in s.host.db.projects, q in s.resources, confirmation, now);
    case TakeDeletion(k, q, now, duration) =>
      if D.Claimable(s.deletions, q, now) { ClaimKeepsJobs(s.deletions, q, k, now, duration); }
    case Act(k, action) => if k in s.workers { ActAddsNoJobs(s, k, action, p); }
    case _ => T.JobsStand(s, step);
  }

  lemma ActAddsNoJobs(s: Sys, k: WorkerId, action: Action, p: ProjectId)
    requires k in s.workers && p in WorkerDo(s, k, s.workers[k], action).deletions.jobs
    ensures p in s.deletions.jobs
  {
  }

  lemma NewJobsAreEarly(s: Sys, step: Step, p: ProjectId)
    requires SysInv(s) && p in Do(s, step).deletions.jobs && D.Index(Do(s, step).deletions.jobs[p].phase) >= 5
    ensures p in s.deletions.jobs && (D.Index(s.deletions.jobs[p].phase) >= 4 ==> Spent(s, p))
  {
    if p !in s.deletions.jobs { JobsAreOld(s, step, p); }
    assert PhaseFacts(s, p, s.deletions.jobs[p].phase);
  }

  lemma StepKeepsSweep(s: Sys, step: Step)
    requires SysInv(s) && SweepInv(s)
    ensures SweepInv(Do(s, step))
  {
    var s' := Do(s, step);
    StepKeepsRegister(s, step);
    forall k | k in s'.workers ensures WorkSite(s', s'.workers[k]) { StepKeepsWorkSite(s, step, k); }
    forall p | p in s'.deletions.jobs && D.Index(s'.deletions.jobs[p].phase) >= 5 ensures Swept(s', p) {
      StepKeepsSwept(s, step, p);
    }
  }

  lemma {:induction false} SweepReachable(maxAttempts: nat, run: seq<Step>)
    ensures SweepInv(After(Init(maxAttempts), run))
    decreases |run|
  {
    if run != [] {
      Reachable(maxAttempts, run[..|run| - 1]);
      SweepReachable(maxAttempts, run[..|run| - 1]);
      StepKeepsSweep(After(Init(maxAttempts), run[..|run| - 1]), run[|run| - 1]);
    }
  }

  lemma SystemIsSafe(maxAttempts: nat, run: seq<Step>)
    ensures SysInv(After(Init(maxAttempts), run))
  {
    Reachable(maxAttempts, run);
  }

  // ---------------------------------------------------------------- what it means

  /** In every reachable state a deletion job's phase tells what is no longer there. */
  lemma PhaseLeavesNothing(maxAttempts: nat, run: seq<Step>, p: ProjectId, kind: Kind)
    requires p in After(Init(maxAttempts), run).deletions.jobs
    ensures var s := After(Init(maxAttempts), run);
            var i := D.Index(s.deletions.jobs[p].phase);
            && (i >= 5 ==> Swept(s, p))
            && (PartKind(kind) && C.CleanFrom(kind) <= i ==> (p, kind) !in s.present)
  {
    SweepReachable(maxAttempts, run);
    if PartKind(kind) { C.PhaseLeavesNoPart(maxAttempts, run, p, kind); }
  }

  /** Two workers that read the rows of one project, at whatever moments, expect the same of it. */
  lemma RecordsAgree(maxAttempts: nat, run: seq<Step>, j: WorkerId, k: WorkerId, r: TD.Resource)
    requires var s := After(Init(maxAttempts), run);
             && j in s.workers && k in s.workers && s.workers[j].claim.project == s.workers[k].claim.project
             && s.workers[j].claim.project in s.host.db.projects
             && s.workers[j].notes.records.Some? && s.workers[k].notes.records.Some?
    ensures var s := After(Init(maxAttempts), run);
            var p, a, b := s.workers[j].claim.project, s.workers[j].notes.records.value, s.workers[k].notes.records.value;
            r in TD.Expected(p, a.deployments, a.runtime) <==> r in TD.Expected(p, b.deployments, b.runtime)
  {
    var s := After(Init(maxAttempts), run);
    SweepReachable(maxAttempts, run);
    assert WorkSite(s, s.workers[j]) && WorkSite(s, s.workers[k]);
    var p, a, b := s.workers[j].claim.project, s.workers[j].notes.records.value, s.workers[k].notes.records.value;
    if r in TD.Expected(p, a.deployments, a.runtime) { SameRowsSameExpected(s.fleet, p, a.deployments, b.deployments, a.runtime, r); }
    if r in TD.Expected(p, b.deployments, b.runtime) { SameRowsSameExpected(s.fleet, p, b.deployments, a.deployments, b.runtime, r); }
  }

  /** An object goes because somebody else took it, or by the removal of a worker cleared to delete the project its labels name. */
  lemma ObjectsGoOnlyByTheirDeletion(maxAttempts: nat, run: seq<Step>, step: Step, key: TD.Key)
    requires var s := After(Init(maxAttempts), run);
             key in s.site.objects && key !in Do(s, step).site.objects
    ensures var s := After(Init(maxAttempts), run);
            || (step.OnSite? && step.change.Vanish? && key in step.change.keys)
            || (&& step.Act? && step.k in s.workers && step.action.Remove?
                && step.action.kind == Docker(key.docker, s.site.objects[key].id) && s.workers[step.k].point == Cleared
                && var p := s.workers[step.k].claim.project;
                   TD.Owned(s.site.objects[key], p) && R.RouteGone(s.host.db, p) && Quiesced(s.fleet, s.recs, p))
  {
    var s := After(Init(maxAttempts), run);
    if step.Act? && step.k in s.workers {
      ActTakesOwn(maxAttempts, run, step, key);
    } else if !step.OnSite? {
      RuntimesStand(s, step);
    }
  }

  lemma RemovalTakes(s: Sys, k: WorkerId, kind: Kind, ok: bool, gone: bool, key: TD.Key)
    requires k in s.workers && key in s.site.objects && key !in RemoveDo(s, k, s.workers[k], kind, ok, gone).site.objects
    ensures kind == Docker(key.docker, s.site.objects[key].id)
  {
  }

  lemma OnlyRemovalsTake(s: Sys, k: WorkerId, action: Action, key: TD.Key)
    requires k in s.workers && key in s.site.objects && key !in WorkerDo(s, k, s.workers[k], action).site.objects
    ensures action.Remove? && action.kind == Docker(key.docker, s.site.objects[key].id) && MayTake(s.workers[k], action.kind)
  {
    if action.Remove? {
      RemoveCases(s, k, action.kind, action.ok, action.gone);
      RemovalTakes(s, k, action.kind, action.ok, action.gone, key);
    } else {
      ActSite(s, k, action);
    }
  }

  /** What a worker may take by its id carries the labels of the project it deletes. */
  lemma TakenIsOwned(s: Sys, work: Work, key: TD.Key)
    requires RegisterInv(s) && WorkSite(s, work) && key in s.site.objects
    requires MayTake(work, Docker(key.docker, s.site.objects[key].id))
    ensures TD.Owned(s.site.objects[key], work.claim.project)
  {
    var sight :| sight in work.notes.sights && sight.Exactly? && sight.resource.docker == key.docker
                 && sight.id == s.site.objects[key].id;
    assert SightHolds(s, work.claim.project, sight);
  }

  lemma ActTakesOwn(maxAttempts: nat, run: seq<Step>, step: Step, key: TD.Key)
    requires var s := After(Init(maxAttempts), run);
             step.Act? && step.k in s.workers && key in s.site.objects && key !in Do(s, step).site.objects
    ensures var s := After(Init(maxAttempts), run);
            && step.action.Remove? && step.action.kind == Docker(key.docker, s.site.objects[key].id)
            && s.workers[step.k].point == Cleared
            && var p := s.workers[step.k].claim.project;
               TD.Owned(s.site.objects[key], p) && R.RouteGone(s.host.db, p) && Quiesced(s.fleet, s.recs, p)
  {
    var s := After(Init(maxAttempts), run);
    SweepReachable(maxAttempts, run);
    OnlyRemovalsTake(s, step.k, step.action, key);
    TakenIsOwned(s, s.workers[step.k], key);
    T.ClearedWorkerIsSafe(maxAttempts, run, step.k, step.action.kind, step.action.ok, step.action.gone);
  }

  /**
   Nothing of the project is there: no object with its label, none under a name that its
   rows implied, none of its directories, no session, database or role, and no secret.
   */
  ghost predicate NothingLeft(s: Sys, p: ProjectId, rows: seq<TD.Deployment>, runtime: Option<TD.Runtime>) {
    && (forall k :: k in s.site.objects ==> s.site.objects[k].labels.project != Some(p))
    && (forall i :: 0 <= i < |TD.Expected(p, rows, runtime)| ==> TD.KeyOf(TD.Expected(p, rows, runtime)[i]) !in s.site.objects)
    && (forall t :: t in s.site.directories ==> !OwnTarget(s, p, t))
    && C.NoParts(s.present, p)
  }

  lemma NothingComesBack(s: Sys, run: seq<Step>, p: ProjectId, rows: seq<TD.Deployment>, runtime: Option<TD.Runtime>)
    requires SysInv(s) && Spent(s, p) && NothingLeft(s, p, rows, runtime)
    ensures NothingLeft(After(s, run), p, rows, runtime)
  {
    var s' := After(s, run);
    RunDwindles(s, run, p);
    forall k | k in s'.site.objects ensures s'.site.objects[k].labels.project != Some(p) {
      if s'.site.objects[k].labels.project == Some(p) { assert Concerns(k, s'.site.objects[k], p); }
    }
    forall i | 0 <= i < |TD.Expected(p, rows, runtime)| ensures TD.KeyOf(TD.Expected(p, rows, runtime)[i]) !in s'.site.objects {
      var k := TD.KeyOf(TD.Expected(p, rows, runtime)[i]);
      TD.ExpectedBearsName(p, rows, runtime, TD.Expected(p, rows, runtime)[i]);
      if k in s'.site.objects { assert Concerns(k, s'.site.objects[k], p); }
    }
  }

  lemma NothingComesBackLater(s: Sys, step: Step, more: seq<Step>, p: ProjectId, rows: seq<TD.Deployment>,
                              runtime: Option<TD.Runtime>)
    requires SysInv(s) && Spent(s, p) && NothingLeft(s, p, rows, runtime)
    ensures NothingLeft(After(Do(s, step), more), p, rows, runtime)
  {
    StepKeeps(s, step);
    StepKeepsSpent(s, step, p);
    NothingComesBack(s, [step], p, rows, runtime);
    assert [step][..0] == [] && After(s, [step]) == Do(s, step);
    NothingComesBack(Do(s, step), more, p, rows, runtime);
  }

  lemma EndingIsSwept(s: Sys, step: Step, p: ProjectId)
    requires SysInv(s) && SweepInv(s) && p in s.host.db.projects && p !in Do(s, step).host.db.projects
    ensures Spent(s, p) && Swept(s, p)
  {
    T.DroppingStep(s, step, p);
    LastPhaseIsSwept(s, p);
  }

  lemma LastPhaseIsSwept(s: Sys, p: ProjectId)
    requires SysInv(s) && SweepInv(s) && p in s.deletions.jobs && s.deletions.jobs[p].phase == D.MetadataDelete
    ensures Spent(s, p) && Swept(s, p)
  {
    JobHasProject(s, p);
  }

  /**
   When a project disappears nothing of it is left, whichever workers saw and removed which
   part of it and however many removals failed; and nothing of it ever comes back.
   */
  lemma NothingIsLeftBehind(maxAttempts: nat, run: seq<Step>, step: Step, more: seq<Step>, p: ProjectId, rows: seq<TD.Deployment>)
    requires var s := After(Init(maxAttempts), run);
             p in s.host.db.projects && p !in Do(s, step).host.db.projects && Listed(s.fleet, p, rows)
    ensures var s := After(Init(maxAttempts), run);
            && NothingLeft(s, p, rows, RuntimeOf(s, p))
            && NothingLeft(After(Do(s, step), more), p, rows, RuntimeOf(s, p))
  {
    var s := After(Init(maxAttempts), run);
    Reachable(maxAttempts, run);
    SweepReachable(maxAttempts, run);
    EndingIsSwept(s, step, p);
    C.NoPartIsLeft(maxAttempts, run, step, [], p);
    NothingComesBackLater(s, step, more, p, rows, RuntimeOf(s, p));
  }
}
