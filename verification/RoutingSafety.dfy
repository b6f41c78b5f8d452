/**
 What every run of the routing host keeps. The tables have their own invariant; the edge
 side (files, worker, memory of the pass in progress) is stated against a View of the
 tables, so that a step that leaves the tables alone is checked without looking at them.
 */
module RoutingSafety {
  import opened Wrappers
  import opened Ids
  import opened RouteStore
  import opened RoutingHost
  import EdgeHostname

  /** What the edge side depends on: the applied rows and the routes that are not removed. */
  datatype View = View(rows: map<ProjectId, AppliedRow>, hosts: map<ProjectId, Hostname>, unremoved: set<ProjectId>)

  function ViewOf(db: Db): View {
    View(Applied(db), AppliedHosts(db), Unremoved(db))
  }

  // ---------------------------------------------------------------- the invariant

  predicate HostsValid(m: map<ProjectId, Hostname>) {
    forall p :: p in m ==> EdgeHostname.Valid(m[p])
  }

  /** What the file shows between two passes: what is applied, or the plan a failed restore left behind. */
  function Shown(hosts: map<ProjectId, Hostname>, stale: Option<Claim>): map<ProjectId, Hostname> {
    if stale.Some? then Planned(hosts, Serve(stale.value)) else hosts
  }

  predicate Settled(w: World, v: View, c: Option<Config>) {
    RoutesOf(c) == Shown(v.hosts, w.stale)
  }

  predicate Recorded(w: World, c: Claim) {
    && c.route.revision == c.revision
    && (c.project, c.revision) in w.history
    && w.history[(c.project, c.revision)] == (c.route.hostname, c.route.desired)
    && (c.route.appliedHostname.Some? ==> EdgeHostname.Valid(c.route.appliedHostname.value))
  }

  predicate ModeInv(w: World, mode: Mode) {
    mode.Serve? ==> Recorded(w, mode.claim)
  }

  predicate PlanInv(v: View, work: Work) {
    && work.rendered.Generated?
    && work.rendered.routes == work.targets == Planned(v.hosts, work.mode)
    && work.snapshot == v.rows
    && Bounded(work.rendered)
    && HostsValid(work.targets)
    && work.targets.Keys <= v.unremoved
  }

  /** The journal holds both sides of the pass, and the hostname its claim saw applied. */
  predicate JournalOf(f: Files, work: Work, phase: JournalPhase) {
    && f.journal.Some?
    && f.journal.value.previous == work.previous
    && f.journal.value.candidate == work.rendered
    && f.journal.value.phase == phase
    && f.journal.value.previousHostname == if work.mode.Serve? then work.mode.claim.route.appliedHostname else None
  }

  /** A journal marked as committed is about the applied routes, which the file shows. */
  predicate CommittedInv(f: Files, v: View) {
    f.journal.Some? && f.journal.value.phase == JournalCommitted ==>
      f.config == Some(f.journal.value.candidate) && RoutesOf(f.config) == v.hosts
  }

  predicate SwitchedInv(w: World, v: View, work: Work) {
    && w.files.config == Some(work.rendered)
    && JournalOf(w.files, work, JournalPrepared)
    && RoutesOf(Some(work.previous)).Keys <= v.unremoved
    && (work.mode.Serve? ==> Settled(w, v, Some(work.previous)))
  }

  predicate StageInv(w: World, v: View, stage: Stage, work: Work) {
    && ModeInv(w, work.mode)
    && (stage != Finalized && stage != Marked ==> PlanInv(v, work))
    && match stage
       case Entered | Validated | Fenced | Tested => work.mode.Serve? ==> Settled(w, v, w.files.config)
       case Read => w.files.config == Some(work.previous) && (work.mode.Serve? ==> Settled(w, v, w.files.config))
       case Journaled =>
         && w.files.config == Some(work.previous)
         && JournalOf(w.files, work, JournalPrepared)
         && (work.mode.Serve? ==> Settled(w, v, w.files.config))
       case Switched | Probed | Authorized => SwitchedInv(w, v, work)
       case Finalized | Marked =>
         && w.files.config == Some(work.rendered)
         && JournalOf(w.files, work, if stage == Marked then JournalCommitted else JournalPrepared)
         && RoutesOf(w.files.config) == v.hosts
         && (work.mode.Serve? ==> w.stale == None)
  }

  predicate WorkerInv(w: World, v: View) {
    match w.worker
    case Down => true
    case Booted => true
    case Idle(repair) => repair || Settled(w, v, w.files.config)
    case Holding(c) =>
      && Recorded(w, c)
      && Settled(w, v, w.files.config)
      && (c.route.desired == Enabled ==> c.project in v.unremoved)
    case InApply(stage, work) => StageInv(w, v, stage, work)
    case InRestore(written, work, failure) =>
      && ModeInv(w, work.mode)
      && !failure.FinalizeUncertain?
      && (if written
          then w.files.config == Some(work.previous) && (work.mode.Serve? ==> Settled(w, v, w.files.config))
          else PlanInv(v, work) && SwitchedInv(w, v, work))
    case Reporting(_, _, repair) => repair || Settled(w, v, w.files.config)
  }

  /** The edge side: readable files, no removed project in the file, and a consistent worker. */
  predicate EdgeInv(w: World, v: View) {
    && JournalAccepted(w.files)
    && CommittedInv(w.files, v)
    && (w.files.config.Some? ==> Bounded(w.files.config.value))
    && RoutesOf(w.files.config).Keys <= v.unremoved
    && WorkerInv(w, v)
  }

  /** Every revision ever current has its hostname and desired state on record. */
  predicate HistoryInv(w: World) {
    && w.db.projects.Keys <= w.seen
    && (forall p :: p in w.db.routes ==>
          && (p, w.db.routes[p].revision) in w.history
          && w.history[(p, w.db.routes[p].revision)] == (w.db.routes[p].hostname, w.db.routes[p].desired))
    && (forall k :: k in w.history ==>
          && k.0 in w.seen
          && (k.0 in w.db.projects ==> k.0 in w.db.routes && k.1 <= w.db.routes[k.0].revision))
  }

  predicate TablesInv(w: World) {
    RouteStore.Inv(w.db) && HistoryInv(w) && HostsValid(AppliedHosts(w.db))
  }

  predicate WorldInv(w: World) {
    TablesInv(w) && EdgeInv(w, ViewOf(w.db))
  }

  // ---------------------------------------------------------------- transactions other than Complete

  predicate HistoryGrows(w: World, w': World) {
    forall k :: k in w.history ==> k in w'.history && w'.history[k] == w.history[k]
  }

  /** The edge side does not notice a transaction that keeps the applied rows and removes no route. */
  lemma EdgeUnaffected(w: World, w': World, v: View, v': View)
    requires EdgeInv(w, v) && v'.rows == v.rows && v'.hosts == v.hosts && v.unremoved <= v'.unremoved
    requires w'.files == w.files && w'.worker == w.worker && w'.stale == w.stale && HistoryGrows(w, w')
    ensures EdgeInv(w', v')
  {
  }

  lemma QuietKeeps(w: World, w': World)
    requires WorldInv(w) && Quiet(w.db, w'.db) && RouteStore.Inv(w'.db) && HistoryInv(w')
    requires w'.files == w.files && w'.worker == w.worker && w'.stale == w.stale && HistoryGrows(w, w')
    ensures WorldInv(w')
  {
    EdgeUnaffected(w, w', ViewOf(w.db), ViewOf(w'.db));
  }

  /** Who works on the requests may differ, but not what they ask for. */
  predicate SameRequests(db: Db, db': Db) {
    && db'.projects == db.projects
    && db'.routes.Keys == db.routes.Keys
    && forall p :: p in db.routes ==>
         && db'.routes[p].revision == db.routes[p].revision
         && db'.routes[p].hostname == db.routes[p].hostname
         && db'.routes[p].desired == db.routes[p].desired
  }

  lemma SameRequestsKeepHistory(w: World, db': Db)
    requires HistoryInv(w) && SameRequests(w.db, db')
    ensures HistoryInv(w.(db := db'))
  {
  }

  lemma SameRequestsKeep(w: World, db': Db)
    requires WorldInv(w) && Quiet(w.db, db') && RouteStore.Inv(db') && SameRequests(w.db, db')
    ensures WorldInv(w.(db := db'))
  {
    SameRequestsKeepHistory(w, db');
    QuietKeeps(w, w.(db := db'));
  }

  lemma RememberKeepsHistory(w: World, db': Db, p: ProjectId)
    requires HistoryInv(w) && RevisionsAdvance(w.db, db') && db'.routes.Keys <= db'.projects.Keys
    requires TouchesOnly(w.db, db', p)
    ensures HistoryInv(Remember(w, db', p))
    ensures HistoryGrows(w, Remember(w, db', p))
  {
    var w' := Remember(w, db', p);
    var key := (p, db'.routes[p].revision);
    assert key in w.history ==> w.history[key] == (db'.routes[p].hostname, db'.routes[p].desired);
    assert forall k :: k in w'.history ==> k == key || k in w.history;
  }

  lemma RememberKeeps(w: World, db': Db, p: ProjectId)
    requires WorldInv(w) && RouteStore.Inv(db') && Quiet(w.db, db')
    requires TouchesOnly(w.db, db', p)
    ensures WorldInv(Remember(w, db', p))
  {
    RememberKeepsHistory(w, db', p);
    QuietKeeps(w, Remember(w, db', p));
  }

  lemma EnableRouteKeeps(w: World, p: ProjectId, h: Hostname, now: Time)
    requires WorldInv(w)
    ensures WorldInv(ApiDo(w, EnableRoute(p, h, now)))
  {
    var r := SetEnabled(w.db, p, h, now);
    if r.Success? {
      SetEnabledKeeps(w.db, p, h, now);
      SetEnabledTouches(w.db, p, h, now);
      RememberKeeps(w, r.value, p);
    }
  }

  lemma DisableRowWorldKeeps(w: World, p: ProjectId, now: Time)
    requires WorldInv(w) && p in w.db.routes
    ensures WorldInv(Remember(w, DisableRow(w.db, p, now), p))
  {
    DisableRowKeeps(w.db, p, now);
    DisableRowTouches(w.db, p, now);
    RememberKeeps(w, DisableRow(w.db, p, now), p);
  }

  lemma WakeKeeps(w: World, p: ProjectId, now: Time)
    requires WorldInv(w)
    ensures WorldInv(ApiDo(w, Wake(p, now)))
  {
    WakePendingKeeps(w.db, p, now);
    SameRequestsKeep(w, WakePending(w.db, p, now));
  }

  lemma ProjectRowKeeps(w: World, p: ProjectId, status: ProjectStatus)
    requires WorldInv(w) && (p in w.db.projects || p !in w.seen)
    ensures WorldInv(w.(db := w.db.(projects := w.db.projects[p := status]), seen := w.seen + {p}))
  {
    var w' := w.(db := w.db.(projects := w.db.projects[p := status]), seen := w.seen + {p});
    ProjectRowIsQuiet(w.db, p, status);
    QuietKeeps(w, w');
  }

  lemma ProjectRowIsQuiet(db: Db, p: ProjectId, status: ProjectStatus)
    requires RouteStore.Inv(db)
    ensures var db' := db.(projects := db.projects[p := status]); RouteStore.Inv(db') && Quiet(db, db')
  {
    assert Unremoved(db.(projects := db.projects[p := status])) == Unremoved(db);
  }

  lemma DropProjectKeeps(w: World, p: ProjectId)
    requires WorldInv(w)
    ensures WorldInv(ApiDo(w, DropProject(p)))
  {
    var w' := ApiDo(w, DropProject(p));
    if w' != w {
      RemoveProjectKeeps(w.db, p);
      RemoveProjectIsQuiet(w.db, p);
      QuietKeeps(w, w');
    }
  }

  lemma ApiKeeps(w: World, s: Step)
    requires WorldInv(w) && ApiStep(s)
    ensures WorldInv(ApiDo(w, s))
  {
    match s
    case CreateProject(p) => if p !in w.seen { ProjectRowKeeps(w, p, Ready); }
    case EnableRoute(p, h, now) => EnableRouteKeeps(w, p, h, now);
    case DisableRoute(p, now) => if Disable(w.db, p, now).Success? { DisableRowWorldKeeps(w, p, now); }
    case MarkDeleting(p) =>
      if p in w.db.projects {
        ProjectRowKeeps(w, p, Deleting);
        assert w.seen + {p} == w.seen;
      }
    case DisableDeleted(p, now) =>
      if DisableForDeletion(w.db, p, now).Success? && p in w.db.routes { DisableRowWorldKeeps(w, p, now); }
    case Wake(p, now) => WakeKeeps(w, p, now);
    case DropProject(p) => DropProjectKeeps(w, p);
  }

  // ---------------------------------------------------------------- steps of the routing process

  /** A step that leaves the tables alone only has to keep the edge side. */
  lemma LocalStepKeeps(w: World, w': World)
    requires WorldInv(w) && EdgeInv(w', ViewOf(w.db))
    requires w'.db == w.db && w'.history == w.history && w'.seen == w.seen
    ensures WorldInv(w')
  {
  }

  lemma ExitKeeps(w: World, v: View, mode: Mode, f: Failure)
    requires EdgeInv(w, v) && (mode.Serve? && !f.FinalizeUncertain? ==> Settled(w, v, w.files.config))
    ensures EdgeInv(w.(worker := Exit(mode, f)), v)
  {
  }

  lemma ThrownKeeps(w: World, v: View, stage: Stage, work: Work, f: Failure)
    requires EdgeInv(w, v) && w.worker == InApply(stage, work) && !f.FinalizeUncertain?
    ensures EdgeInv(Thrown(w, stage, work, f), v)
  {
    if !SwitchedOpen(stage) {
      ExitKeeps(w, v, work.mode, f);
    }
  }

  predicate FileStep(s: Step) {
    s.Validate? || s.ReadCurrent? || s.WriteJournal? || s.Switch? || s.Probe? || s.MarkCommitted? || s.ClearJournal?
  }

  lemma FileStepKeeps(w: World, v: View, stage: Stage, work: Work, s: Step)
    requires EdgeInv(w, v) && w.worker == InApply(stage, work) && FileStep(s)
    ensures EdgeInv(ApplyDo(w, stage, work, s), v)
  {
    if s.Validate? && stage == Entered && !JournalAccepted(w.files) {
      ThrownKeeps(w, v, stage, work, EdgeFailure(false, true));
    }
  }

  lemma RestoreStepKeeps(w: World, v: View, written: bool, work: Work, failure: Failure, s: Step)
    requires EdgeInv(w, v) && w.worker == InRestore(written, work, failure) && !s.Heartbeat?
    ensures EdgeInv(RestoreDo(w, written, work, failure, s), v)
  {
  }

  lemma BeatKeeps(w: World, mode: Mode, now: Time, duration: nat)
    requires WorldInv(w) && BeatDo(w, mode, now, duration).Success?
    ensures WorldInv(BeatDo(w, mode, now, duration).value)
    ensures Applied(BeatDo(w, mode, now, duration).value.db) == Applied(w.db)
    ensures BeatDo(w, mode, now, duration).value == w.(db := BeatDo(w, mode, now, duration).value.db)
  {
    if mode.Serve? {
      RenewKeeps(w.db, mode.claim, now, duration);
      SameRequestsKeep(w, Renew(w.db, mode.claim, now, duration).value);
    }
  }

  lemma StageMoves(w: World, v: View, stage: Stage, stage': Stage, work: Work)
    requires EdgeInv(w, v) && w.worker == InApply(stage, work)
    requires (stage, stage') in {(Validated, Fenced), (Fenced, Tested), (Probed, Authorized)}
    ensures EdgeInv(w.(worker := InApply(stage', work)), v)
  {
  }

  lemma FenceKeeps(w: World, stage: Stage, work: Work, now: Time, duration: nat)
    requires WorldInv(w) && w.worker == InApply(stage, work)
    ensures WorldInv(ApplyDo(w, stage, work, Fence(now, duration)))
  {
    if stage in {Validated, Fenced, Probed} {
      var r := FenceDo(w, work, now, duration);
      if r.Failure? {
        ThrownKeeps(w, ViewOf(w.db), stage, work, r.error);
        LocalStepKeeps(w, Thrown(w, stage, work, r.error));
      } else {
        BeatKeeps(w, work.mode, now, duration);
        var w' := ApplyDo(w, stage, work, Fence(now, duration));
        StageMoves(r.value, ViewOf(r.value.db), stage, w'.worker.stage, work);
        LocalStepKeeps(r.value, w');
      }
    }
  }

  lemma HeartbeatKeeps(w: World, mode: Mode, now: Time, duration: nat, gone: World)
    requires WorldInv(w) && EdgeInv(gone, ViewOf(w.db))
    requires gone.db == w.db && gone.history == w.history && gone.seen == w.seen
    ensures var r := BeatDo(w, mode, now, duration); WorldInv(if r.Success? then r.value else gone)
  {
    if BeatDo(w, mode, now, duration).Success? {
      BeatKeeps(w, mode, now, duration);
    } else {
      LocalStepKeeps(w, gone);
    }
  }

  // ---------------------------------------------------------------- finalize

  /** What Complete commits is the request the worker claimed, planned and probed. */
  lemma CommitMatchesClaim(w: World, c: Claim, now: Time)
    requires HistoryInv(w) && Recorded(w, c) && Complete(w.db, c, now).Success?
    ensures w.db.routes[c.project].hostname == c.route.hostname && w.db.routes[c.project].desired == c.route.desired
  {
  }

  /** A committed Complete leaves exactly the planned routes applied. */
  lemma CommitAppliesPlan(w: World, c: Claim, now: Time)
    requires RouteStore.Inv(w.db) && HistoryInv(w) && Recorded(w, c) && Complete(w.db, c, now).Success?
    ensures AppliedHosts(Complete(w.db, c, now).value) == Planned(AppliedHosts(w.db), Serve(c))
    ensures Unremoved(w.db) - {c.project} <= Unremoved(Complete(w.db, c, now).value)
    ensures c.route.desired == Enabled ==> c.project in Unremoved(Complete(w.db, c, now).value)
  {
    var db' := Complete(w.db, c, now).value;
    CommitMatchesClaim(w, c, now);
    CompleteChangesItsRow(w.db, c, now);
    AppliedHostsAfterPut(w.db, db', c.project);
  }

  lemma CommitSameRequests(db: Db, c: Claim, now: Time)
    requires Complete(db, c, now).Success?
    ensures SameRequests(db, Complete(db, c, now).value)
  {
  }

  lemma CommitKeepsTables(w: World, c: Claim, now: Time)
    requires TablesInv(w) && Recorded(w, c) && Complete(w.db, c, now).Success?
    requires HostsValid(Planned(AppliedHosts(w.db), Serve(c)))
    ensures TablesInv(w.(db := Complete(w.db, c, now).value))
  {
    CompleteKeeps(w.db, c, now);
    CommitAppliesPlan(w, c, now);
    CommitSameRequests(w.db, c, now);
    SameRequestsKeepHistory(w, Complete(w.db, c, now).value);
  }

  lemma PlannedNamesStay(hosts: map<ProjectId, Hostname>, c: Claim, before: set<ProjectId>, after: set<ProjectId>)
    requires Planned(hosts, Serve(c)).Keys <= before && before - {c.project} <= after
    requires c.route.desired == Enabled ==> c.project in after
    ensures Planned(hosts, Serve(c)).Keys <= after
  {
  }

  /** After a committed Complete the switched file shows exactly the new applied routes. */
  lemma FinalizeCommits(w: World, work: Work, now: Time)
    requires TablesInv(w) && ModeInv(w, work.mode) && PlanInv(ViewOf(w.db), work)
    requires w.files.config == Some(work.rendered)
    requires work.mode.Serve? && Complete(w.db, work.mode.claim, now).Success?
    ensures var db' := Complete(w.db, work.mode.claim, now).value;
            && RoutesOf(w.files.config) == AppliedHosts(db')
            && RoutesOf(w.files.config).Keys <= Unremoved(db')
  {
    var c := work.mode.claim;
    CommitAppliesPlan(w, c, now);
    PlannedNamesStay(AppliedHosts(w.db), c, Unremoved(w.db), Unremoved(Complete(w.db, c, now).value));
  }

  lemma FinalizedEdge(w: World, v: View, v': View, work: Work, f: Failure)
    requires EdgeInv(w, v) && w.worker == InApply(Authorized, work) && f.FinalizeUncertain?
    requires v'.hosts == RoutesOf(w.files.config) && v'.hosts.Keys <= v'.unremoved
    ensures EdgeInv(w.(worker := InApply(Finalized, work), stale := None), v')
    ensures !work.mode.Serve? ==> EdgeInv(w.(worker := InApply(Finalized, work)), v')
    ensures work.mode.Serve? ==> EdgeInv(w.(worker := Exit(work.mode, f)), v')
  {
  }

  lemma FinalizeKeeps(w: World, work: Work, now: Time, answer: FinalizeAnswer)
    requires WorldInv(w) && w.worker == InApply(Authorized, work)
    ensures WorldInv(FinalizeDo(w, work, now, answer))
  {
    var w' := FinalizeDo(w, work, now, answer);
    if !work.mode.Serve? {
      FinalizedEdge(w, ViewOf(w.db), ViewOf(w.db), work, FinalizeUncertain);
      LocalStepKeeps(w, w');
    } else if Complete(w.db, work.mode.claim, now).Success? && (answer.Answered? || answer.committed) {
      FinalizeCommits(w, work, now);
      CommitKeepsTables(w, work.mode.claim, now);
      FinalizedEdge(w, ViewOf(w.db), ViewOf(w'.db), work, FinalizeUncertain);
      FinalizeCommitKeeps(w, work, now, answer);
    } else if answer.Answered? {
      ThrownKeeps(w, ViewOf(w.db), Authorized, work, FinalizeRejected);
      LocalStepKeeps(w, w');
    } else {
      ExitKeeps(w, ViewOf(w.db), work.mode, FinalizeUncertain);
      LocalStepKeeps(w, w');
    }
  }

  lemma FinalizeCommitKeeps(w: World, work: Work, now: Time, answer: FinalizeAnswer)
    requires work.mode.Serve? && Complete(w.db, work.mode.claim, now).Success? && (answer.Answered? || answer.committed)
    requires var db' := Complete(w.db, work.mode.claim, now).value;
             && TablesInv(w.(db := db'))
             && EdgeInv(w.(worker := InApply(Finalized, work), stale := None), ViewOf(db'))
             && EdgeInv(w.(worker := Exit(work.mode, FinalizeUncertain)), ViewOf(db'))
    ensures WorldInv(FinalizeDo(w, work, now, answer))
  {
    var db' := Complete(w.db, work.mode.claim, now).value;
    var w' := FinalizeDo(w, work, now, answer);
    var base := if answer.Answered? then w.(worker := InApply(Finalized, work), stale := None)
                else w.(worker := Exit(work.mode, FinalizeUncertain));
    EdgeUnaffected(base, w', ViewOf(db'), ViewOf(w'.db));
  }

  // ---------------------------------------------------------------- claim, plan, reconcile, report

  lemma AppliedIsUnremoved(db: Db)
    requires RouteStore.Inv(db)
    ensures AppliedHosts(db).Keys <= Unremoved(db)
  {
  }

  lemma ClaimSameRequests(db: Db, p: ProjectId, owner: WorkerId, now: Time, duration: nat)
    requires Claimable(db, p, now)
    ensures SameRequests(db, ClaimJob(db, p, owner, now, duration).0)
    ensures p in Unremoved(ClaimJob(db, p, owner, now, duration).0)
  {
  }

  lemma ClaimIsRecorded(w: World, p: ProjectId, owner: WorkerId, now: Time, duration: nat)
    requires HistoryInv(w) && HostsValid(AppliedHosts(w.db)) && Claimable(w.db, p, now)
    ensures Recorded(w, ClaimJob(w.db, p, owner, now, duration).1)
  {
    if w.db.routes[p].appliedHostname.Some? {
      assert p in AppliedHosts(w.db);
    }
  }

  lemma HoldStarts(w: World, v: View, c: Claim)
    requires EdgeInv(w, v) && w.worker == Idle(false) && Recorded(w, c) && c.project in v.unremoved
    ensures EdgeInv(w.(worker := Holding(c)), v)
  {
  }

  lemma TakeJobKeeps(w: World, p: ProjectId, owner: WorkerId, now: Time, duration: nat)
    requires WorldInv(w) && w.worker == Idle(false) && Claimable(w.db, p, now)
    ensures var r := ClaimJob(w.db, p, owner, now, duration); WorldInv(w.(db := r.0, worker := Holding(r.1)))
  {
    var (db', c) := ClaimJob(w.db, p, owner, now, duration);
    ClaimJobKeeps(w.db, p, owner, now, duration);
    ClaimSameRequests(w.db, p, owner, now, duration);
    ClaimIsRecorded(w, p, owner, now, duration);
    SameRequestsKeep(w, db');
    HoldStarts(w.(db := db'), ViewOf(db'), c);
    LocalStepKeeps(w.(db := db'), w.(db := db', worker := Holding(c)));
  }

  lemma EnterApply(w: World, v: View, mode: Mode, targets: map<ProjectId, Hostname>, size: nat)
    requires EdgeInv(w, v) && ModeInv(w, mode) && (mode.Serve? ==> Settled(w, v, w.files.config))
    requires targets == Planned(v.hosts, mode) && Renderable(targets, size) && targets.Keys <= v.unremoved
    ensures EdgeInv(w.(worker := InApply(Entered, Work(mode, targets, v.rows, Generated(targets, size), NoRoutes))), v)
  {
  }

  lemma ReconcileKeeps(w: World, mode: Mode, size: nat)
    requires WorldInv(w) && !mode.Serve?
    ensures WorldInv(ReconcileDo(w, mode, size))
  {
    var targets := AppliedHosts(w.db);
    if Renderable(targets, size) {
      AppliedIsUnremoved(w.db);
      EnterApply(w, ViewOf(w.db), mode, targets, size);
    } else {
      ExitKeeps(w, ViewOf(w.db), mode, EdgeFailure(false, false));
    }
    LocalStepKeeps(w, ReconcileDo(w, mode, size));
  }

  lemma PlanNames(hosts: map<ProjectId, Hostname>, c: Claim, unremoved: set<ProjectId>)
    requires hosts.Keys <= unremoved && (c.route.desired == Enabled ==> c.project in unremoved)
    ensures Planned(hosts, Serve(c)).Keys <= unremoved
  {
  }

  lemma PlanKeeps(w: World, c: Claim, size: nat)
    requires WorldInv(w) && w.worker == Holding(c)
    ensures WorldInv(HoldDo(w, c, Plan(size)))
  {
    var targets := Planned(AppliedHosts(w.db), Serve(c));
    if Renderable(targets, size) {
      AppliedIsUnremoved(w.db);
      PlanNames(AppliedHosts(w.db), c, Unremoved(w.db));
      EnterApply(w, ViewOf(w.db), Serve(c), targets, size);
    } else {
      ExitKeeps(w, ViewOf(w.db), Serve(c), EdgeFailure(false, false));
    }
    LocalStepKeeps(w, HoldDo(w, c, Plan(size)));
  }

  lemma PlanFailsKeeps(w: World, v: View, c: Claim, f: Failure, notReady: bool)
    requires EdgeInv(w, v) && w.worker == Holding(c)
    ensures EdgeInv(HoldDo(w, c, PlanFails(f, notReady)), v)
  {
  }

  lemma RescheduleWorldKeeps(w: World, c: Claim, now: Time, availableAt: Time, code: string)
    requires WorldInv(w) && Reschedule(w.db, c, now, availableAt, code).Success?
    ensures WorldInv(w.(db := Reschedule(w.db, c, now, availableAt, code).value))
  {
    var db' := Reschedule(w.db, c, now, availableAt, code).value;
    RescheduleKeeps(w.db, c, now, availableAt, code);
    assert SameRequests(w.db, db');
    SameRequestsKeep(w, db');
  }

  lemma FailWorldKeeps(w: World, c: Claim, now: Time, code: string, uncertain: bool)
    requires WorldInv(w) && Fail(w.db, c, now, code, uncertain).Success?
    ensures WorldInv(w.(db := Fail(w.db, c, now, code, uncertain).value))
  {
    var db' := Fail(w.db, c, now, code, uncertain).value;
    FailKeeps(w.db, c, now, code, uncertain);
    assert SameRequests(w.db, db');
    SameRequestsKeep(w, db');
  }

  lemma ReportedDbKeeps(w: World, c: Claim, report: Report, now: Time, availableAt: Time, code: string)
    requires WorldInv(w)
    ensures WorldInv(w.(db := ReportedDb(w.db, c, report, now, availableAt, code)))
  {
    if report.ReportRetry? {
      if Reschedule(w.db, c, now, availableAt, code).Success? { RescheduleWorldKeeps(w, c, now, availableAt, code); }
    } else {
      if Fail(w.db, c, now, code, report.uncertain).Success? { FailWorldKeeps(w, c, now, code, report.uncertain); }
    }
  }

  lemma DeliverKeeps(w: World, c: Claim, cause: Cause, repair: bool, now: Time, availableAt: Time, code: string)
    requires WorldInv(w) && w.worker == Reporting(c, cause, repair)
    ensures WorldInv(ReportDo(w, c, cause, repair, Deliver(now, availableAt, code)))
  {
    var report := ReportFor(cause, c.attempts, w.maxAttempts);
    ReportedDbKeeps(w, c, report, now, availableAt, code);
    ReportedKeeps(w.(db := ReportedDb(w.db, c, report, now, availableAt, code)), c, cause, repair);
  }

  lemma ReportedKeeps(w: World, c: Claim, cause: Cause, repair: bool)
    requires WorldInv(w) && w.worker == Reporting(c, cause, repair)
    ensures WorldInv(w.(worker := Idle(repair)))
  {
    assert EdgeInv(w.(worker := Idle(repair)), ViewOf(w.db));
    LocalStepKeeps(w, w.(worker := Idle(repair)));
  }

  // ---------------------------------------------------------------- every step, every run

  lemma ApplyThrownKeeps(w: World, stage: Stage, work: Work, f: Failure)
    requires WorldInv(w) && w.worker == InApply(stage, work) && !f.FinalizeUncertain?
    ensures WorldInv(Thrown(w, stage, work, f))
  {
    ThrownKeeps(w, ViewOf(w.db), stage, work, f);
    LocalStepKeeps(w, Thrown(w, stage, work, f));
  }

  lemma ApplyBeatKeeps(w: World, stage: Stage, work: Work, now: Time, duration: nat)
    requires WorldInv(w) && w.worker == InApply(stage, work)
    ensures WorldInv(ApplyDo(w, stage, work, Heartbeat(now, duration)))
  {
    if BeatDo(w, work.mode, now, duration).Success? {
      BeatKeeps(w, work.mode, now, duration);
    } else {
      ApplyThrownKeeps(w, stage, work, ClaimGone);
    }
  }

  lemma FileStepIsLocal(w: World, stage: Stage, work: Work, s: Step)
    requires FileStep(s)
    ensures var w' := ApplyDo(w, stage, work, s); w'.db == w.db && w'.history == w.history && w'.seen == w.seen
  {
  }

  lemma ApplyKeeps(w: World, stage: Stage, work: Work, s: Step)
    requires WorldInv(w) && w.worker == InApply(stage, work)
    ensures WorldInv(ApplyDo(w, stage, work, s))
  {
    if s.Heartbeat? {
      ApplyBeatKeeps(w, stage, work, s.now, s.duration);
    } else if s.Fence? {
      FenceKeeps(w, stage, work, s.now, s.duration);
    } else if s.Throw? {
      if s.failure.EdgeFailure? || s.failure.Unexpected? { ApplyThrownKeeps(w, stage, work, s.failure); }
    } else if FileStep(s) {
      FileStepKeeps(w, ViewOf(w.db), stage, work, s);
      FileStepIsLocal(w, stage, work, s);
      LocalStepKeeps(w, ApplyDo(w, stage, work, s));
    } else if s.Finalize? {
      if stage == Authorized { FinalizeKeeps(w, work, s.now, s.answer); }
    }
  }

  lemma RestoreKeeps(w: World, written: bool, work: Work, failure: Failure, s: Step)
    requires WorldInv(w) && w.worker == InRestore(written, work, failure)
    ensures WorldInv(RestoreDo(w, written, work, failure, s))
  {
    if !s.Heartbeat? {
      RestoreStepKeeps(w, ViewOf(w.db), written, work, failure, s);
      LocalStepKeeps(w, RestoreDo(w, written, work, failure, s));
    } else if written {
      ExitKeeps(w, ViewOf(w.db), work.mode, ClaimGone);
      HeartbeatKeeps(w, work.mode, s.now, s.duration, w.(worker := Exit(work.mode, ClaimGone)));
    }
  }

  lemma HoldKeeps(w: World, c: Claim, s: Step)
    requires WorldInv(w) && w.worker == Holding(c)
    ensures WorldInv(HoldDo(w, c, s))
  {
    if s.Heartbeat? {
      ExitKeeps(w, ViewOf(w.db), Serve(c), ClaimGone);
      HeartbeatKeeps(w, Serve(c), s.now, s.duration, w.(worker := Exit(Serve(c), ClaimGone)));
    } else if s.Plan? {
      PlanKeeps(w, c, s.size);
    } else if s.PlanFails? {
      PlanFailsKeeps(w, ViewOf(w.db), c, s.failure, s.notReady);
      LocalStepKeeps(w, HoldDo(w, c, s));
    }
  }

  lemma CrashKeeps(w: World, worker: Worker)
    requires WorldInv(w) && (worker == Down || worker == Booted)
    ensures WorldInv(w.(worker := worker))
  {
    assert EdgeInv(w.(worker := worker), ViewOf(w.db));
  }

  lemma WorkerKeeps(w: World, s: Step)
    requires WorldInv(w)
    ensures WorldInv(WorkerDo(w, s))
  {
    match w.worker
    case Down => CrashKeeps(w, Booted);
    case Booted => if s.BeginReconcile? { ReconcileKeeps(w, Startup, s.size); }
    case Idle(repair) =>
      if repair {
        if s.BeginReconcile? { ReconcileKeeps(w, Repair, s.size); }
      } else if s.TakeJob? && Claimable(w.db, s.p, s.now) {
        TakeJobKeeps(w, s.p, s.owner, s.now, s.duration);
      }
    case Holding(c) => HoldKeeps(w, c, s);
    case InApply(stage, work) => ApplyKeeps(w, stage, work, s);
    case InRestore(written, work, failure) => RestoreKeeps(w, written, work, failure, s);
    case Reporting(c, cause, repair) =>
      if s.Deliver? { DeliverKeeps(w, c, cause, repair, s.now, s.availableAt, s.code); }
      else { CrashKeeps(w, Down); }
  }

  lemma StepKeeps(w: World, s: Step)
    requires WorldInv(w)
    ensures WorldInv(Do(w, s))
  {
    if ApiStep(s) {
      ApiKeeps(w, s);
    } else if s.Crash? {
      CrashKeeps(w, Down);
    } else {
      WorkerKeeps(w, s);
    }
  }

  /** The invariant holds at every point of every run, crashes included. */
  lemma {:induction false} RunKeeps(w: World, run: seq<Step>)
    requires WorldInv(w)
    ensures WorldInv(After(w, run))
    decreases |run|
  {
    if run != [] {
      RunKeeps(w, run[..|run| - 1]);
      StepKeeps(After(w, run[..|run| - 1]), run[|run| - 1]);
    }
  }

  lemma Reachable(maxAttempts: nat, run: seq<Step>)
    ensures WorldInv(After(Init(maxAttempts), run))
  {
    assert WorldInv(Init(maxAttempts));
    RunKeeps(Init(maxAttempts), run);
  }
}
