/** What the invariant of the routing host means for its users, over every run. */
module RoutingTheorems {
  import opened Wrappers
  import opened Ids
  import opened RouteStore
  import opened RoutingHost
  import opened RoutingSafety

  // ---------------------------------------------------------------- the file

  /** The row says that the project is served under the hostname. */
  predicate IsApplied(db: Db, p: ProjectId, h: Hostname) {
    p in db.routes && db.routes[p].appliedHostname == Some(h)
  }

  /**
   Whenever the worker is between two jobs and owes no reconciliation, public-routes.conf
   shows exactly the applied routes, however the last attempt ended.
   */
  lemma FileShowsApplied(maxAttempts: nat, run: seq<Step>)
    ensures var w := After(Init(maxAttempts), run);
            w.worker == Idle(false) && w.stale == None ==>
              && RoutesOf(w.files.config) == AppliedHosts(w.db)
              && forall p, h :: IsApplied(w.db, p, h) <==> p in RoutesOf(w.files.config) && RoutesOf(w.files.config)[p] == h
  {
    Reachable(maxAttempts, run);
  }

  /** The process may die at every point of every run, and the journal it leaves on disk is one that recovery accepts. */
  lemma RecoveryAccepts(maxAttempts: nat, run: seq<Step>)
    ensures var w := After(Init(maxAttempts), run);
            && JournalAccepted(w.files) && Do(w, Crash) == w.(worker := Down)
            && Do(Do(w, Crash), Boot) == w.(worker := Booted)
  {
    Reachable(maxAttempts, run);
  }

  /**
   A pass that wrote its journal has it say what the file held, what it is to hold and which
   hostname was applied before; as committed only once everything is. And whenever a journal
   says so, crashes or not, the file holds its candidate, which are the applied routes.
   */
  lemma JournalTells(maxAttempts: nat, run: seq<Step>)
    ensures var w := After(Init(maxAttempts), run);
            w.worker.InApply? && w.worker.stage in {Journaled, Switched, Probed, Authorized, Finalized, Marked} ==>
              var work := w.worker.work;
              && w.files.journal.Some?
              && w.files.journal.value.previous == work.previous && w.files.journal.value.candidate == work.rendered
              && (w.files.journal.value.phase == JournalCommitted <==> w.worker.stage == Marked)
              && w.files.journal.value.previousHostname == (if work.mode.Serve? then work.mode.claim.route.appliedHostname else None)
    ensures var w := After(Init(maxAttempts), run);
            w.files.journal.Some? && w.files.journal.value.phase == JournalCommitted ==>
              w.files.config == Some(w.files.journal.value.candidate) && RoutesOf(w.files.config) == AppliedHosts(w.db)
  {
    Reachable(maxAttempts, run);
  }

  /** A restore always finds the candidate it switched to, so its conflict error cannot occur. */
  lemma RestoreFindsCandidate(maxAttempts: nat, run: seq<Step>)
    ensures var w := After(Init(maxAttempts), run);
            w.worker.InRestore? && !w.worker.written ==> w.files.config == Some(w.worker.work.rendered)
  {
    Reachable(maxAttempts, run);
  }

  /** At no point, crashes included, does the file name a project whose route is gone. */
  lemma FileNeverNamesGoneRoute(maxAttempts: nat, run: seq<Step>, p: ProjectId)
    ensures var w := After(Init(maxAttempts), run);
            RouteGone(w.db, p) ==> p !in RoutesOf(w.files.config)
  {
    Reachable(maxAttempts, run);
    var w := After(Init(maxAttempts), run);
    assert RoutesOf(w.files.config).Keys <= Unremoved(w.db);
  }

  // ---------------------------------------------------------------- the tables

  /** In every reachable state no hostname is asked for or served by two projects. */
  lemma HostnamesStayExclusive(maxAttempts: nat, run: seq<Step>, p: ProjectId, q: ProjectId)
    requires var db := After(Init(maxAttempts), run).db; p in db.routes && q in db.routes && p != q
    ensures var db := After(Init(maxAttempts), run).db;
            && db.routes[p].hostname != db.routes[q].hostname
            && db.routes[p].appliedHostname != Some(db.routes[q].hostname)
            && (db.routes[p].appliedHostname.Some? ==> db.routes[p].appliedHostname != db.routes[q].appliedHostname)
  {
    Reachable(maxAttempts, run);
    assert Disjoint(After(Init(maxAttempts), run).db.routes[p], After(Init(maxAttempts), run).db.routes[q]);
  }

  /** In every reachable state a route and its job agree, and what is applied is no newer than what is asked for. */
  lemma RouteAndJobAgree(maxAttempts: nat, run: seq<Step>, p: ProjectId)
    requires p in After(Init(maxAttempts), run).db.routes
    ensures var db := After(Init(maxAttempts), run).db;
            && p in db.jobs && db.jobs[p].revision == db.routes[p].revision
            && (db.routes[p].status == RouteStore.Pending <==> db.jobs[p].state == JobPending)
            && (db.routes[p].status == Applying <==> db.jobs[p].state == JobClaimed)
            && (db.routes[p].status in {Active, Inactive} <==> db.jobs[p].state == JobSucceeded)
            && (db.routes[p].status in {RouteStore.Failed, Uncertain} <==> db.jobs[p].state == JobFailed)
            && (db.jobs[p].lease.Some? <==> db.jobs[p].state == JobClaimed)
            && (db.routes[p].appliedRevision.Some? ==> db.routes[p].appliedRevision.value <= db.routes[p].revision)
            && (db.routes[p].status == Active ==> db.routes[p].appliedHostname == Some(db.routes[p].hostname))
            && (db.routes[p].status == Inactive ==> Removed(db.routes[p]))
  {
    Reachable(maxAttempts, run);
    var db := After(Init(maxAttempts), run).db;
    assert RowInv(db.routes[p], db.jobs[p], db.nextToken);
  }

  // ---------------------------------------------------------------- what single steps do to the tables

  predicate RemovedRowsStay(db: Db, db': Db) {
    forall p :: p in db.routes && db.routes[p].status == Inactive ==> p in db'.routes && db'.routes[p] == db.routes[p]
  }

  /** A step that leaves the applied rows, removed routes, projects and history as they are. */
  predicate Calm(w: World, w': World) {
    && Quiet(w.db, w'.db)
    && AppliedAdvances(w.db, w'.db)
    && RemovedRowsStay(w.db, w'.db)
    && w'.db.routes.Keys == w.db.routes.Keys
    && w'.db.projects == w.db.projects
    && w'.history == w.history
    && w'.seen == w.seen
  }

  predicate SameTables(w: World, w': World) {
    w'.db == w.db && w'.history == w.history && w'.seen == w.seen
  }

  lemma SameTablesIsCalm(w: World, w': World)
    requires SameTables(w, w')
    ensures Calm(w, w')
  {
  }

  /** A heartbeat that is answered renews the lease; one that is refused changes nothing. */
  lemma BeatIsCalm(w: World, w': World, mode: Mode, now: Time, duration: nat)
    requires RouteStore.Inv(w.db) && w'.history == w.history && w'.seen == w.seen
    requires var r := BeatDo(w, mode, now, duration); w'.db == (if r.Success? then r.value.db else w.db)
    ensures Calm(w, w')
  {
    if mode.Serve? && Renew(w.db, mode.claim, now, duration).Success? {
      RenewKeeps(w.db, mode.claim, now, duration);
    } else {
      SameTablesIsCalm(w, w');
    }
  }

  predicate Beats(s: Step) {
    s.Heartbeat? || s.Fence?
  }

  lemma ApplyTables(w: World, stage: Stage, work: Work, s: Step)
    requires !s.Finalize?
    ensures var w' := ApplyDo(w, stage, work, s);
            || SameTables(w, w')
            || (&& Beats(s) && w'.history == w.history && w'.seen == w.seen
                && BeatDo(w, work.mode, s.now, s.duration).Success?
                && w'.db == BeatDo(w, work.mode, s.now, s.duration).value.db)
  {
  }

  lemma RestoreTables(w: World, written: bool, work: Work, failure: Failure, s: Step)
    ensures var w' := RestoreDo(w, written, work, failure, s);
            || SameTables(w, w')
            || (&& Beats(s) && w'.history == w.history && w'.seen == w.seen
                && BeatDo(w, work.mode, s.now, s.duration).Success?
                && w'.db == BeatDo(w, work.mode, s.now, s.duration).value.db)
  {
  }

  lemma HoldBeatTables(w: World, c: Claim, s: Step)
    requires s.Heartbeat?
    ensures var w' := HoldDo(w, c, s);
            || SameTables(w, w')
            || (&& w'.history == w.history && w'.seen == w.seen
                && BeatDo(w, Serve(c), s.now, s.duration).Success?
                && w'.db == BeatDo(w, Serve(c), s.now, s.duration).value.db)
  {
  }

  lemma HoldOtherTables(w: World, c: Claim, s: Step)
    requires !s.Heartbeat?
    ensures SameTables(w, HoldDo(w, c, s))
  {
  }

  lemma HoldTables(w: World, c: Claim, s: Step)
    ensures var w' := HoldDo(w, c, s);
            || SameTables(w, w')
            || (&& Beats(s) && w'.history == w.history && w'.seen == w.seen
                && BeatDo(w, Serve(c), s.now, s.duration).Success?
                && w'.db == BeatDo(w, Serve(c), s.now, s.duration).value.db)
  {
    if s.Heartbeat? { HoldBeatTables(w, c, s); } else { HoldOtherTables(w, c, s); }
  }

  lemma BeatingIsCalm(w: World, w': World, mode: Mode, s: Step)
    requires RouteStore.Inv(w.db)
    requires || SameTables(w, w')
             || (&& Beats(s) && w'.history == w.history && w'.seen == w.seen
                 && BeatDo(w, mode, s.now, s.duration).Success?
                 && w'.db == BeatDo(w, mode, s.now, s.duration).value.db)
    ensures Calm(w, w')
  {
    if SameTables(w, w') { SameTablesIsCalm(w, w'); } else { BeatIsCalm(w, w', mode, s.now, s.duration); }
  }

  /** A transaction on a claimed job's rows touches no removed row. */
  lemma ClaimedRowIsCalm(w: World, w': World, p: ProjectId)
    requires p in w.db.routes && w.db.routes[p].status != Inactive && TouchesOnly(w.db, w'.db, p)
    requires Quiet(w.db, w'.db) && AppliedAdvances(w.db, w'.db) && w'.history == w.history && w'.seen == w.seen
    ensures Calm(w, w')
  {
  }

  lemma LiveRowIsApplying(db: Db, c: Claim, now: Time)
    requires RouteStore.Inv(db) && Live(db, c, now)
    ensures db.routes[c.project].status == Applying
  {
    assert RowInv(db.routes[c.project], db.jobs[c.project], db.nextToken);
  }

  lemma RescheduleIsCalm(w: World, w': World, c: Claim, now: Time, availableAt: Time, code: string)
    requires RouteStore.Inv(w.db) && w'.history == w.history && w'.seen == w.seen
    requires Reschedule(w.db, c, now, availableAt, code) == Success(w'.db)
    ensures Calm(w, w')
  {
    RescheduleKeeps(w.db, c, now, availableAt, code);
    LiveRowIsApplying(w.db, c, now);
    ClaimedRowIsCalm(w, w', c.project);
  }

  lemma FailIsCalm(w: World, w': World, c: Claim, now: Time, code: string, uncertain: bool)
    requires RouteStore.Inv(w.db) && w'.history == w.history && w'.seen == w.seen
    requires Fail(w.db, c, now, code, uncertain) == Success(w'.db)
    ensures Calm(w, w')
  {
    FailKeeps(w.db, c, now, code, uncertain);
    LiveRowIsApplying(w.db, c, now);
    ClaimedRowIsCalm(w, w', c.project);
  }

  lemma ReportIsCalm(w: World, w': World, c: Claim, report: Report, now: Time, availableAt: Time, code: string)
    requires RouteStore.Inv(w.db) && w'.history == w.history && w'.seen == w.seen
    requires w'.db == ReportedDb(w.db, c, report, now, availableAt, code)
    ensures Calm(w, w')
  {
    if report.ReportRetry? && Reschedule(w.db, c, now, availableAt, code).Success? {
      RescheduleIsCalm(w, w', c, now, availableAt, code);
    } else if report.ReportFailed? && Fail(w.db, c, now, code, report.uncertain).Success? {
      FailIsCalm(w, w', c, now, code, report.uncertain);
    } else {
      SameTablesIsCalm(w, w');
    }
  }

  lemma TakeJobIsCalm(w: World, w': World, p: ProjectId, owner: WorkerId, now: Time, duration: nat)
    requires RouteStore.Inv(w.db) && Claimable(w.db, p, now) && w'.history == w.history && w'.seen == w.seen
    requires w'.db == ClaimJob(w.db, p, owner, now, duration).0
    ensures Calm(w, w')
  {
    ClaimJobKeeps(w.db, p, owner, now, duration);
  }

  /** No step of the worker but Finalize touches what is applied. */
  lemma WorkerIsCalm(w: World, s: Step)
    requires RouteStore.Inv(w.db) && !s.Finalize?
    ensures Calm(w, WorkerDo(w, s))
  {
    var w' := WorkerDo(w, s);
    match w.worker
    case Down => SameTablesIsCalm(w, w');
    case Booted => SameTablesIsCalm(w, w');
    case Idle(repair) =>
      if !repair && s.TakeJob? && Claimable(w.db, s.p, s.now) && s.duration > 0 {
        TakeJobIsCalm(w, w', s.p, s.owner, s.now, s.duration);
      } else {
        SameTablesIsCalm(w, w');
      }
    case Holding(c) => HoldTables(w, c, s); BeatingIsCalm(w, w', Serve(c), s);
    case InApply(stage, work) => ApplyTables(w, stage, work, s); BeatingIsCalm(w, w', work.mode, s);
    case InRestore(written, work, failure) =>
      RestoreTables(w, written, work, failure, s);
      BeatingIsCalm(w, w', work.mode, s);
    case Reporting(c, cause, _) =>
      if s.Deliver? {
        ReportIsCalm(w, w', c, ReportFor(cause, c.attempts, w.maxAttempts), s.now, s.availableAt, s.code);
      } else {
        SameTablesIsCalm(w, w');
      }
  }

  predicate Growing(w: World, w': World) {
    Quiet(w.db, w'.db) && AppliedAdvances(w.db, w'.db) && HistoryGrows(w, w')
  }

  lemma RememberIsGrowing(w: World, db': Db, p: ProjectId)
    requires HistoryInv(w) && Quiet(w.db, db') && AppliedAdvances(w.db, db') && RouteStore.Inv(db') && TouchesOnly(w.db, db', p)
    ensures Growing(w, Remember(w, db', p))
  {
    RememberKeepsHistory(w, db', p);
  }

  lemma EnableIsGrowing(w: World, p: ProjectId, h: Hostname, now: Time)
    requires WorldInv(w) && SetEnabled(w.db, p, h, now).Success?
    ensures Growing(w, Remember(w, SetEnabled(w.db, p, h, now).value, p))
  {
    SetEnabledKeeps(w.db, p, h, now);
    SetEnabledTouches(w.db, p, h, now);
    RememberIsGrowing(w, SetEnabled(w.db, p, h, now).value, p);
  }

  lemma DisableIsGrowing(w: World, p: ProjectId, now: Time)
    requires WorldInv(w) && p in w.db.routes
    ensures Growing(w, Remember(w, DisableRow(w.db, p, now), p))
  {
    DisableRowKeeps(w.db, p, now);
    DisableRowTouches(w.db, p, now);
    RememberIsGrowing(w, DisableRow(w.db, p, now), p);
  }

  lemma ProjectRowIsGrowing(w: World, p: ProjectId, status: ProjectStatus)
    ensures Growing(w, w.(db := w.db.(projects := w.db.projects[p := status]), seen := w.seen + {p}))
    ensures Growing(w, w.(db := w.db.(projects := w.db.projects[p := status])))
    ensures Growing(w, w)
  {
  }

  lemma DropIsGrowing(w: World, p: ProjectId)
    requires RouteGone(w.db, p)
    ensures Growing(w, w.(db := RemoveProject(w.db, p)))
  {
    RemoveProjectIsQuiet(w.db, p);
  }

  lemma WakeIsGrowing(w: World, p: ProjectId, now: Time)
    requires RouteStore.Inv(w.db)
    ensures Growing(w, w.(db := WakePending(w.db, p, now)))
  {
    WakePendingKeeps(w.db, p, now);
  }

  lemma ApiIsGrowing(w: World, s: Step)
    requires WorldInv(w) && ApiStep(s)
    ensures Growing(w, ApiDo(w, s))
  {
    ProjectRowIsGrowing(w, if s.Wake? then 0 else s.p, if s.CreateProject? then Ready else Deleting);
    match s
    case EnableRoute(p, h, now) => if SetEnabled(w.db, p, h, now).Success? { EnableIsGrowing(w, p, h, now); }
    case DisableRoute(p, now) => if Disable(w.db, p, now).Success? { DisableIsGrowing(w, p, now); }
    case DisableDeleted(p, now) => if DisableForDeletion(w.db, p, now).Success? && p in w.db.routes { DisableIsGrowing(w, p, now); }
    case Wake(p, now) => WakeIsGrowing(w, p, now);
    case DropProject(p) => if RouteGone(w.db, p) { DropIsGrowing(w, p); }
    case CreateProject(p) =>
    case MarkDeleting(p) =>
  }

  // ---------------------------------------------------------------- what Complete commits

  /** db' differs from the tables only by the commit of the claim whose plan is in the file. */
  predicate CommitsProbedPlan(w: World, db': Db, s: Step) {
    && s.Finalize? && w.worker.InApply? && w.worker.stage == Authorized && w.worker.work.mode.Serve?
    && Live(w.db, w.worker.work.mode.claim, s.now)
    && AppliedHosts(db') == w.worker.work.targets == RoutesOf(w.files.config)
    && CommitsClaim(w.db, db', w.worker.work.mode.claim)
  }

  predicate CommitsClaim(db: Db, db': Db, c: Claim) {
    && c.project in db'.routes
    && db'.routes == db.routes[c.project := db'.routes[c.project]]
    && db'.routes[c.project].desired == c.route.desired
    && db'.routes[c.project].appliedHostname == (if c.route.desired == Enabled then Some(c.route.hostname) else None)
  }

  lemma CompleteCommitsClaim(w: World, c: Claim, now: Time)
    requires RouteStore.Inv(w.db) && HistoryInv(w) && Recorded(w, c) && Complete(w.db, c, now).Success?
    ensures CommitsClaim(w.db, Complete(w.db, c, now).value, c)
  {
    CommitMatchesClaim(w, c, now);
    CompleteChangesItsRow(w.db, c, now);
  }

  lemma FinalizeCommitsProbedPlan(w: World, s: Step)
    requires WorldInv(w) && s.Finalize? && w.worker.InApply? && w.worker.stage == Authorized && w.worker.work.mode.Serve?
    requires Complete(w.db, w.worker.work.mode.claim, s.now).Success?
    ensures CommitsProbedPlan(w, Complete(w.db, w.worker.work.mode.claim, s.now).value, s)
  {
    FinalizeCommits(w, w.worker.work, s.now);
    CompleteCommitsClaim(w, w.worker.work.mode.claim, s.now);
  }

  lemma FinalizeTables(w: World, s: Step)
    requires s.Finalize?
    ensures var w' := WorkerDo(w, s);
            || SameTables(w, w')
            || (&& w.worker.InApply? && w.worker.stage == Authorized && w.worker.work.mode.Serve?
                && Complete(w.db, w.worker.work.mode.claim, s.now).Success?
                && w'.db == Complete(w.db, w.worker.work.mode.claim, s.now).value
                && w'.history == w.history && w'.seen == w.seen)
  {
  }

  /**
   A step changes what is applied only by committing the live claim whose plan the worker
   has rendered, switched to and probed: the new applied routes are that plan, the file
   shows them, and the claim's row gets exactly the hostname and desired state claimed.
   */
  lemma OnlyProbedPlanIsCommitted(maxAttempts: nat, run: seq<Step>, s: Step)
    ensures var w := After(Init(maxAttempts), run);
            Applied(Do(w, s).db) != Applied(w.db) ==> CommitsProbedPlan(w, Do(w, s).db, s)
  {
    Reachable(maxAttempts, run);
    var w := After(Init(maxAttempts), run);
    if ApiStep(s) {
      ApiIsGrowing(w, s);
    } else if s.Finalize? {
      FinalizeTables(w, s);
      if !SameTables(w, WorkerDo(w, s)) { FinalizeCommitsProbedPlan(w, s); }
    } else if !s.Crash? {
      WorkerIsCalm(w, s);
    }
  }

  // ---------------------------------------------------------------- what holds between any two points of a run

  lemma CompleteGrows(db: Db, c: Claim, now: Time)
    requires RouteStore.Inv(db) && Complete(db, c, now).Success?
    ensures var db' := Complete(db, c, now).value;
            && RevisionsAdvance(db, db') && AppliedAdvances(db, db') && RemovedRowsStay(db, db')
            && db'.projects == db.projects && db'.routes.Keys == db.routes.Keys
  {
    CompleteChangesItsRow(db, c, now);
    LiveRowIsApplying(db, c, now);
  }

  lemma FinalizeIsGrowing(w: World, s: Step)
    requires WorldInv(w) && s.Finalize?
    ensures var w' := WorkerDo(w, s);
            && RevisionsAdvance(w.db, w'.db) && AppliedAdvances(w.db, w'.db) && RemovedRowsStay(w.db, w'.db)
            && w'.history == w.history && w'.seen == w.seen && w'.db.projects == w.db.projects
            && w'.db.routes.Keys == w.db.routes.Keys
  {
    FinalizeTables(w, s);
    if !SameTables(w, WorkerDo(w, s)) { CompleteGrows(w.db, w.worker.work.mode.claim, s.now); }
  }

  /** What every single step does to the rows that survive it. */
  predicate Advances(w: World, w': World) {
    && RevisionsAdvance(w.db, w'.db)
    && AppliedAdvances(w.db, w'.db)
    && HistoryGrows(w, w')
    && w.seen <= w'.seen
  }

  lemma StepAdvances(w: World, s: Step)
    requires WorldInv(w)
    ensures Advances(w, Do(w, s))
  {
    if ApiStep(s) {
      ApiIsGrowing(w, s);
      assert w.seen <= ApiDo(w, s).seen;
    } else if s.Finalize? {
      FinalizeIsGrowing(w, s);
    } else if s.Crash? {
      SameTablesIsCalm(w, Do(w, s));
    } else {
      WorkerIsCalm(w, s);
    }
  }

  /** An id whose project is gone, or whose deleting project has no live route left. */
  predicate GoneForGood(w: World, p: ProjectId) {
    p in w.seen && (p in w.db.projects ==> w.db.projects[p] == Deleting && RouteGone(w.db, p))
  }

  lemma ApiKeepsGone(w: World, s: Step, p: ProjectId)
    requires WorldInv(w) && ApiStep(s) && GoneForGood(w, p)
    ensures GoneForGood(ApiDo(w, s), p)
  {
    match s
    case EnableRoute(q, h, now) => if SetEnabled(w.db, q, h, now).Success? { SetEnabledTouches(w.db, q, h, now); }
    case DisableRoute(q, now) => if Disable(w.db, q, now).Success? { DisableRowTouches(w.db, q, now); }
    case DisableDeleted(q, now) =>
      if q != p && DisableForDeletion(w.db, q, now).Success? && q in w.db.routes { DisableRowTouches(w.db, q, now); }
    case _ =>
  }

  lemma RemovedRowStaysGone(w: World, w': World, p: ProjectId)
    requires RouteStore.Inv(w.db) && GoneForGood(w, p) && RemovedRowsStay(w.db, w'.db)
    requires w'.db.projects == w.db.projects && w'.seen == w.seen && w'.db.routes.Keys == w.db.routes.Keys
    ensures GoneForGood(w', p)
  {
  }

  lemma StepKeepsGone(w: World, s: Step, p: ProjectId)
    requires WorldInv(w) && GoneForGood(w, p)
    ensures GoneForGood(Do(w, s), p)
  {
    if ApiStep(s) {
      ApiKeepsGone(w, s, p);
    } else if !s.Crash? {
      if s.Finalize? { FinalizeIsGrowing(w, s); } else { WorkerIsCalm(w, s); }
      RemovedRowStaysGone(w, WorkerDo(w, s), p);
    }
  }

  /**
   Once a deleting project's route is gone it stays gone for the rest of the run, with or
   without the project itself, and the file never names the project again.
   */
  lemma {:induction false} GoneStaysGone(w: World, run: seq<Step>, p: ProjectId)
    requires WorldInv(w) && GoneForGood(w, p)
    ensures GoneForGood(After(w, run), p) && p !in RoutesOf(After(w, run).files.config)
    decreases |run|
  {
    RunKeeps(w, run);
    if run != [] {
      var w0 := After(w, run[..|run| - 1]);
      RunKeeps(w, run[..|run| - 1]);
      GoneStaysGone(w, run[..|run| - 1], p);
      StepKeepsGone(w0, run[|run| - 1], p);
    }
    assert RoutesOf(After(w, run).files.config).Keys <= Unremoved(After(w, run).db);
  }

  /** The record of what a revision asked for is never rewritten. */
  lemma {:induction false} HistoryIsWriteOnce(w: World, run: seq<Step>)
    requires WorldInv(w)
    ensures HistoryGrows(w, After(w, run))
    decreases |run|
  {
    if run != [] {
      HistoryIsWriteOnce(w, run[..|run| - 1]);
      RunKeeps(w, run[..|run| - 1]);
      StepAdvances(After(w, run[..|run| - 1]), run[|run| - 1]);
    }
  }

  /**
   A project and a revision determine the hostname and the desired state: at any two points
   of a run where a project's route has the same revision, it asks for the same thing.
   */
  lemma RevisionDeterminesRequest(maxAttempts: nat, run: seq<Step>, more: seq<Step>, p: ProjectId)
    requires p in After(Init(maxAttempts), run).db.routes
    requires p in After(After(Init(maxAttempts), run), more).db.routes
    requires After(Init(maxAttempts), run).db.routes[p].revision
          == After(After(Init(maxAttempts), run), more).db.routes[p].revision
    ensures var r := After(Init(maxAttempts), run).db.routes[p];
            var r' := After(After(Init(maxAttempts), run), more).db.routes[p];
            r.hostname == r'.hostname && r.desired == r'.desired
  {
    var w := After(Init(maxAttempts), run);
    Reachable(maxAttempts, run);
    RunKeeps(w, more);
    HistoryIsWriteOnce(w, more);
    assert (p, w.db.routes[p].revision) in w.history;
  }

  /** The project has its route, or is gone altogether and its id is spent. */
  predicate RoutedOrDropped(w: World, p: ProjectId) {
    p in w.seen && (p in w.db.projects ==> p in w.db.routes)
  }

  lemma StepKeepsRouted(w: World, s: Step, p: ProjectId)
    requires WorldInv(w) && RoutedOrDropped(w, p)
    ensures RoutedOrDropped(Do(w, s), p)
    ensures p !in w.db.routes ==> p !in Do(w, s).db.routes
  {
    if ApiStep(s) {
      match s
      case EnableRoute(q, h, now) => if SetEnabled(w.db, q, h, now).Success? { SetEnabledTouches(w.db, q, h, now); }
      case DisableRoute(q, now) => if Disable(w.db, q, now).Success? { DisableRowTouches(w.db, q, now); }
      case DisableDeleted(q, now) =>
        if DisableForDeletion(w.db, q, now).Success? && q in w.db.routes { DisableRowTouches(w.db, q, now); }
      case _ =>
    } else if s.Finalize? {
      FinalizeIsGrowing(w, s);
    } else if !s.Crash? {
      WorkerIsCalm(w, s);
    }
  }

  /** A route that is there at both ends of a run never had its applied revision go back. */
  lemma {:induction false} AppliedRevisionNeverGoesBack(w: World, run: seq<Step>, p: ProjectId)
    requires WorldInv(w) && p in w.db.routes && w.db.routes[p].appliedRevision.Some?
    ensures RoutedOrDropped(After(w, run), p)
    ensures p in After(w, run).db.routes ==>
              var r := After(w, run).db.routes[p];
              r.appliedRevision.Some? && w.db.routes[p].appliedRevision.value <= r.appliedRevision.value <= r.revision
    decreases |run|
  {
    if run != [] {
      var before := After(w, run[..|run| - 1]);
      RunKeeps(w, run[..|run| - 1]);
      AppliedRevisionNeverGoesBack(w, run[..|run| - 1], p);
      StepKeepsRouted(before, run[|run| - 1], p);
      StepAdvances(before, run[|run| - 1]);
    }
    RunKeeps(w, run);
  }

  // ---------------------------------------------------------------- the one failure that leaves the file wrong

  /** The claim's plan is what the tables show as applied already. */
  predicate AsksNothingNew(db: Db, c: Claim) {
    if c.route.desired == Enabled
    then c.project in db.routes && db.routes[c.project].appliedHostname == Some(c.route.hostname)
    else c.project in db.routes ==> db.routes[c.project].appliedHostname == None
  }

  lemma PlanChangesNothingIff(db: Db, c: Claim)
    ensures Planned(AppliedHosts(db), Serve(c)) == AppliedHosts(db) <==> AsksNothingNew(db, c)
  {
    var hosts := AppliedHosts(db);
    var p := c.project;
    if c.route.desired == Enabled {
      assert Planned(hosts, Serve(c))[p] == c.route.hostname;
      if AsksNothingNew(db, c) { assert hosts[p] == c.route.hostname; }
    } else {
      assert p !in Planned(hosts, Serve(c));
      if AsksNothingNew(db, c) { assert p !in hosts; }
    }
  }

  /**
   Without the hypothesis on restores: whenever the worker is between two jobs and owes no
   reconciliation, the file shows the applied routes if and only if no abandoned plan was
   left in it, or the one that was left asks for nothing that is not applied.
   */
  lemma FileIsRightIff(maxAttempts: nat, run: seq<Step>)
    requires After(Init(maxAttempts), run).worker == Idle(false)
    ensures var w := After(Init(maxAttempts), run);
            RoutesOf(w.files.config) == AppliedHosts(w.db) <==> w.stale == None || AsksNothingNew(w.db, w.stale.value)
  {
    var w := After(Init(maxAttempts), run);
    Reachable(maxAttempts, run);
    if w.stale.Some? { PlanChangesNothingIff(w.db, w.stale.value); }
  }

  /** What may happen before the worker takes its next job: transactions of others, and the report. */
  predicate BeforeNextJob(s: Step) {
    ApiStep(s) || s.Deliver?
  }

  predicate ReportsOrRests(worker: Worker) {
    worker.Idle? || worker.Reporting?
  }

  lemma RestingStep(w: World, s: Step)
    requires WorldInv(w) && BeforeNextJob(s) && ReportsOrRests(w.worker)
    ensures var w' := Do(w, s);
            && w'.files == w.files && w'.stale == w.stale && ReportsOrRests(w'.worker)
            && AppliedHosts(w'.db) == AppliedHosts(w.db)
  {
    if ApiStep(s) { ApiIsGrowing(w, s); } else { WorkerIsCalm(w, s); }
  }

  lemma {:induction false} RestingRun(w: World, run: seq<Step>)
    requires WorldInv(w) && ReportsOrRests(w.worker) && forall i :: 0 <= i < |run| ==> BeforeNextJob(run[i])
    ensures var w' := After(w, run);
            && w'.files == w.files && w'.stale == w.stale && ReportsOrRests(w'.worker)
            && AppliedHosts(w'.db) == AppliedHosts(w.db)
    decreases |run|
  {
    if run != [] {
      RunKeeps(w, run[..|run| - 1]);
      RestingRun(w, run[..|run| - 1]);
      RestingStep(After(w, run[..|run| - 1]), run[|run| - 1]);
    }
  }

  lemma RestoreWriteFailsStep(w: World)
    requires WorldInv(w) && w.worker.InRestore? && !w.worker.written && w.worker.work.mode.Serve?
    ensures var w' := Do(w, RestoreWriteFails);
            && w'.db == w.db && w'.files == w.files && w'.stale == Some(w.worker.work.mode.claim)
            && (w'.worker == Idle(false) || (w'.worker.Reporting? && !w'.worker.repairNeeded))
    ensures RoutesOf(w.files.config) == Planned(AppliedHosts(w.db), w.worker.work.mode)
  {
  }

  /**
   If writing the old file back fails, the worker asks for no reconciliation. From then
   until it takes its next job, whatever others commit meanwhile, the file is right if and
   only if the claim asked for nothing that was not applied when the write failed.
   */
  lemma FailedRestoreIsUnnoticed(maxAttempts: nat, run: seq<Step>, more: seq<Step>)
    requires var w := After(Init(maxAttempts), run);
             w.worker.InRestore? && !w.worker.written && w.worker.work.mode.Serve?
    requires forall i :: 0 <= i < |more| ==> BeforeNextJob(more[i])
    ensures var w := After(Init(maxAttempts), run);
            var failed := Do(w, RestoreWriteFails);
            var later := After(failed, more);
            && (failed.worker == Idle(false) || (failed.worker.Reporting? && !failed.worker.repairNeeded))
            && (RoutesOf(later.files.config) == AppliedHosts(later.db) <==> AsksNothingNew(w.db, w.worker.work.mode.claim))
  {
    var w := After(Init(maxAttempts), run);
    Reachable(maxAttempts, run);
    RestoreWriteFailsStep(w);
    StepKeeps(w, RestoreWriteFails);
    RestingRun(Do(w, RestoreWriteFails), more);
    PlanChangesNothingIff(w.db, w.worker.work.mode.claim);
  }
}
