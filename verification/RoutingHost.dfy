/**
 The public routing host: the route tables, the two files of the edge directory, and
 the one routing worker that moves through claim, plan, apply, restore and report one
 atomic action at a time. Between any two of its actions the API or the deletion worker
 may commit a transaction, and the process may crash, which drops everything it kept in
 memory. A run is a sequence of Steps; a step that is not enabled changes nothing.
 */
module RoutingHost {
  import opened Wrappers
  import opened Ids
  import opened RouteStore
  import EdgeHostname

  const MAX_CONFIG_BYTES := 1_048_576
  const MAX_ROUTES := 1000

  // ---------------------------------------------------------------- files

  /** The content of public-routes.conf: the fixed placeholder, or a rendered route set. */
  datatype Config = NoRoutes | Generated(routes: map<ProjectId, Hostname>, size: nat)

  datatype JournalPhase = JournalPrepared | JournalCommitted

  datatype Transaction = Transaction(previous: Config, candidate: Config,
                                     previousHostname: Option<Hostname>, phase: JournalPhase)

  datatype Files = Files(config: Option<Config>, journal: Option<Transaction>)

  function RoutesOf(c: Option<Config>): map<ProjectId, Hostname> {
    if c.Some? && c.value.Generated? then c.value.routes else map[]
  }

  predicate Bounded(c: Config) {
    c.Generated? ==> c.size <= MAX_CONFIG_BYTES
  }

  /** The checks a journal must pass when it is read back. */
  predicate Parses(t: Transaction) {
    && Bounded(t.previous)
    && Bounded(t.candidate)
    && (t.previousHostname.Some? ==> EdgeHostname.Valid(t.previousHostname.value))
  }

  /** What recovery accepts: no journal, or a readable one whose config is one of its two sides. */
  predicate JournalAccepted(f: Files) {
    f.journal.Some? ==>
      && Parses(f.journal.value)
      && f.config.Some?
      && f.config.value in {f.journal.value.previous, f.journal.value.candidate}
  }

  predicate Renderable(targets: map<ProjectId, Hostname>, size: nat) {
    && |targets| <= MAX_ROUTES
    && (forall p :: p in targets ==> EdgeHostname.Valid(targets[p]))
    && (forall p, q :: p in targets && q in targets && p != q ==> targets[p] != targets[q])
    && size <= MAX_CONFIG_BYTES
  }

  // ---------------------------------------------------------------- the worker

  datatype Mode = Startup | Repair | Serve(claim: Claim)

  /** The local variables of one pass through apply. */
  datatype Work = Work(mode: Mode, targets: map<ProjectId, Hostname>, snapshot: map<ProjectId, AppliedRow>,
                       rendered: Config, previous: Config)

  datatype Stage =
    | Entered | Validated | Fenced | Tested | Read | Journaled
    | Switched | Probed | Authorized
    | Finalized | Marked

  datatype Failure =
    | FinalizeRejected
    | ClaimGone
    | SnapshotChanged
    | EdgeFailure(retryable: bool, uncertain: bool)
    | FinalizeUncertain
    | Unexpected

  /** Why a claim is given up: the gateway was not ready, or something failed. */
  datatype Cause = NotReady | Because(failure: Failure)

  datatype Report = ReportRetry | ReportFailed(uncertain: bool)

  datatype Worker =
    | Down
    | Booted
    | Idle(repairNeeded: bool)
    | Holding(claim: Claim)
    | InApply(stage: Stage, work: Work)
    | InRestore(written: bool, work: Work, failure: Failure)
    | Reporting(claim: Claim, cause: Cause, repairNeeded: bool)

  /**
   history remembers which hostname and desired state every revision stood for, seen which
   project ids were ever given out. stale records the claim whose plan stayed in the file
   because a restore could not write the old file back, until an apply succeeds.
   */
  datatype World = World(db: Db, files: Files, worker: Worker, maxAttempts: nat,
                         history: map<(ProjectId, nat), (Hostname, Desired)>,
                         seen: set<ProjectId>, stale: Option<Claim>)

  datatype FinalizeAnswer = Answered | AnswerLost(committed: bool)

  datatype Step =
    // transactions of the API and of the deletion worker
    | CreateProject(p: ProjectId)
    | EnableRoute(p: ProjectId, hostname: Hostname, now: Time)
    | DisableRoute(p: ProjectId, now: Time)
    | MarkDeleting(p: ProjectId)
    | DisableDeleted(p: ProjectId, now: Time)
    | Wake(p: ProjectId, now: Time)
    | DropProject(p: ProjectId)
    // the routing process
    | Crash
    | Boot
    | BeginReconcile(size: nat)
    | TakeJob(p: ProjectId, owner: WorkerId, now: Time, duration: nat)
    | Plan(size: nat)
    | PlanFails(failure: Failure, notReady: bool)
    | Heartbeat(now: Time, duration: nat)
    | Validate
    | Fence(now: Time, duration: nat)
    | ReadCurrent
    | WriteJournal
    | Switch
    | Probe
    | Finalize(now: Time, answer: FinalizeAnswer)
    | MarkCommitted
    | ClearJournal
    | Throw(failure: Failure)
    | RestoreWrite
    | RestoreWriteFails
    | RestoreThrows(failure: Failure)
    | RestoreDone
    | Deliver(now: Time, availableAt: Time, code: string)
    | DeliverFails

  function Init(maxAttempts: nat): World {
    World(Db(map[], map[], map[], 0), Files(None, None), Down, maxAttempts, map[], {}, None)
  }

  /** The routes a pass of the given mode wants in the file, from the applied ones. */
  function Planned(applied: map<ProjectId, Hostname>, mode: Mode): map<ProjectId, Hostname> {
    if !mode.Serve? then applied
    else if mode.claim.route.desired == Enabled then applied[mode.claim.project := mode.claim.route.hostname]
    else applied - {mode.claim.project}
  }

  predicate SwitchedOpen(stage: Stage) {
    stage in {Switched, Probed, Authorized}
  }

  /** What the worker writes down of a cause, after so many attempts of those allowed. */
  function ReportFor(cause: Cause, attempts: nat, maxAttempts: nat): Report {
    match cause
    case NotReady => ReportRetry
    case Because(f) =>
      match f
      case EdgeFailure(retryable, uncertain) =>
        if uncertain then ReportFailed(true)
        else if retryable && attempts < maxAttempts then ReportRetry
        else ReportFailed(false)
      case FinalizeUncertain => ReportFailed(true)
      case SnapshotChanged => ReportRetry
      case _ => ReportFailed(false)
  }

  /** Where the worker is after apply raised the failure and nothing is left to restore. */
  function Exit(mode: Mode, f: Failure): Worker {
    match mode
    case Startup => if f.EdgeFailure? || f.SnapshotChanged? then Booted else Down
    case Repair => if f.EdgeFailure? || f.SnapshotChanged? then Idle(true) else Down
    case Serve(c) =>
      if f.FinalizeRejected? || f.ClaimGone? then Idle(false)
      else Reporting(c, Because(f), f.FinalizeUncertain?)
  }

  /** A failure inside apply: a switched, unfinalized file is restored first. */
  function Thrown(w: World, stage: Stage, work: Work, f: Failure): World {
    w.(worker := if SwitchedOpen(stage) then InRestore(false, work, f) else Exit(work.mode, f))
  }

  function Remember(w: World, db: Db, p: ProjectId): World {
    if p in db.routes
    then w.(db := db, history := w.history[(p, db.routes[p].revision) := (db.routes[p].hostname, db.routes[p].desired)])
    else w.(db := db)
  }

  function ApiDo(w: World, s: Step): World {
    match s
    case CreateProject(p) =>
      if p in w.seen then w else w.(db := w.db.(projects := w.db.projects[p := Ready]), seen := w.seen + {p})
    case EnableRoute(p, h, now) =>
      var r := SetEnabled(w.db, p, h, now);
      if r.Success? then Remember(w, r.value, p) else w
    case DisableRoute(p, now) =>
      var r := Disable(w.db, p, now);
      if r.Success? then Remember(w, r.value, p) else w
    case MarkDeleting(p) =>
      if p in w.db.projects then w.(db := w.db.(projects := w.db.projects[p := Deleting])) else w
    case DisableDeleted(p, now) =>
      var r := DisableForDeletion(w.db, p, now);
      if r.Success? then Remember(w, r.value, p) else w
    case Wake(p, now) => w.(db := WakePending(w.db, p, now))
    case DropProject(p) =>
      if p in w.db.projects && w.db.projects[p] == Deleting && RouteGone(w.db, p)
      then w.(db := RemoveProject(w.db, p)) else w
    case _ => w
  }

  function BeatDo(w: World, mode: Mode, now: Time, duration: nat): Result<World, Failure> {
    if !mode.Serve? then Success(w)
    else
      var r := Renew(w.db, mode.claim, now, duration);
      if r.Success? then Success(w.(db := r.value)) else Failure(ClaimGone)
  }

  function FenceDo(w: World, work: Work, now: Time, duration: nat): Result<World, Failure> {
    var r := BeatDo(w, work.mode, now, duration);
    if r.Failure? then r
    else if Applied(r.value.db) != work.snapshot then Failure(SnapshotChanged)
    else r
  }

  function FinalizeDo(w: World, work: Work, now: Time, answer: FinalizeAnswer): World {
    if !work.mode.Serve? then w.(worker := InApply(Finalized, work))
    else
      var r := Complete(w.db, work.mode.claim, now);
      match answer
      case Answered =>
        if r.Success? then w.(db := r.value, worker := InApply(Finalized, work), stale := None)
        else Thrown(w, Authorized, work, FinalizeRejected)
      case AnswerLost(committed) =>
        w.(db := if committed && r.Success? then r.value else w.db,
           worker := Exit(work.mode, FinalizeUncertain))
  }

  function PreviousHostname(mode: Mode): Option<Hostname> {
    if mode.Serve? then mode.claim.route.appliedHostname else None
  }

  function ApplyDo(w: World, stage: Stage, work: Work, s: Step): World {
    match s
    case Heartbeat(now, duration) =>
      var r := BeatDo(w, work.mode, now, duration);
      if r.Success? then r.value else Thrown(w, stage, work, r.error)
    case Fence(now, duration) =>
      if stage !in {Validated, Fenced, Probed} then w
      else
        var r := FenceDo(w, work, now, duration);
        if r.Failure? then Thrown(w, stage, work, r.error)
        else r.value.(worker := InApply(if stage == Validated then Fenced
                                         else if stage == Fenced then Tested else Authorized, work))
    case Throw(f) => if f.EdgeFailure? || f.Unexpected? then Thrown(w, stage, work, f) else w
    case Validate =>
      if stage != Entered then w
      else if JournalAccepted(w.files) then w.(worker := InApply(Validated, work))
      else Thrown(w, stage, work, EdgeFailure(false, true))
    case ReadCurrent =>
      if stage != Tested then w
      else if w.files.config.Some? then w.(worker := InApply(Read, work.(previous := w.files.config.value)))
      else w.(files := w.files.(config := Some(NoRoutes)), worker := InApply(Read, work.(previous := NoRoutes)))
    case WriteJournal =>
      if stage != Read then w
      else w.(files := w.files.(journal := Some(Transaction(work.previous, work.rendered, PreviousHostname(work.mode), JournalPrepared))),
              worker := InApply(Journaled, work))
    case Switch =>
      if stage != Journaled then w
      else w.(files := w.files.(config := Some(work.rendered)), worker := InApply(Switched, work))
    case Probe => if stage != Switched then w else w.(worker := InApply(Probed, work))
    case Finalize(now, answer) => if stage != Authorized then w else FinalizeDo(w, work, now, answer)
    case MarkCommitted =>
      if stage != Finalized then w
      else w.(files := w.files.(journal := Some(Transaction(work.previous, work.rendered, PreviousHostname(work.mode), JournalCommitted))),
              worker := InApply(Marked, work))
    case ClearJournal =>
      if stage != Marked then w
      else w.(files := w.files.(journal := None), worker := Idle(false), stale := None)
    case _ => w
  }

  function RestoreDo(w: World, written: bool, work: Work, failure: Failure, s: Step): World {
    match s
    case Heartbeat(now, duration) =>
      if !written then w
      else
        var r := BeatDo(w, work.mode, now, duration);
        if r.Success? then r.value else w.(worker := Exit(work.mode, r.error))
    case RestoreWrite =>
      if written then w
      else if w.files.config != Some(work.rendered) then w.(worker := Exit(work.mode, EdgeFailure(false, true)))
      else w.(files := w.files.(config := Some(work.previous)), worker := InRestore(true, work, failure))
    case RestoreWriteFails =>
      if written then w else w.(worker := Exit(work.mode, Unexpected),
                              stale := if work.mode.Serve? then Some(work.mode.claim) else None)
    case RestoreThrows(f) =>
      if !written then w
      else if f.EdgeFailure? then w.(worker := Exit(work.mode, EdgeFailure(false, true)))
      else if f.Unexpected? then w.(worker := Exit(work.mode, f))
      else w
    case RestoreDone =>
      if !written then w
      else w.(files := w.files.(journal := None), worker := Exit(work.mode, failure))
    case _ => w
  }

  function HoldDo(w: World, c: Claim, s: Step): World {
    match s
    case Heartbeat(now, duration) =>
      var r := BeatDo(w, Serve(c), now, duration);
      if r.Success? then r.value else w.(worker := Exit(Serve(c), r.error))
    case Plan(size) =>
      var targets := Planned(AppliedHosts(w.db), Serve(c));
      if !Renderable(targets, size) then w.(worker := Exit(Serve(c), EdgeFailure(false, false)))
      else w.(worker := InApply(Entered, Work(Serve(c), targets, Applied(w.db), Generated(targets, size), NoRoutes)))
    case PlanFails(f, notReady) =>
      if notReady then w.(worker := Reporting(c, NotReady, false))
      else if f.EdgeFailure? || f.Unexpected? then w.(worker := Exit(Serve(c), f))
      else w
    case _ => w
  }

  /** The tables after the worker reported its failure, or found its claim lost. */
  function ReportedDb(db: Db, c: Claim, report: Report, now: Time, availableAt: Time, code: string): Db {
    var r := if report.ReportRetry? then Reschedule(db, c, now, availableAt, code)
             else Fail(db, c, now, code, report.uncertain);
    if r.Success? then r.value else db
  }

  function ReportDo(w: World, c: Claim, cause: Cause, repair: bool, s: Step): World {
    match s
    case Deliver(now, availableAt, code) =>
      w.(db := ReportedDb(w.db, c, ReportFor(cause, c.attempts, w.maxAttempts), now, availableAt, code), worker := Idle(repair))
    case DeliverFails => w.(worker := Down)
    case _ => w
  }

  function ReconcileDo(w: World, mode: Mode, size: nat): World {
    var targets := AppliedHosts(w.db);
    if !Renderable(targets, size) then w.(worker := Exit(mode, EdgeFailure(false, false)))
    else w.(worker := InApply(Entered, Work(mode, targets, Applied(w.db), Generated(targets, size), NoRoutes)))
  }

  function WorkerDo(w: World, s: Step): World {
    match w.worker
    case Down => if s.Boot? && JournalAccepted(w.files) then w.(worker := Booted) else w
    case Booted => if s.BeginReconcile? then ReconcileDo(w, Startup, s.size) else w
    case Idle(repair) =>
      if repair then
        if s.BeginReconcile? then ReconcileDo(w, Repair, s.size) else w
      else if s.TakeJob? && Claimable(w.db, s.p, s.now) && s.duration > 0 then
        var (db, c) := ClaimJob(w.db, s.p, s.owner, s.now, s.duration);
        w.(db := db, worker := Holding(c))
      else w
    case Holding(c) => HoldDo(w, c, s)
    case InApply(stage, work) => ApplyDo(w, stage, work, s)
    case InRestore(written, work, failure) => RestoreDo(w, written, work, failure, s)
    case Reporting(c, cause, repair) => ReportDo(w, c, cause, repair, s)
  }

  predicate ApiStep(s: Step) {
    s.CreateProject? || s.EnableRoute? || s.DisableRoute? || s.MarkDeleting? || s.DisableDeleted? || s.Wake? || s.DropProject?
  }

  function Do(w: World, s: Step): World {
    if ApiStep(s) then ApiDo(w, s)
    else if s.Crash? then w.(worker := Down)
    else WorkerDo(w, s)
  }

  /** The world after a run of steps. */
  function After(w: World, run: seq<Step>): World {
    if run == [] then w else Do(After(w, run[..|run| - 1]), run[|run| - 1])
  }
}
