/**
 What becomes of a claim that could not be served: from what was raised and from the
 attempts made so far, to the row and the job that the report leaves behind.
 */
module RoutingReports {
  import opened Wrappers
  import opened Ids
  import opened RouteStore
  import opened RoutingHost
  import S = RoutingSafety
  import T = RoutingTheorems

  /** Nobody can tell whether the change took effect. */
  predicate EndsUncertain(cause: Cause) {
    cause == Because(FinalizeUncertain) || (cause.Because? && cause.failure.EdgeFailure? && cause.failure.uncertain)
  }

  /** A failed command or lost connection that is worth another attempt. */
  predicate IsRetryable(cause: Cause) {
    cause.Because? && cause.failure.EdgeFailure? && cause.failure.retryable && !cause.failure.uncertain
  }

  /** The gateway has to get ready first, or the plan was made from rows that have changed since: no fault of the claim. */
  predicate IsPutOff(cause: Cause) {
    cause == NotReady || cause == Because(SnapshotChanged)
  }

  predicate QueuesAgain(cause: Cause, attempts: nat, maxAttempts: nat) {
    IsPutOff(cause) || (IsRetryable(cause) && attempts < maxAttempts)
  }

  /** Both rows of the claim's project after the report, and nothing else that changed. */
  predicate Reported(db: Db, db': Db, c: Claim, cause: Cause, maxAttempts: nat, now: Time, availableAt: Time, code: string) {
    if !Live(db, c, now) then db' == db
    else
      && c.project in db'.routes && c.project in db'.jobs
      && db' == db.(routes := db.routes[c.project := db'.routes[c.project]], jobs := db.jobs[c.project := db'.jobs[c.project]])
      && RowReported(db.routes[c.project], db'.routes[c.project], cause, c.attempts, maxAttempts, code)
      && JobReported(db.jobs[c.project], db'.jobs[c.project], cause, c.attempts, maxAttempts, availableAt, code)
  }

  /** What is asked for and what is applied stay; the status tells how the claim ended. */
  predicate RowReported(r: Route, r': Route, cause: Cause, attempts: nat, maxAttempts: nat, code: string) {
    && r' == r.(status := r'.status, lastError := Some(code))
    && (r'.status == Uncertain <==> EndsUncertain(cause))
    && (r'.status == RouteStore.Pending <==> QueuesAgain(cause, attempts, maxAttempts))
    && (r'.status == RouteStore.Failed <==> !EndsUncertain(cause) && !QueuesAgain(cause, attempts, maxAttempts))
  }

  predicate JobReported(j: Job, j': Job, cause: Cause, attempts: nat, maxAttempts: nat, availableAt: Time, code: string) {
    && j'.revision == j.revision && j'.attempts == j.attempts && j'.lease == None && j'.lastError == Some(code)
    && (j'.state == JobPending <==> QueuesAgain(cause, attempts, maxAttempts))
    && (j'.state == JobFailed <==> !QueuesAgain(cause, attempts, maxAttempts))
    && (j'.state == JobPending ==> j'.availableAt == availableAt)
  }

  /** Delivering a report does just that, and ends the turn. */
  lemma DeliveryReports(w: World, now: Time, availableAt: Time, code: string)
    requires w.worker.Reporting?
    ensures var w' := Do(w, Deliver(now, availableAt, code));
            && Reported(w.db, w'.db, w.worker.claim, w.worker.cause, w.maxAttempts, now, availableAt, code)
            && w' == w.(db := w'.db, worker := Idle(w.worker.repairNeeded))
  {
  }

  // ---------------------------------------------------------------- where a cause comes from

  /** What the step itself raises, or the failure after which the old file is back in place. */
  predicate Raises(w: World, s: Step, f: Failure) {
    match s
    case Throw(g) => f == g
    case PlanFails(g, notReady) => f == g && !notReady
    case Plan(_) => f == EdgeFailure(false, false)
    case Validate => f == EdgeFailure(false, true)
    case Fence(_, _) => f == SnapshotChanged
    case Finalize(_, answer) => f == FinalizeUncertain && answer.AnswerLost?
    case RestoreWrite => f == EdgeFailure(false, true)
    case RestoreWriteFails => f == Unexpected
    case RestoreThrows(g) => f == if g.EdgeFailure? then EdgeFailure(false, true) else g
    case RestoreDone => w.worker.InRestore? && w.worker.written && f == w.worker.failure
    case _ => false
  }

  /** The worker is left with a report for the cause that this step raised; a lost or refused claim is not reported at all. */
  predicate ReportsWhatWasRaised(w: World, s: Step, worker: Worker) {
    worker.Reporting? ==>
      && (if worker.cause.NotReady? then s.PlanFails? && s.notReady else Raises(w, s, worker.cause.failure))
      && (worker.repairNeeded <==> worker.cause == Because(FinalizeUncertain))
      && worker.cause != Because(FinalizeRejected) && worker.cause != Because(ClaimGone)
  }

  lemma FinalizeReports(w: World, work: Work, now: Time, answer: FinalizeAnswer)
    requires w.worker == InApply(Authorized, work)
    ensures ReportsWhatWasRaised(w, Finalize(now, answer), FinalizeDo(w, work, now, answer).worker)
  {
  }

  lemma FenceReports(w: World, stage: Stage, work: Work, now: Time, duration: nat)
    requires w.worker == InApply(stage, work)
    ensures ReportsWhatWasRaised(w, Fence(now, duration), ApplyDo(w, stage, work, Fence(now, duration)).worker)
  {
  }

  lemma ApplyReports(w: World, stage: Stage, work: Work, s: Step)
    requires w.worker == InApply(stage, work)
    ensures ReportsWhatWasRaised(w, s, ApplyDo(w, stage, work, s).worker)
  {
    match s
    case Finalize(now, answer) => if stage == Authorized { FinalizeReports(w, work, now, answer); }
    case Fence(now, duration) => FenceReports(w, stage, work, now, duration);
    case Heartbeat(now, duration) => BeatReports(w, stage, work, now, duration);
    case Throw(f) => ThrowReports(w, stage, work, f);
    case Validate => ValidateReports(w, stage, work);
    case _ => OthersReportNothing(w, stage, work, s);
  }

  /** The steps of a pass that cannot raise anything. */
  predicate IsSmooth(s: Step) {
    !s.Finalize? && !s.Fence? && !s.Heartbeat? && !s.Throw? && !s.Validate?
  }

  lemma OthersReportNothing(w: World, stage: Stage, work: Work, s: Step)
    requires w.worker == InApply(stage, work) && IsSmooth(s)
    ensures !ApplyDo(w, stage, work, s).worker.Reporting? && !ApplyDo(w, stage, work, s).worker.InRestore?
  {
  }

  lemma ValidateReports(w: World, stage: Stage, work: Work)
    requires w.worker == InApply(stage, work)
    ensures ReportsWhatWasRaised(w, Validate, ApplyDo(w, stage, work, Validate).worker)
  {
  }

  lemma BeatReports(w: World, stage: Stage, work: Work, now: Time, duration: nat)
    requires w.worker == InApply(stage, work)
    ensures ReportsWhatWasRaised(w, Heartbeat(now, duration), ApplyDo(w, stage, work, Heartbeat(now, duration)).worker)
  {
  }

  lemma ThrowReports(w: World, stage: Stage, work: Work, f: Failure)
    requires w.worker == InApply(stage, work)
    ensures ReportsWhatWasRaised(w, Throw(f), ApplyDo(w, stage, work, Throw(f)).worker)
  {
  }

  lemma RestoreReports(w: World, written: bool, work: Work, failure: Failure, s: Step)
    requires w.worker == InRestore(written, work, failure)
    ensures ReportsWhatWasRaised(w, s, RestoreDo(w, written, work, failure, s).worker)
  {
  }

  lemma HoldReports(w: World, c: Claim, s: Step)
    requires w.worker == Holding(c)
    ensures ReportsWhatWasRaised(w, s, HoldDo(w, c, s).worker)
  {
  }

  lemma CauseWasRaised(w: World, s: Step)
    requires !w.worker.Reporting?
    ensures ReportsWhatWasRaised(w, s, Do(w, s).worker)
  {
    if ApiStep(s) {
      ApiKeepsLeases(w, s);
    } else if !s.Crash? {
      match w.worker
      case InApply(stage, work) => ApplyReports(w, stage, work, s);
      case InRestore(written, work, failure) => RestoreReports(w, written, work, failure, s);
      case Holding(c) => HoldReports(w, c, s);
      case _ =>
    }
  }

  /** A restore begins with the failure that was raised behind the switch. */
  predicate RestoresForWhatWasRaised(w: World, s: Step, worker: Worker) {
    worker.InRestore? ==>
      && w.worker.InApply? && SwitchedOpen(w.worker.stage)
      && match s
         case Throw(g) => worker.failure == g
         case Heartbeat(_, _) => worker.failure == ClaimGone
         case Fence(_, _) => worker.failure == ClaimGone || worker.failure == SnapshotChanged
         case Finalize(_, answer) => worker.failure == FinalizeRejected && answer.Answered?
         case _ => false
  }

  lemma FinalizeRestores(w: World, work: Work, now: Time, answer: FinalizeAnswer)
    requires w.worker == InApply(Authorized, work)
    ensures RestoresForWhatWasRaised(w, Finalize(now, answer), FinalizeDo(w, work, now, answer).worker)
  {
  }

  lemma FenceRestores(w: World, stage: Stage, work: Work, now: Time, duration: nat)
    requires w.worker == InApply(stage, work)
    ensures RestoresForWhatWasRaised(w, Fence(now, duration), ApplyDo(w, stage, work, Fence(now, duration)).worker)
  {
  }

  lemma ApplyRestores(w: World, stage: Stage, work: Work, s: Step)
    requires w.worker == InApply(stage, work)
    ensures RestoresForWhatWasRaised(w, s, ApplyDo(w, stage, work, s).worker)
  {
    match s
    case Finalize(now, answer) => if stage == Authorized { FinalizeRestores(w, work, now, answer); }
    case Fence(now, duration) => FenceRestores(w, stage, work, now, duration);
    case _ =>
  }

  lemma HoldRestoresNothing(w: World, c: Claim, s: Step)
    requires w.worker == Holding(c)
    ensures !HoldDo(w, c, s).worker.InRestore?
  {
  }

  lemma RestoredForWhatWasRaised(w: World, s: Step)
    requires !w.worker.InRestore?
    ensures RestoresForWhatWasRaised(w, s, Do(w, s).worker)
  {
    if ApiStep(s) {
      ApiKeepsLeases(w, s);
    } else if !s.Crash? {
      match w.worker
      case InApply(stage, work) => ApplyRestores(w, stage, work, s);
      case Holding(c) => HoldRestoresNothing(w, c, s);
      case _ =>
    }
  }

  // ---------------------------------------------------------------- heartbeats and fences

  /** The claim's lease was running and now runs until the given time; nothing else changed. */
  predicate Prolonged(db: Db, db': Db, c: Claim, now: Time, until: Time) {
    && Live(db, c, now)
    && db' == db.(jobs := db.jobs[c.project := db.jobs[c.project].(lease := Some(Lease(c.owner, c.token, until)))])
  }

  /** A heartbeat prolongs the lease of a claim that is live, and is how a worker learns that it is not. */
  lemma HeartbeatProlongs(w: World, now: Time, duration: nat)
    requires w.worker.Holding? || w.worker.InApply? || (w.worker.InRestore? && w.worker.written)
    requires HeldClaim(w.worker).Some?
    ensures var c, w' := HeldClaim(w.worker).value, Do(w, Heartbeat(now, duration));
            && w'.files == w.files
            && (if Live(w.db, c, now) then Prolonged(w.db, w'.db, c, now, now + duration) && w'.worker == w.worker
                else w'.db == w.db && w'.worker != w.worker)
  {
  }

  /** A fence lets the worker on only with its claim live, which it prolongs, and with the rows it has planned from. */
  lemma FencePasses(w: World, now: Time, duration: nat)
    requires w.worker.InApply? && w.worker.stage in {Validated, Fenced, Probed}
    requires Do(w, Fence(now, duration)).worker.InApply?
    ensures var work, w' := w.worker.work, Do(w, Fence(now, duration));
            && w'.worker.work == work && w'.files == w.files && Applied(w.db) == work.snapshot
            && (if work.mode.Serve? then Prolonged(w.db, w'.db, work.mode.claim, now, now + duration) else w'.db == w.db)
  {
  }

  // ---------------------------------------------------------------- the attempts of a claim

  function HeldClaim(worker: Worker): Option<Claim> {
    match worker
    case Holding(c) => Some(c)
    case InApply(_, work) => if work.mode.Serve? then Some(work.mode.claim) else None
    case InRestore(_, work, _) => if work.mode.Serve? then Some(work.mode.claim) else None
    case Reporting(c, _, _) => Some(c)
    case _ => None
  }

  /** As long as a claim holds the lease, its job counts the attempts the claim knows of. */
  predicate Counted(db: Db, c: Claim) {
    && c.token < db.nextToken
    && (c.project in db.jobs && db.jobs[c.project].lease.Some? && db.jobs[c.project].lease.value.token == c.token ==>
          db.jobs[c.project].attempts == c.attempts)
  }

  /** Leases are only renewed or given up. */
  predicate LeasesStay(db: Db, db': Db) {
    && db'.nextToken == db.nextToken
    && forall p :: p in db'.jobs && db'.jobs[p].lease.Some? ==>
         && p in db.jobs && db.jobs[p].lease.Some? && db.jobs[p].lease.value.token == db'.jobs[p].lease.value.token
         && db'.jobs[p].attempts == db.jobs[p].attempts
  }

  lemma ApiKeepsLeases(w: World, s: Step)
    requires ApiStep(s)
    ensures LeasesStay(w.db, ApiDo(w, s).db) && ApiDo(w, s).worker == w.worker && ApiDo(w, s).maxAttempts == w.maxAttempts
  {
  }

  /** Leases and requests stay, and the worker goes on with its claim or without one. */
  predicate GoesOn(w: World, w': World) {
    && LeasesStay(w.db, w'.db) && S.SameRequests(w.db, w'.db) && w'.maxAttempts == w.maxAttempts
    && (HeldClaim(w'.worker).Some? ==> HeldClaim(w'.worker) == HeldClaim(w.worker))
  }

  lemma BeatGoesOn(w: World, mode: Mode, now: Time, duration: nat)
    requires BeatDo(w, mode, now, duration).Success?
    ensures GoesOn(w, BeatDo(w, mode, now, duration).value) && BeatDo(w, mode, now, duration).value.worker == w.worker
  {
  }

  lemma ExitGoesOn(w: World, mode: Mode, f: Failure)
    requires HeldClaim(w.worker) == if mode.Serve? then Some(mode.claim) else None
    ensures GoesOn(w, w.(worker := Exit(mode, f)))
  {
  }

  lemma ThrownGoesOn(w: World, stage: Stage, work: Work, f: Failure)
    requires w.worker == InApply(stage, work)
    ensures GoesOn(w, Thrown(w, stage, work, f))
  {
    ExitGoesOn(w, work.mode, f);
  }

  lemma FinalizeGoesOn(w: World, work: Work, now: Time, answer: FinalizeAnswer)
    requires w.worker == InApply(Authorized, work)
    ensures GoesOn(w, FinalizeDo(w, work, now, answer))
  {
    ThrownGoesOn(w, Authorized, work, FinalizeRejected);
    ExitGoesOn(w, work.mode, FinalizeUncertain);
    if work.mode.Serve? && Complete(w.db, work.mode.claim, now).Success? { CompleteKeepsLeases(w.db, work.mode.claim, now); }
  }

  lemma CompleteKeepsLeases(db: Db, c: Claim, now: Time)
    requires Complete(db, c, now).Success?
    ensures LeasesStay(db, Complete(db, c, now).value) && S.SameRequests(db, Complete(db, c, now).value)
  {
  }

  lemma FenceGoesOn(w: World, stage: Stage, work: Work, now: Time, duration: nat)
    requires w.worker == InApply(stage, work)
    ensures GoesOn(w, ApplyDo(w, stage, work, Fence(now, duration)))
  {
    ThrownGoesOn(w, stage, work, ClaimGone);
    ThrownGoesOn(w, stage, work, SnapshotChanged);
    if BeatDo(w, work.mode, now, duration).Success? { BeatGoesOn(w, work.mode, now, duration); }
  }

  lemma ApplyGoesOn(w: World, stage: Stage, work: Work, s: Step)
    requires w.worker == InApply(stage, work)
    ensures GoesOn(w, ApplyDo(w, stage, work, s))
  {
    match s
    case Finalize(now, answer) => if stage == Authorized { FinalizeGoesOn(w, work, now, answer); }
    case Fence(now, duration) => FenceGoesOn(w, stage, work, now, duration);
    case Heartbeat(now, duration) =>
      ThrownGoesOn(w, stage, work, ClaimGone);
      if BeatDo(w, work.mode, now, duration).Success? { BeatGoesOn(w, work.mode, now, duration); }
    case Throw(f) => ThrownGoesOn(w, stage, work, f);
    case Validate => ThrownGoesOn(w, stage, work, EdgeFailure(false, true));
    case _ => SmoothGoesOn(w, stage, work, s);
  }

  lemma SmoothGoesOn(w: World, stage: Stage, work: Work, s: Step)
    requires w.worker == InApply(stage, work) && IsSmooth(s)
    ensures GoesOn(w, ApplyDo(w, stage, work, s))
  {
  }

  lemma RestoreGoesOn(w: World, written: bool, work: Work, failure: Failure, s: Step)
    requires w.worker == InRestore(written, work, failure)
    ensures GoesOn(w, RestoreDo(w, written, work, failure, s))
  {
    if s.Heartbeat? && BeatDo(w, work.mode, s.now, s.duration).Success? { BeatGoesOn(w, work.mode, s.now, s.duration); }
  }

  lemma HoldBeatGoesOn(w: World, c: Claim, now: Time, duration: nat)
    requires w.worker == Holding(c)
    ensures GoesOn(w, HoldDo(w, c, Heartbeat(now, duration)))
  {
    if BeatDo(w, Serve(c), now, duration).Success? {
      BeatGoesOn(w, Serve(c), now, duration);
    } else {
      ExitGoesOn(w, Serve(c), ClaimGone);
    }
  }

  lemma PlanningKeepsClaim(w: World, c: Claim, s: Step)
    requires w.worker == Holding(c) && !s.Heartbeat?
    ensures var w' := HoldDo(w, c, s);
            w'.maxAttempts == w.maxAttempts && (HeldClaim(w'.worker).Some? ==> HeldClaim(w'.worker).value == c)
  {
  }

  lemma PlanningGoesOn(w: World, c: Claim, s: Step)
    requires w.worker == Holding(c) && !s.Heartbeat?
    ensures GoesOn(w, HoldDo(w, c, s))
  {
    T.HoldOtherTables(w, c, s);
    PlanningKeepsClaim(w, c, s);
  }

  lemma HoldGoesOn(w: World, c: Claim, s: Step)
    requires w.worker == Holding(c)
    ensures GoesOn(w, HoldDo(w, c, s))
  {
    if s.Heartbeat? { HoldBeatGoesOn(w, c, s.now, s.duration); } else { PlanningGoesOn(w, c, s); }
  }

  lemma ReportGoesOn(w: World, c: Claim, cause: Cause, repair: bool, s: Step)
    requires w.worker == Reporting(c, cause, repair)
    ensures GoesOn(w, ReportDo(w, c, cause, repair, s))
  {
  }

  lemma WorkerGoesOn(w: World, s: Step)
    requires !s.TakeJob?
    ensures GoesOn(w, WorkerDo(w, s))
  {
    match w.worker
    case InApply(stage, work) => ApplyGoesOn(w, stage, work, s);
    case InRestore(written, work, failure) => RestoreGoesOn(w, written, work, failure, s);
    case Holding(c) => HoldGoesOn(w, c, s);
    case Reporting(c, cause, repair) => ReportGoesOn(w, c, cause, repair, s);
    case _ =>
  }

  predicate AttemptsInv(w: World) {
    HeldClaim(w.worker).Some? ==> Counted(w.db, HeldClaim(w.worker).value)
  }

  lemma StepKeepsAttempts(w: World, s: Step)
    requires AttemptsInv(w)
    ensures AttemptsInv(Do(w, s)) && Do(w, s).maxAttempts == w.maxAttempts
  {
    if ApiStep(s) {
      ApiKeepsLeases(w, s);
    } else if !s.Crash? && !s.TakeJob? {
      WorkerGoesOn(w, s);
    }
  }

  lemma {:induction false} AttemptsAreCounted(maxAttempts: nat, run: seq<Step>)
    ensures var w := After(Init(maxAttempts), run); AttemptsInv(w) && w.maxAttempts == maxAttempts
    decreases |run|
  {
    if run != [] {
      AttemptsAreCounted(maxAttempts, run[..|run| - 1]);
      StepKeepsAttempts(After(Init(maxAttempts), run[..|run| - 1]), run[|run| - 1]);
    }
  }

  // ---------------------------------------------------------------- over every run

  /** The step takes the project's job out of a worker's hands and queues it again as it was asked for. */
  predicate Requeues(db: Db, db': Db, p: ProjectId) {
    && p in db.jobs && db.jobs[p].state == JobClaimed
    && p in db'.jobs && db'.jobs[p].state == JobPending && db'.jobs[p].revision == db.jobs[p].revision
  }

  lemma ApiRequeuesNothing(w: World, s: Step, p: ProjectId)
    requires ApiStep(s) && RouteStore.Inv(w.db) && p in w.db.jobs && w.db.jobs[p].state == JobClaimed
    ensures !Requeues(w.db, ApiDo(w, s).db, p)
  {
    assert RowInv(w.db.routes[p], w.db.jobs[p], w.db.nextToken);
  }

  lemma OnlyDeliveryRequeues(w: World, s: Step, p: ProjectId)
    requires !ApiStep(s) && Requeues(w.db, Do(w, s).db, p)
    ensures w.worker.Reporting? && s.Deliver? && Live(w.db, w.worker.claim, s.now) && w.worker.claim.project == p
  {
  }

  /**
   In every run a claimed job is queued again only by a report: because the gateway was not
   ready or the rows had changed, or because of a retryable failure as long as the job has
   been attempted less often than allowed.
   */
  lemma RequeuedOnlyBelowLimit(maxAttempts: nat, run: seq<Step>, s: Step, p: ProjectId)
    requires var w := After(Init(maxAttempts), run); Requeues(w.db, Do(w, s).db, p)
    ensures var w := After(Init(maxAttempts), run);
            && w.worker.Reporting? && w.worker.claim.project == p && s.Deliver?
            && (IsPutOff(w.worker.cause) || (IsRetryable(w.worker.cause) && w.db.jobs[p].attempts < maxAttempts))
  {
    var w := After(Init(maxAttempts), run);
    AttemptsAreCounted(maxAttempts, run);
    S.Reachable(maxAttempts, run);
    if ApiStep(s) {
      ApiRequeuesNothing(w, s, p);
    } else {
      OnlyDeliveryRequeues(w, s, p);
      DeliveryReports(w, s.now, s.availableAt, s.code);
    }
  }
}
