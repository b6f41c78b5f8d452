/**
 A deletion leaves no database and no secret behind: what each phase removes is gone before
 the next phase begins, and stays gone.
 */
module DeletionCleanup {
  import opened Wrappers
  import opened Ids
  import opened DeletionSystem
  import opened DeletionSafety
  import D = DeletionStore
  import R = RouteStore
  import T = DeletionTheorems

  /** From which phase on there is nothing of this kind. */
  function CleanFrom(kind: Kind): nat {
    match kind
    case DatabaseSessions => 6
    case Database => 7
    case Role => 8
    case Secrets => 9
    case _ => 0
  }

  ghost predicate PhaseClean(present: Present, p: ProjectId, phase: D.Phase) {
    forall kind :: PartKind(kind) && CleanFrom(kind) <= D.Index(phase) ==> (p, kind) !in present
  }

  ghost predicate NoParts(present: Present, p: ProjectId) {
    forall kind :: (p, kind) !in present
  }

  /** What the current phase is for has been achieved. */
  ghost predicate HereClean(present: Present, c: D.Claim) {
    forall kind :: PartKind(kind) && RemovesIn(c.job.phase, kind) ==> (c.project, kind) !in present
  }

  ghost predicate WorkClean(s: Sys, work: Work) {
    && PhaseClean(s.present, work.claim.project, work.claim.job.phase)
    && (work.point == Removed || work.point == Worked ==> HereClean(s.present, work.claim))
    && (work.claim.project in s.deletions.jobs ==>
          D.Index(work.claim.job.phase) <= D.Index(s.deletions.jobs[work.claim.project].phase))
  }

  ghost predicate JobsClean(s: Sys) {
    forall p :: p in s.deletions.jobs ==> PhaseClean(s.present, p, s.deletions.jobs[p].phase)
  }

  ghost predicate WorkersClean(s: Sys) {
    forall k :: k in s.workers ==> WorkClean(s, s.workers[k])
  }

  /** Only projects own anything, and only those with a database record own a database. */
  ghost predicate Owned(s: Sys) {
    forall p, kind :: (p, kind) in s.present ==>
      PartKind(kind) && p in s.host.db.projects && (DatabaseKind(kind) ==> p in s.resources)
  }

  ghost predicate CleanInv(s: Sys) {
    JobsClean(s) && WorkersClean(s) && Owned(s)
  }

  // ---------------------------------------------------------------- steps under which nothing appears

  lemma LessIsCleaner(present: Present, present': Present, work: Work)
    requires present' <= present
    ensures PhaseClean(present, work.claim.project, work.claim.job.phase) ==> PhaseClean(present', work.claim.project, work.claim.job.phase)
    ensures HereClean(present, work.claim) ==> HereClean(present', work.claim)
  {
  }

  /** A job keeps its phase, moves forward into a clean one, or is new on a project nobody works on. */
  ghost predicate JobMoves(s: Sys, s': Sys, p: ProjectId)
    requires p in s'.deletions.jobs
  {
    if p in s.deletions.jobs
    then
      && D.Index(s.deletions.jobs[p].phase) <= D.Index(s'.deletions.jobs[p].phase)
      && (s'.deletions.jobs[p].phase == s.deletions.jobs[p].phase || PhaseClean(s'.present, p, s'.deletions.jobs[p].phase))
    else p in s.host.db.projects && D.Index(s'.deletions.jobs[p].phase) == 0
  }

  ghost predicate Moves(s: Sys, s': Sys) {
    && s'.present <= s.present
    && (forall p :: p in s'.deletions.jobs ==> JobMoves(s, s', p))
    && (forall k :: k in s'.workers ==> (k in s.workers && s'.workers[k] == s.workers[k]) || WorkClean(s', s'.workers[k]))
    && Owned(s')
  }

  lemma OldWorkStaysClean(s: Sys, s': Sys, work: Work)
    requires WorkInv(s, work) && WorkClean(s, work) && s'.present <= s.present
    requires work.claim.project in s'.deletions.jobs ==> JobMoves(s, s', work.claim.project)
    ensures WorkClean(s', work)
  {
    LessIsCleaner(s.present, s'.present, work);
  }

  lemma MovesKeepClean(s: Sys, s': Sys)
    requires SysInv(s) && CleanInv(s) && Moves(s, s')
    ensures CleanInv(s')
  {
    forall p | p in s'.deletions.jobs ensures PhaseClean(s'.present, p, s'.deletions.jobs[p].phase) {
      assert JobMoves(s, s', p);
      if p in s.deletions.jobs { assert PhaseClean(s.present, p, s.deletions.jobs[p].phase); }
    }
    forall k | k in s'.workers ensures WorkClean(s', s'.workers[k]) {
      if k in s.workers && s'.workers[k] == s.workers[k] {
        assert WorkInv(s, s.workers[k]) && WorkClean(s, s.workers[k]);
        OldWorkStaysClean(s, s', s.workers[k]);
      }
    }
  }

  /** What may change besides the deletion jobs without anything appearing or losing its owner. */
  predicate SameOwners(s: Sys, s': Sys) {
    && s'.present <= s.present
    && s.host.db.projects.Keys <= s'.host.db.projects.Keys
    && s.resources <= s'.resources
  }

  lemma SameOwnersOwn(s: Sys, s': Sys)
    requires Owned(s) && SameOwners(s, s')
    ensures Owned(s')
  {
  }

  lemma SameJobsMove(s: Sys, s': Sys)
    requires Owned(s) && SameOwners(s, s') && SameJobs(s.deletions, s'.deletions)
    requires forall k :: k in s'.workers ==> (k in s.workers && s'.workers[k] == s.workers[k]) || WorkClean(s', s'.workers[k])
    ensures Moves(s, s')
  {
    SameOwnersOwn(s, s');
  }

  lemma SameDeletionsMove(s: Sys, s': Sys)
    requires Owned(s) && SameOwners(s, s') && s'.deletions == s.deletions
    requires forall k :: k in s'.workers ==> (k in s.workers && s'.workers[k] == s.workers[k]) || WorkClean(s', s'.workers[k])
    ensures Moves(s, s')
  {
    SameOwnersOwn(s, s');
  }

  /** Only the deletion jobs change, and no phase among them. */
  lemma DeletionsMove(s: Sys, r: Result<D.Db, D.DeletionError>)
    requires Owned(s) && (r.Success? ==> SameJobs(s.deletions, r.value))
    ensures Moves(s, if r.Success? then s.(deletions := r.value) else s)
  {
    if r.Success? { SameJobsMove(s, s.(deletions := r.value)); } else { SameDeletionsMove(s, s); }
  }

  lemma HostMoves(s: Sys, step: Step)
    requires SysInv(s) && Owned(s) && step.Host?
    ensures Moves(s, Do(s, step))
  {
    if OpenHostStep(step.h) { OpenHostKeepsProjects(s.host, step.h); }
    SameDeletionsMove(s, Do(s, step));
  }

  lemma RequestMoves(s: Sys, p: ProjectId, confirmation: D.Confirmation, now: Time)
    requires Owned(s)
    ensures Moves(s, RequestDo(s, p, confirmation, now))
  {
    SameOwnersOwn(s, RequestDo(s, p, confirmation, now));
  }

  lemma TakeMoves(s: Sys, k: WorkerId, p: ProjectId, now: Time, duration: nat)
    requires SysInv(s) && CleanInv(s)
    ensures Moves(s, TakeDo(s, k, p, now, duration))
  {
    if k !in s.workers && D.Claimable(s.deletions, p, now) {
      ClaimKeepsJobs(s.deletions, p, k, now, duration);
      assert PhaseClean(s.present, p, s.deletions.jobs[p].phase);
      SameJobsMove(s, TakeDo(s, k, p, now, duration));
    } else {
      SameDeletionsMove(s, s);
    }
  }

  lemma ReleaseMoves(s: Sys, k: WorkerId, r: Result<D.Db, D.DeletionError>)
    requires Owned(s) && (r.Success? ==> SameJobs(s.deletions, r.value))
    ensures Moves(s, Release(s, k, r))
  {
    if r.Success? { SameJobsMove(s, Release(s, k, r)); } else { SameDeletionsMove(s, Release(s, k, r)); }
  }

  lemma ReleasesMove(s: Sys, k: WorkerId, action: Action)
    requires SysInv(s) && Owned(s) && k in s.workers && GivesUp(action)
    ensures Moves(s, WorkerDo(s, k, s.workers[k], action))
  {
    var r := GivenUp(s.deletions, s.workers[k].claim, action);
    if r.Success? { GivingUpKeepsJobs(s.deletions, s.workers[k].claim, action); }
    ReleaseMoves(s, k, r);
    GivingUpReleases(s, k, action);
  }

  lemma BeatMoves(s: Sys, k: WorkerId, now: Time, duration: nat)
    requires SysInv(s) && Owned(s) && k in s.workers
    ensures Moves(s, WorkerDo(s, k, s.workers[k], Beat(now, duration)))
  {
    var r := D.Renew(s.deletions, s.workers[k].claim, now, duration);
    if r.Success? { RenewKeepsJobs(s.deletions, s.workers[k].claim, now, duration); }
    DeletionsMove(s, r);
  }

  /** A worker that remembers the same claim at a point that claims no work. */
  lemma SameClaimIsClean(s: Sys, s': Sys, work: Work, work': Work)
    requires WorkInv(s, work) && WorkClean(s, work) && s'.present <= s.present
    requires work.claim.project in s'.deletions.jobs ==> JobMoves(s, s', work.claim.project)
    requires work'.claim == work.claim && (work'.point == work.point || (work'.point != Removed && work'.point != Worked))
    ensures WorkClean(s', work')
  {
    OldWorkStaysClean(s, s', work);
  }

  lemma RenewedMoves(s: Sys, k: WorkerId, now: Time, duration: nat)
    requires SysInv(s) && Owned(s) && k in s.workers && WorkInv(s, s.workers[k]) && WorkClean(s, s.workers[k])
    requires D.Renew(s.deletions, s.workers[k].claim, now, duration).Success?
    ensures Moves(s, AuthorizeDo(s, k, s.workers[k], now, duration))
  {
    var s' := AuthorizeDo(s, k, s.workers[k], now, duration);
    RenewKeepsJobs(s.deletions, s.workers[k].claim, now, duration);
    SameClaimIsClean(s, s', s.workers[k], s'.workers[k]);
    SameJobsMove(s, s');
  }

  lemma AuthorizeDoMoves(s: Sys, k: WorkerId, now: Time, duration: nat)
    requires SysInv(s) && CleanInv(s) && k in s.workers
    ensures Moves(s, AuthorizeDo(s, k, s.workers[k], now, duration))
  {
    assert WorkInv(s, s.workers[k]) && WorkClean(s, s.workers[k]);
    if D.Renew(s.deletions, s.workers[k].claim, now, duration).Success? {
      RenewedMoves(s, k, now, duration);
    } else {
      SameDeletionsMove(s, AuthorizeDo(s, k, s.workers[k], now, duration));
    }
  }

  lemma AuthorizeMoves(s: Sys, k: WorkerId, now: Time, duration: nat)
    requires SysInv(s) && CleanInv(s) && k in s.workers
    ensures Moves(s, WorkerDo(s, k, s.workers[k], Authorize(now, duration)))
  {
    AuthorizeDoMoves(s, k, now, duration);
    SameDeletionsMove(s, s);
  }

  /** The worker only remembers more, under the same claim. */
  lemma RememberedMoves(s: Sys, k: WorkerId, work: Work)
    requires SysInv(s) && CleanInv(s) && k in s.workers && work.claim == s.workers[k].claim
    requires work.point == s.workers[k].point || (work.point != Removed && work.point != Worked)
    ensures Moves(s, At(s, k, work))
  {
    assert WorkInv(s, s.workers[k]) && WorkClean(s, s.workers[k]);
    SameClaimIsClean(s, At(s, k, work), s.workers[k], work);
    SameDeletionsMove(s, At(s, k, work));
  }

  predicate LooksOnly(action: Action) {
    action.CheckDrained? || action.CheckApplied? || action.Read? || action.Look?
  }

  lemma LookIs(s: Sys, k: WorkerId, action: Action)
    requires k in s.workers && LooksOnly(action)
    ensures var s' := WorkerDo(s, k, s.workers[k], action);
            s' == s || (k in s'.workers && s' == At(s, k, s'.workers[k]) && s'.workers[k].claim == s.workers[k].claim
                        && (s'.workers[k].point == s.workers[k].point || s'.workers[k].point in {Drained, RouteApplied}))
  {
  }

  lemma LookMoves(s: Sys, k: WorkerId, action: Action)
    requires SysInv(s) && CleanInv(s) && k in s.workers && LooksOnly(action)
    ensures Moves(s, WorkerDo(s, k, s.workers[k], action))
  {
    var s' := WorkerDo(s, k, s.workers[k], action);
    LookIs(s, k, action);
    if s' == s { SameDeletionsMove(s, s); } else { RememberedMoves(s, k, s'.workers[k]); }
  }

  lemma DisableMoves(s: Sys, k: WorkerId, now: Time)
    requires SysInv(s) && CleanInv(s) && k in s.workers
    ensures Moves(s, WorkerDo(s, k, s.workers[k], DisableRoute(now)))
  {
    assert WorkClean(s, s.workers[k]);
    DisableDeletedKeepsProjects(s.host, s.workers[k].claim.project, now);
    SameDeletionsMove(s, WorkerDo(s, k, s.workers[k], DisableRoute(now)));
  }

  /** A project without a database record has nothing of a database, whoever deleted it. */
  lemma NoRecordNoDatabase(s: Sys, work: Work, kind: Kind)
    requires SysInv(s) && Owned(s) && WorkInv(s, work) && !work.claim.job.deleteDatabase && DatabaseKind(kind)
    ensures (work.claim.project, kind) !in s.present
  {
  }

  lemma FinishMoves(s: Sys, k: WorkerId)
    requires SysInv(s) && CleanInv(s) && k in s.workers
    ensures Moves(s, WorkerDo(s, k, s.workers[k], FinishWork))
  {
    var work := s.workers[k];
    assert WorkInv(s, work) && WorkClean(s, work);
    if MayFinish(work) {
      FinishedIsClean(s, work);
    }
    SameDeletionsMove(s, WorkerDo(s, k, work, FinishWork));
  }

  lemma FinishedIsClean(s: Sys, work: Work)
    requires SysInv(s) && Owned(s) && WorkInv(s, work) && WorkClean(s, work) && MayFinish(work)
    ensures WorkClean(s, work.(point := Worked))
  {
    forall kind | PartKind(kind) && RemovesIn(work.claim.job.phase, kind) ensures (work.claim.project, kind) !in s.present {
      if DatabaseKind(kind) && !work.claim.job.deleteDatabase { NoRecordNoDatabase(s, work, kind); }
    }
  }

  lemma RemovedIsClean(s: Sys, k: WorkerId, kind: Kind, ok: bool, gone: bool)
    requires k in s.workers && WorkInv(s, s.workers[k]) && WorkClean(s, s.workers[k]) && RemovesIn(s.workers[k].claim.job.phase, kind)
    ensures var s' := RemoveDo(s, k, s.workers[k], kind, ok, gone); WorkClean(s', s'.workers[k])
  {
    var s' := RemoveDo(s, k, s.workers[k], kind, ok, gone);
    LessIsCleaner(s.present, s'.present, s.workers[k]);
  }

  lemma RemoveDoMoves(s: Sys, k: WorkerId, kind: Kind, ok: bool, gone: bool)
    requires Owned(s) && k in s.workers
    requires var s' := RemoveDo(s, k, s.workers[k], kind, ok, gone); WorkClean(s', s'.workers[k])
    ensures Moves(s, RemoveDo(s, k, s.workers[k], kind, ok, gone))
  {
    SameDeletionsMove(s, RemoveDo(s, k, s.workers[k], kind, ok, gone));
  }

  lemma RemoveMoves(s: Sys, k: WorkerId, kind: Kind, ok: bool, gone: bool)
    requires SysInv(s) && CleanInv(s) && k in s.workers
    ensures Moves(s, WorkerDo(s, k, s.workers[k], Remove(kind, ok, gone)))
  {
    var s' := WorkerDo(s, k, s.workers[k], Remove(kind, ok, gone));
    RemoveCases(s, k, kind, ok, gone);
    if s' == s {
      SameDeletionsMove(s, s');
    } else {
      assert WorkInv(s, s.workers[k]) && WorkClean(s, s.workers[k]);
      RemovedIsClean(s, k, kind, ok, gone);
      RemoveDoMoves(s, k, kind, ok, gone);
    }
  }

  // ---------------------------------------------------------------- advancing and finalizing

  /** What is done in one phase is what the next phase finds done. */
  lemma NextPhaseIsClean(s: Sys, work: Work)
    requires WorkClean(s, work) && ReadyToAdvance(work)
    ensures PhaseClean(s.present, work.claim.project, D.PHASES[D.Index(work.claim.job.phase) + 1])
  {
    var next := D.PHASES[D.Index(work.claim.job.phase) + 1];
    assert D.Index(next) == D.Index(work.claim.job.phase) + 1;
    forall kind | PartKind(kind) && CleanFrom(kind) <= D.Index(next) ensures (work.claim.project, kind) !in s.present {
      if CleanFrom(kind) == D.Index(next) { assert RemovesIn(work.claim.job.phase, kind); }
    }
  }

  lemma AdvancedJobMoves(s: Sys, k: WorkerId, now: Time)
    requires k in s.workers && ReadyToAdvance(s.workers[k]) && AdvanceResult(s, s.workers[k], now).Success? && Owned(s)
    requires PhaseClean(s.present, s.workers[k].claim.project, D.PHASES[D.Index(s.workers[k].claim.job.phase) + 1])
    ensures Moves(s, AdvanceDo(s, k, s.workers[k].claim, now))
  {
    SameOwnersOwn(s, AdvanceDo(s, k, s.workers[k].claim, now));
  }

  lemma AdvanceMoves(s: Sys, k: WorkerId, now: Time)
    requires SysInv(s) && CleanInv(s) && k in s.workers && ReadyToAdvance(s.workers[k])
    ensures Moves(s, AdvanceDo(s, k, s.workers[k].claim, now))
  {
    var work := s.workers[k];
    if AdvanceResult(s, work, now).Failure? {
      SameDeletionsMove(s, AdvanceDo(s, k, work.claim, now));
    } else {
      assert WorkClean(s, work);
      NextPhaseIsClean(s, work);
      AdvancedJobMoves(s, k, now);
    }
  }

  lemma FinalizedMoves(s: Sys, k: WorkerId, p: ProjectId)
    requires Owned(s) && Finalizable(s, p) && NoParts(s.present, p)
    ensures Moves(s, Rest(FinalizeDo(s, p), k))
  {
    DroppedHost(s.host, p);
  }

  lemma FinalizingMoves(s: Sys, k: WorkerId)
    requires SysInv(s) && CleanInv(s) && k in s.workers && s.workers[k].claim.job.phase == D.MetadataDelete
    requires Finalizable(s, s.workers[k].claim.project)
    ensures Moves(s, Rest(FinalizeDo(s, s.workers[k].claim.project), k))
  {
    assert WorkInv(s, s.workers[k]) && WorkClean(s, s.workers[k]);
    FinalizedMoves(s, k, s.workers[k].claim.project);
  }

  lemma FinalizeMoves(s: Sys, k: WorkerId, now: Time)
    requires SysInv(s) && CleanInv(s) && k in s.workers
    ensures Moves(s, WorkerDo(s, k, s.workers[k], Finalize(now)))
  {
    var s' := WorkerDo(s, k, s.workers[k], Finalize(now));
    T.FinalizeCases(s, k, now);
    if s' == s || s' == Rest(s, k) { SameDeletionsMove(s, s'); } else { FinalizingMoves(s, k); }
  }

  // ---------------------------------------------------------------- every step, every run

  /** A worker gives its claim up or forgets it. */
  lemma LeavingMoves(s: Sys, k: WorkerId, action: Action)
    requires SysInv(s) && CleanInv(s) && k in s.workers
    requires action.Defer? || action.Reschedule? || action.Fail? || action.Stop?
    ensures Moves(s, WorkerDo(s, k, s.workers[k], action))
  {
    if action.Stop? { SameDeletionsMove(s, Rest(s, k)); } else { ReleasesMove(s, k, action); }
  }

  lemma ActMoves(s: Sys, k: WorkerId, action: Action)
    requires SysInv(s) && CleanInv(s) && k in s.workers
    ensures Moves(s, WorkerDo(s, k, s.workers[k], action))
  {
    if LooksOnly(action) {
      LookMoves(s, k, action);
    } else if action.Beat? || action.Authorize? || action.DisableRoute? || action.Remove? || action.Finalize? {
      WritingMoves(s, k, action);
    } else {
      PassingMoves(s, k, action);
    }
  }

  lemma WritingMoves(s: Sys, k: WorkerId, action: Action)
    requires SysInv(s) && CleanInv(s) && k in s.workers
    requires action.Beat? || action.Authorize? || action.DisableRoute? || action.Remove? || action.Finalize?
    ensures Moves(s, WorkerDo(s, k, s.workers[k], action))
  {
    match action
    case Beat(now, duration) => BeatMoves(s, k, now, duration);
    case Authorize(now, duration) => AuthorizeMoves(s, k, now, duration);
    case DisableRoute(now) => DisableMoves(s, k, now);
    case Remove(kind, ok, gone) => RemoveMoves(s, k, kind, ok, gone);
    case Finalize(now) => FinalizeMoves(s, k, now);
  }

  /** A worker calls its work done, moves on, or gives its claim up. */
  lemma PassingMoves(s: Sys, k: WorkerId, action: Action)
    requires SysInv(s) && CleanInv(s) && k in s.workers
    requires action.FinishWork? || action.AdvancePhase? || action.Defer? || action.Reschedule? || action.Fail? || action.Stop?
    ensures Moves(s, WorkerDo(s, k, s.workers[k], action))
  {
    if action.FinishWork? {
      FinishMoves(s, k);
    } else if action.AdvancePhase? {
      AdvancingMoves(s, k, action.now);
    } else {
      LeavingMoves(s, k, action);
    }
  }

  lemma AdvancingMoves(s: Sys, k: WorkerId, now: Time)
    requires SysInv(s) && CleanInv(s) && k in s.workers
    ensures Moves(s, WorkerDo(s, k, s.workers[k], AdvancePhase(now)))
  {
    var s' := WorkerDo(s, k, s.workers[k], AdvancePhase(now));
    AdvanceCases(s, k, now);
    if s' == s { SameDeletionsMove(s, s'); } else { AdvanceMoves(s, k, now); }
  }

  lemma RetryMoves(s: Sys, p: ProjectId, confirmation: D.Confirmation, now: Time)
    requires SysInv(s) && Owned(s)
    ensures Moves(s, Do(s, RetryDeletion(p, confirmation, now)))
  {
    RetryKeepsJobs(s.deletions, p, p in s.host.db.projects, p in s.resources, confirmation, now);
    DeletionsMove(s, D.Retry(s.deletions, p, p in s.host.db.projects, p in s.resources, confirmation, now));
  }

  lemma TableStepMoves(s: Sys, step: Step)
    requires Owned(s) && (step.Fleet? || step.Recs? || step.EnsureDatabase? || step.OnSite?)
    ensures Moves(s, Do(s, step))
  {
    SameDeletionsMove(s, Do(s, step));
  }

  lemma StepMoves(s: Sys, step: Step)
    requires SysInv(s) && CleanInv(s) && !step.Appear?
    ensures Moves(s, Do(s, step))
  {
    match step
    case Act(k, action) => if k in s.workers { ActMoves(s, k, action); } else { SameDeletionsMove(s, s); }
    case TakeDeletion(k, p, now, duration) => TakeMoves(s, k, p, now, duration);
    case RequestDeletion(p, confirmation, now) => RequestMoves(s, p, confirmation, now);
    case RetryDeletion(p, confirmation, now) => RetryMoves(s, p, confirmation, now);
    case Host(_) => HostMoves(s, step);
    case Fleet(_) => TableStepMoves(s, step);
    case Recs(_) => TableStepMoves(s, step);
    case EnsureDatabase(_) => TableStepMoves(s, step);
    case OnSite(_) => TableStepMoves(s, step);
  }

  /** What appears belongs to a project none of whose later phases has begun, in anyone's mind. */
  lemma AppearKeepsClean(s: Sys, p: ProjectId, kind: Kind)
    requires SysInv(s) && CleanInv(s)
    ensures CleanInv(Do(s, Appear(p, kind)))
  {
    if MayAppear(s, p, kind) {
      AppearKeepsJobsClean(s, p, kind);
      forall k | k in s.workers ensures WorkClean(s.(present := s.present + {(p, kind)}), s.workers[k]) {
        assert WorkInv(s, s.workers[k]) && WorkClean(s, s.workers[k]);
        EarlyWorkStaysClean(s, p, kind, s.workers[k]);
      }
    }
  }

  lemma AppearKeepsJobsClean(s: Sys, p: ProjectId, kind: Kind)
    requires JobsClean(s) && Owned(s) && MayAppear(s, p, kind) && p in s.host.seen
    ensures var s' := s.(present := s.present + {(p, kind)}); JobsClean(s') && Owned(s')
  {
    var s' := s.(present := s.present + {(p, kind)});
    forall q | q in s'.deletions.jobs ensures PhaseClean(s'.present, q, s'.deletions.jobs[q].phase) {
      assert PhaseClean(s.present, q, s.deletions.jobs[q].phase);
    }
  }

  lemma EarlyWorkStaysClean(s: Sys, p: ProjectId, kind: Kind, work: Work)
    requires WorkInv(s, work) && WorkClean(s, work) && MayAppear(s, p, kind)
    ensures WorkClean(s.(present := s.present + {(p, kind)}), work)
  {
    if work.claim.project == p {
      assert D.Index(work.claim.job.phase) < 2;
    }
  }

  lemma StepKeepsClean(s: Sys, step: Step)
    requires SysInv(s) && CleanInv(s)
    ensures CleanInv(Do(s, step))
  {
    if step.Appear? {
      AppearKeepsClean(s, step.p, step.kind);
    } else {
      StepMoves(s, step);
      MovesKeepClean(s, Do(s, step));
    }
  }

  lemma {:induction false} CleanReachable(maxAttempts: nat, run: seq<Step>)
    ensures CleanInv(After(Init(maxAttempts), run))
    decreases |run|
  {
    if run != [] {
      CleanReachable(maxAttempts, run[..|run| - 1]);
      Reachable(maxAttempts, run[..|run| - 1]);
      StepKeepsClean(After(Init(maxAttempts), run[..|run| - 1]), run[|run| - 1]);
    }
  }

  lemma {:induction false} CleanRun(s: Sys, run: seq<Step>)
    requires SysInv(s) && CleanInv(s)
    ensures CleanInv(After(s, run))
    decreases |run|
  {
    if run != [] {
      CleanRun(s, run[..|run| - 1]);
      RunKeeps(s, run[..|run| - 1]);
      StepKeepsClean(After(s, run[..|run| - 1]), run[|run| - 1]);
    }
  }

  // ---------------------------------------------------------------- what it means

  /** In every reachable state a deletion job's phase tells what is no longer there. */
  lemma PhaseLeavesNoPart(maxAttempts: nat, run: seq<Step>, p: ProjectId, kind: Kind)
    requires PartKind(kind) && p in After(Init(maxAttempts), run).deletions.jobs
    ensures var s := After(Init(maxAttempts), run);
            CleanFrom(kind) <= D.Index(s.deletions.jobs[p].phase) ==> (p, kind) !in s.present
  {
    CleanReachable(maxAttempts, run);
    assert PhaseClean(After(Init(maxAttempts), run).present, p, After(Init(maxAttempts), run).deletions.jobs[p].phase);
  }

  /** A part of a project goes only by a removal that a worker was cleared for, with route and operations gone. */
  lemma PartsGoOnlyByClearedRemovals(maxAttempts: nat, run: seq<Step>, step: Step, p: ProjectId, kind: Kind)
    requires var s := After(Init(maxAttempts), run);
             (p, kind) in s.present && (p, kind) !in Do(s, step).present
    ensures var s := After(Init(maxAttempts), run);
            && step.Act? && step.k in s.workers && step.action.Remove? && step.action.kind == kind
            && s.workers[step.k].claim.project == p && s.workers[step.k].point == Cleared
            && R.RouteGone(s.host.db, p) && Quiesced(s.fleet, s.recs, p)
  {
    var s := After(Init(maxAttempts), run);
    OnlyRemovalsTake(s, step, p, kind);
    T.ClearedWorkerIsSafe(maxAttempts, run, step.k, kind, step.action.ok, step.action.gone);
  }

  lemma OnlyRemovalsTake(s: Sys, step: Step, p: ProjectId, kind: Kind)
    requires (p, kind) in s.present && (p, kind) !in Do(s, step).present
    ensures step.Act? && step.k in s.workers && step.action.Remove? && step.action.kind == kind
    ensures s.workers[step.k].claim.project == p && s.workers[step.k].point == Cleared
  {
  }

  /** When a project disappears it has no database, session, role or secret, and none ever comes back. */
  lemma NoPartIsLeft(maxAttempts: nat, run: seq<Step>, step: Step, more: seq<Step>, p: ProjectId)
    requires var s := After(Init(maxAttempts), run);
             p in s.host.db.projects && p !in Do(s, step).host.db.projects
    ensures var s := After(Init(maxAttempts), run);
            NoParts(s.present, p) && NoParts(After(Do(s, step), more).present, p)
  {
    var s := After(Init(maxAttempts), run);
    Reachable(maxAttempts, run);
    CleanReachable(maxAttempts, run);
    EndingHasNoParts(s, step, p);
    GoneOwnsNothingLater(s, step, more, p);
  }

  lemma EndingHasNoParts(s: Sys, step: Step, p: ProjectId)
    requires SysInv(s) && JobsClean(s) && Owned(s) && p in s.host.db.projects && p !in Do(s, step).host.db.projects
    ensures NoParts(s.present, p)
  {
    T.DroppingStep(s, step, p);
    LastPhaseHasNoParts(s, p);
  }

  lemma LastPhaseHasNoParts(s: Sys, p: ProjectId)
    requires JobsClean(s) && Owned(s) && p in s.deletions.jobs && s.deletions.jobs[p].phase == D.MetadataDelete
    ensures NoParts(s.present, p)
  {
    assert PhaseClean(s.present, p, D.MetadataDelete);
  }

  lemma GoneOwnsNothingLater(s: Sys, step: Step, more: seq<Step>, p: ProjectId)
    requires SysInv(s) && CleanInv(s) && p in s.host.db.projects && p !in Do(s, step).host.db.projects
    ensures NoParts(After(Do(s, step), more).present, p)
  {
    var s' := Do(s, step);
    StepKeeps(s, step);
    StepKeepsClean(s, step);
    T.StepIsSteady(s, step);
    T.RunIsSteady(s', more);
    CleanRun(s', more);
  }
}
