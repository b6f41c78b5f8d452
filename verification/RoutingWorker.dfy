/**
 The routing worker's own program: reconcile_startup, run_once and, under the file lock,
 apply and its restore. Between any two of its actions the API and the deletion worker may
 commit anything. Each action is a step of RoutingHost, so all that is proved about runs
 there holds of this program; cut short anywhere, it leaves a run that Crash continues.
 */
module RoutingWorker {
  import opened Wrappers
  import opened Ids
  import opened RouteStore
  import opened RoutingHost
  import Reports = RoutingReports
  import S = RoutingSafety
  import T = RoutingTheorems

  /** Transactions of others leave the worker and its files alone. */
  lemma OthersKeepWorker(w: World, s: Step)
    requires ApiStep(s)
    ensures var w' := Do(w, s);
            w'.worker == w.worker && w'.files == w.files && w'.stale == w.stale && w'.maxAttempts == w.maxAttempts
  {
  }

  lemma LimitIsFixed(w: World, s: Step)
    ensures Do(w, s).maxAttempts == w.maxAttempts
  {
    if ApiStep(s) { OthersKeepWorker(w, s); }
  }

  /** The stage an action of apply leads to when nothing goes wrong. */
  function Next(stage: Stage, s: Step): Option<Stage> {
    match s
    case Validate => if stage == Entered then Some(Validated) else None
    case Fence(_, _) =>
      if stage == Validated then Some(Fenced) else if stage == Fenced then Some(Tested)
      else if stage == Probed then Some(Authorized) else None
    case ReadCurrent => if stage == Tested then Some(Read) else None
    case WriteJournal => if stage == Read then Some(Journaled) else None
    case Switch => if stage == Journaled then Some(Switched) else None
    case Probe => if stage == Switched then Some(Probed) else None
    case MarkCommitted => if stage == Finalized then Some(Marked) else None
    case _ => None
  }

  /** The worker after apply raised f at this stage, before the restore if one is due. */
  function RaisedWorker(stage: Stage, work: Work, f: Failure): Worker {
    if SwitchedOpen(stage) then InRestore(false, work, f) else Exit(work.mode, f)
  }

  /** What an action of apply raises when it refuses by itself. */
  function Refusal(w: World, s: Step): Failure
    requires w.worker.InApply?
  {
    if s.Fence? && FenceDo(w, w.worker.work, s.now, s.duration).Failure?
    then FenceDo(w, w.worker.work, s.now, s.duration).error
    else EdgeFailure(false, true)
  }

  predicate Advanced(w: World, w': World, next: Stage)
    requires w.worker.InApply?
  {
    && w'.worker.InApply? && w'.worker.stage == next
    && w'.worker.work == w.worker.work.(previous := w'.worker.work.previous)
  }

  lemma FenceActs(w: World, s: Step, next: Stage)
    requires w.worker.InApply? && s.Fence? && Next(w.worker.stage, s) == Some(next)
    ensures Advanced(w, Do(w, s), next) || Do(w, s).worker == RaisedWorker(w.worker.stage, w.worker.work, Refusal(w, s))
  {
  }

  lemma ActionActs(w: World, s: Step, next: Stage)
    requires w.worker.InApply? && Next(w.worker.stage, s) == Some(next)
    ensures Advanced(w, Do(w, s), next) || Do(w, s).worker == RaisedWorker(w.worker.stage, w.worker.work, Refusal(w, s))
  {
    if s.Fence? { FenceActs(w, s, next); }
  }

  lemma ThrowActs(w: World, f: Failure)
    requires w.worker.InApply? && (f.EdgeFailure? || f.Unexpected?)
    ensures Do(w, Throw(f)).worker == RaisedWorker(w.worker.stage, w.worker.work, f)
  {
  }

  lemma HeartbeatActs(w: World, now: Time, duration: nat)
    ensures var w' := Do(w, Heartbeat(now, duration));
            && (w.worker.InApply? ==> w'.worker == w.worker || w'.worker == RaisedWorker(w.worker.stage, w.worker.work, ClaimGone))
            && (w.worker.InRestore? && w.worker.written ==>
                  w'.worker == w.worker || w'.worker == Exit(w.worker.work.mode, ClaimGone))
  {
  }

  lemma PlanActs(w: World, size: nat)
    requires w.worker.Holding?
    ensures var worker := Do(w, Plan(size)).worker;
            || worker == Reporting(w.worker.claim, Because(EdgeFailure(false, false)), false)
            || (worker.InApply? && worker.stage == Entered && worker.work.mode == Serve(w.worker.claim))
  {
  }

  lemma PlanFailsActs(w: World, f: Failure, notReady: bool)
    requires w.worker.Holding? && (notReady || f.EdgeFailure? || f.Unexpected?)
    ensures Do(w, PlanFails(f, notReady)).worker == Reporting(w.worker.claim, if notReady then NotReady else Because(f), false)
  {
  }

  class PublicRouteWorker {
    const maxAttempts: nat
    const leaseDuration: nat
    var world: World
    var reconciliationRequired: bool
    ghost var trace: seq<Step>

    constructor (maxAttempts: nat, leaseDuration: nat)
      requires leaseDuration > 0
      ensures Valid() && trace == [] && world.worker == Down && !reconciliationRequired
    {
      this.maxAttempts, this.leaseDuration := maxAttempts, leaseDuration;
      world, trace, reconciliationRequired := Init(maxAttempts), [], false;
    }

    /** The system is where the recorded run has taken it. */
    ghost predicate Valid()
      reads this
    {
      leaseDuration > 0 && world == After(Init(maxAttempts), trace) && world.maxAttempts == maxAttempts
    }

    method Take(step: Step)
      requires Valid()
      modifies this`world, this`trace
      ensures Valid() && trace == old(trace) + [step] && world == Do(old(world), step)
    {
      LimitIsFixed(world, step);
      world := Do(world, step);
      trace := trace + [step];
      assert trace[..|trace| - 1] == old(trace);
    }

    /** Everyone else commits some transactions. */
    method Others()
      requires Valid()
      modifies this`world, this`trace
      ensures Valid() && old(trace) <= trace
      ensures world.worker == old(world).worker && world.files == old(world).files && world.stale == old(world).stale
    {
      var steps: int := *;
      while steps > 0
        invariant Valid() && old(trace) <= trace
        invariant world.worker == old(world).worker && world.files == old(world).files && world.stale == old(world).stale
      {
        var step: Step := *;
        if ApiStep(step) {
          OthersKeepWorker(world, step);
          Take(step);
        }
        steps := steps - 1;
      }
    }

    method Perform(step: Step) returns (ghost before: World)
      requires Valid()
      modifies this`world, this`trace
      ensures Valid() && old(trace) <= trace && world == Do(before, step) && before.maxAttempts == maxAttempts
      ensures before.worker == old(world).worker && before.files == old(world).files && before.stale == old(world).stale
    {
      Others();
      before := world;
      Take(step);
    }

    // ---------------------------------------------------------------- apply

    /** The state after apply raised f at this stage. */
    ghost predicate Raised(stage: Stage, work: Work, f: Failure)
      reads this
    {
      world.worker == RaisedWorker(stage, work, f)
    }

    /** A heartbeat in the course of apply; false when the claim turned out to be lost. */
    method Beat() returns (ok: bool)
      requires Valid() && world.worker.InApply?
      modifies this`world, this`trace
      ensures Valid() && old(trace) <= trace
      ensures if ok then world.worker == old(world).worker
              else Raised(old(world).worker.stage, old(world).worker.work, ClaimGone)
    {
      var now: Time, duration: nat := *, *;
      var worker := world.worker;
      ghost var before := Perform(Heartbeat(now, duration));
      HeartbeatActs(before, now, duration);
      ok := world.worker == worker;
    }

    method Fail(f: Failure)
      requires Valid() && world.worker.InApply? && (f.EdgeFailure? || f.Unexpected?)
      modifies this`world, this`trace
      ensures Valid() && old(trace) <= trace && Raised(old(world).worker.stage, old(world).worker.work, f)
    {
      ghost var before := Perform(Throw(f));
      ThrowActs(before, f);
    }

    /** The action itself, which may be refused. */
    method Try(step: Step, next: Stage) returns (raised: Option<Failure>)
      requires Valid() && world.worker.InApply? && Next(world.worker.stage, step) == Some(next)
      modifies this`world, this`trace
      ensures Valid() && old(trace) <= trace
      ensures raised == None ==> Advanced(old(world), world, next)
      ensures raised.Some? ==> Raised(old(world).worker.stage, old(world).worker.work, raised.value)
    {
      Others();
      var refusal := Refusal(world, step);
      ghost var before := world;
      Take(step);
      ActionActs(before, step, next);
      raised := if world.worker.InApply? && world.worker.stage == next then None else Some(refusal);
    }

    /** One action of apply, which may come with a heartbeat and may fail before it takes effect. */
    method Act(step: Step, next: Stage) returns (raised: Option<Failure>)
      requires Valid() && world.worker.InApply? && Next(world.worker.stage, step) == Some(next)
      modifies this`world, this`trace
      ensures Valid() && old(trace) <= trace
      ensures raised == None ==> Advanced(old(world), world, next)
      ensures raised.Some? ==> Raised(old(world).worker.stage, old(world).worker.work, raised.value)
    {
      var beats: bool, fails: bool, f: Failure := *, *, *;
      if beats {
        var ok := Beat();
        if !ok { return Some(ClaimGone); }
      }
      if fails && (f.EdgeFailure? || f.Unexpected?) {
        Fail(f);
        return Some(f);
      }
      raised := Try(step, next);
    }

    /** Finalizing: the claim's completion may be refused, or its answer may be lost. */
    method FinalizeClaim() returns (raised: Option<Failure>)
      requires Valid() && world.worker.InApply? && world.worker.stage == Authorized
      modifies this`world, this`trace
      ensures Valid() && old(trace) <= trace
      ensures raised == None ==> world.worker == InApply(Finalized, old(world).worker.work)
      ensures raised.Some? ==>
                if raised.value == FinalizeUncertain then world.worker == Exit(old(world).worker.work.mode, FinalizeUncertain)
                else Raised(Authorized, old(world).worker.work, raised.value)
    {
      var now: Time, lost: bool, committed: bool := *, *, *;
      ghost var before := Perform(Finalize(now, if lost then AnswerLost(committed) else Answered));
      if world.worker.InApply? { return None; }
      raised := Some(if world.worker.InRestore? then FinalizeRejected else FinalizeUncertain);
    }

    /** Everything apply checks before it looks at the current file. */
    method Admit() returns (raised: Option<Failure>)
      requires Valid() && world.worker.InApply? && world.worker.stage == Entered
      modifies this`world, this`trace
      ensures Valid() && old(trace) <= trace
      ensures raised == None ==> Advanced(old(world), world, Tested)
      ensures raised.Some? ==> world.worker == Exit(old(world).worker.work.mode, raised.value)
    {
      var now: Time, duration: nat := *, *;
      raised := Act(Validate, Validated);
      if raised.Some? { return; }
      raised := Act(Fence(now, duration), Fenced);
      if raised.Some? { return; }
      raised := Act(Fence(now, duration), Tested);
    }

    /** The part of apply before the file is switched. */
    method Prepare() returns (raised: Option<Failure>)
      requires Valid() && world.worker.InApply? && world.worker.stage == Entered
      modifies this`world, this`trace
      ensures Valid() && old(trace) <= trace
      ensures raised == None ==> Advanced(old(world), world, Journaled)
      ensures raised.Some? ==> world.worker == Exit(old(world).worker.work.mode, raised.value)
    {
      raised := Admit();
      if raised.Some? { return; }
      raised := Act(ReadCurrent, Read);
      if raised.Some? { return; }
      raised := Act(WriteJournal, Journaled);
    }

    /** The part of apply in which a failure puts the old file back. */
    method SwitchAndProbe() returns (raised: Option<Failure>)
      requires Valid() && world.worker.InApply? && world.worker.stage == Journaled
      modifies this`world, this`trace
      ensures Valid() && old(trace) <= trace
      ensures raised == None ==> Advanced(old(world), world, Authorized)
      ensures raised.Some? ==>
                || world.worker == Exit(old(world).worker.work.mode, raised.value)
                || (&& world.worker.InRestore? && !world.worker.written && world.worker.failure == raised.value
                    && world.worker.work.mode == old(world).worker.work.mode)
    {
      var now: Time, duration: nat := *, *;
      raised := Act(Switch, Switched);
      if raised.Some? { return; }
      raised := Act(Probe, Probed);
      if raised.Some? { return; }
      raised := Act(Fence(now, duration), Authorized);
    }

    /** Reloads and probes with the old file in place, and clears the journal. */
    method ConfirmRestored() returns (raised: Failure)
      requires Valid() && world.worker.InRestore? && world.worker.written
      modifies this`world, this`trace
      ensures Valid() && old(trace) <= trace && world.worker == Exit(old(world).worker.work.mode, raised)
      ensures raised in {old(world).worker.failure, ClaimGone, EdgeFailure(false, true), Unexpected}
    {
      var worker := world.worker;
      var beats: bool, fails: bool, f: Failure, now: Time, duration: nat := *, *, *, *, *;
      ghost var before;
      if beats {
        before := Perform(Heartbeat(now, duration));
        HeartbeatActs(before, now, duration);
        if world.worker != worker { return ClaimGone; }
      }
      raised := Conclude(if fails && (f.EdgeFailure? || f.Unexpected?) then Some(f) else None);
    }

    method Conclude(fails: Option<Failure>) returns (raised: Failure)
      requires Valid() && world.worker.InRestore? && world.worker.written
      requires fails.Some? ==> fails.value.EdgeFailure? || fails.value.Unexpected?
      modifies this`world, this`trace
      ensures Valid() && old(trace) <= trace && world.worker == Exit(old(world).worker.work.mode, raised)
      ensures raised == if fails == None then old(world).worker.failure
                        else if fails.value.EdgeFailure? then EdgeFailure(false, true) else Unexpected
    {
      raised := if fails == None then world.worker.failure else if fails.value.EdgeFailure? then EdgeFailure(false, true) else Unexpected;
      ghost var before := Perform(if fails == None then RestoreDone else RestoreThrows(fails.value));
    }

    /** Puts the old file back. */
    method Restore() returns (raised: Failure)
      requires Valid() && world.worker.InRestore? && !world.worker.written
      modifies this`world, this`trace
      ensures Valid() && old(trace) <= trace && world.worker == Exit(old(world).worker.work.mode, raised)
      ensures raised in {old(world).worker.failure, ClaimGone, EdgeFailure(false, true), Unexpected}
    {
      var writes: bool := *;
      ghost var before := Perform(if writes then RestoreWrite else RestoreWriteFails);
      if world.worker.InRestore? {
        raised := ConfirmRestored();
      } else {
        raised := if writes then EdgeFailure(false, true) else Unexpected;
      }
    }

    method ForgetJournal()
      requires Valid() && world.worker.InApply? && world.worker.stage == Marked
      modifies this`world, this`trace
      ensures Valid() && old(trace) <= trace && world.worker == Idle(false) && world.stale == None && world.files.journal == None
      ensures world.files.config == Some(old(world).worker.work.rendered)
    {
      S.Reachable(maxAttempts, trace);
      ghost var before := Perform(ClearJournal);
    }

    /** After the commit nothing is restored any more; only the journal is left to clear. */
    method CloseTransaction() returns (raised: Option<Failure>)
      requires Valid() && world.worker.InApply? && world.worker.stage == Finalized
      modifies this`world, this`trace
      ensures Valid() && old(trace) <= trace
      ensures raised == None ==> world.worker == Idle(false) && world.stale == None && world.files.journal == None
      ensures raised == None ==> world.files.config == Some(old(world).worker.work.rendered)
      ensures raised.Some? ==> world.worker == Exit(old(world).worker.work.mode, raised.value)
    {
      raised := Act(MarkCommitted, Marked);
      if raised.Some? { return; }
      var fails: bool := *;
      if fails {
        Fail(EdgeFailure(false, true));
        raised := Some(EdgeFailure(false, true));
      } else {
        ForgetJournal();
      }
    }

    method Apply() returns (raised: Option<Failure>)
      requires Valid() && world.worker.InApply? && world.worker.stage == Entered
      modifies this`world, this`trace
      ensures Valid() && old(trace) <= trace
      ensures raised == None ==> world.worker == Idle(false) && world.stale == None && world.files.journal == None
      ensures raised == None ==> world.files.config == Some(old(world).worker.work.rendered)
      ensures raised.Some? ==> world.worker == Exit(old(world).worker.work.mode, raised.value)
    {
      raised := Prepare();
      if raised.Some? { return; }
      raised := SwitchAndProbe();
      if raised == None {
        raised := FinalizeClaim();
        if raised == None {
          raised := CloseTransaction();
          return;
        }
        if raised == Some(FinalizeUncertain) { return; }
      }
      if world.worker.InRestore? {
        var f := Restore();
        raised := Some(f);
      }
    }

    // ---------------------------------------------------------------- the worker loop's two entry points

    /** Rewrites the file from the applied routes; false leaves the worker where it was, or the error escapes. */
    method ReconcileStartup() returns (ok: bool, ghost raised: Option<Failure>)
      requires Valid() && (world.worker == Booted || world.worker == Idle(true))
      modifies this`world, this`trace
      ensures Valid() && old(trace) <= trace
      ensures ok ==> world.worker == Idle(false) && world.stale == None && RoutesOf(world.files.config) == AppliedHosts(world.db)
      ensures ok <==> raised == None
      ensures raised.Some? ==> world.worker == if raised.value.EdgeFailure? || raised.value.SnapshotChanged? then old(world).worker else Down
    {
      var size: nat := *;
      ghost var before := Perform(BeginReconcile(size));
      if !world.worker.InApply? { return false, Some(EdgeFailure(false, false)); }
      var failure := Apply();
      T.FileShowsApplied(maxAttempts, trace);
      ok, raised := failure == None, failure;
    }

    /** The last step of the record reported the cause: the claim's rows are what that leaves, if the claim was still live. */
    ghost predicate Delivered(c: Claim, cause: Cause)
      reads this
    {
      && trace != [] && trace[|trace| - 1].Deliver?
      && var s, before := trace[|trace| - 1], After(Init(maxAttempts), trace[..|trace| - 1]).db;
         Reports.Reported(before, world.db, c, cause, maxAttempts, s.now, s.availableAt, s.code)
    }

    /** Reports what became of the claim; losing the claim in the meantime is not an error. */
    method HandleFailure()
      requires Valid() && world.worker.Reporting?
      modifies this`world, this`trace, this`reconciliationRequired
      ensures Valid() && old(trace) <= trace && reconciliationRequired == old(world).worker.repairNeeded
      ensures || world.worker == Down
              || (&& world.worker == Idle(reconciliationRequired)
                  && Delivered(old(world).worker.claim, old(world).worker.cause))
    {
      var breaks: bool, now: Time, at: Time, code: string := *, *, *, *;
      reconciliationRequired := world.worker.repairNeeded;
      Others();
      if breaks {
        Take(DeliverFails);
      } else {
        Reports.DeliveryReports(world, now, at, code);
        Take(Deliver(now, at, code));
      }
    }

    /** Attaches the gateway and plans the file, either of which may fail. */
    method PlanFile() returns (ghost cause: Option<Cause>)
      requires Valid() && world.worker.Holding?
      modifies this`world, this`trace
      ensures Valid() && old(trace) <= trace
      ensures cause == None ==>
        world.worker.InApply? && world.worker.stage == Entered && world.worker.work.mode == Serve(old(world).worker.claim)
      ensures cause.Some? ==> world.worker == Reporting(old(world).worker.claim, cause.value, false)
      ensures cause.Some? && cause.value.Because? ==> cause.value.failure.EdgeFailure? || cause.value.failure.Unexpected?
    {
      var attached: bool, notReady: bool, f: Failure, size: nat := *, *, *, *;
      ghost var before;
      if !attached && (notReady || f.EdgeFailure? || f.Unexpected?) {
        before := Perform(PlanFails(f, notReady));
        PlanFailsActs(before, f, notReady);
        cause := Some(if notReady then NotReady else Because(f));
      } else {
        before := Perform(Plan(size));
        PlanActs(before, size);
        cause := if world.worker.InApply? then None else Some(Because(EdgeFailure(false, false)));
      }
    }

    /**
     How the turn for a claim ends: in the plan applied; without a word when the claim turned
     out to be lost or refused; and otherwise in a report of what was raised, unless the
     process breaks over that. Only an unknown outcome of the commit calls for a repair.
     */
    ghost predicate Ended(c: Claim, cause: Option<Cause>)
      reads this
    {
      && (world.worker == Down || world.worker == Idle(reconciliationRequired))
      && (reconciliationRequired <==> cause == Some(Because(FinalizeUncertain)))
      && (cause == None ==> world.worker == Idle(false) && world.stale == None && world.files.journal == None)
      && (cause.Some? ==>
            if cause.value == Because(ClaimGone) || cause.value == Because(FinalizeRejected) then world.worker == Idle(false)
            else world.worker == Down || Delivered(c, cause.value))
    }

    /** Works on the claim just taken, and reports a failure. */
    method Process() returns (ghost cause: Option<Cause>)
      requires Valid() && world.worker.Holding? && !reconciliationRequired
      modifies this
      ensures Valid() && old(trace) <= trace && Ended(old(world).worker.claim, cause)
    {
      cause := PlanFile();
      if world.worker.InApply? {
        var raised := Apply();
        cause := if raised.Some? then Some(Because(raised.value)) else None;
      }
      if world.worker.Reporting? { HandleFailure(); }
    }

    /** Step i of the record is the claim, at that time, of a job that was claimable then. */
    ghost predicate TookAt(record: seq<Step>, i: nat, now: Time)
      requires i < |record|
    {
      && record[i].TakeJob? && record[i].now == now
      && Claimable(After(Init(maxAttempts), record[..i]).db, record[i].p, now)
    }

    ghost function ClaimTaken(record: seq<Step>, i: nat): Claim
      requires i < |record| && record[i].TakeJob?
      requires Claimable(After(Init(maxAttempts), record[..i]).db, record[i].p, record[i].now)
    {
      ClaimJob(After(Init(maxAttempts), record[..i]).db, record[i].p, record[i].owner, record[i].now, record[i].duration).1
    }

    method TakeClaimable(p: ProjectId, now: Time)
      requires Valid() && world.worker == Idle(reconciliationRequired) && Claimable(world.db, p, now) && !reconciliationRequired
      modifies this`world, this`trace
      ensures Valid() && old(trace) <= trace && |trace| == |old(trace)| + 1 && TookAt(trace, |old(trace)|, now)
      ensures trace[|old(trace)|].p == p && trace[|old(trace)|].duration == leaseDuration
      ensures world == Do(old(world), trace[|old(trace)|]) && world.worker == Holding(ClaimTaken(trace, |old(trace)|))
    {
      var owner: WorkerId := *;
      Take(TakeJob(p, owner, now, leaseDuration));
      assert trace[..|old(trace)|] == old(trace);
    }

    /**
     One turn, which claims at the time it reads from the clock. Whenever it returns with the
     process alive and no reconciliation owed, the file shows the applied routes, unless a
     restore could not write the old file back. It reports no work only when it owes a
     reconciliation that failed or no job was due at that time.
     */
    method RunOnce(now: Time) returns (worked: bool, ghost cause: Option<Cause>)
      requires Valid() && world.worker == Idle(reconciliationRequired)
      modifies this
      ensures Valid() && old(trace) <= trace && (world.worker == Down || world.worker == Idle(reconciliationRequired))
      ensures world.worker == Idle(false) && world.stale == None ==> RoutesOf(world.files.config) == AppliedHosts(world.db)
      ensures worked ==> exists i :: |old(trace)| <= i < |trace| && TookAt(trace, i, now) && Ended(ClaimTaken(trace, i), cause)
      ensures !worked && world.worker == Idle(false) ==> forall p :: p in world.db.jobs ==> !Claimable(world.db, p, now)
    {
      if reconciliationRequired {
        var ok, failure := ReconcileStartup();
        if !ok {
          T.FileShowsApplied(maxAttempts, trace);
          return false, None;
        }
        reconciliationRequired := false;
      }
      Others();
      if forall p :: p in world.db.jobs ==> !Claimable(world.db, p, now) {
        T.FileShowsApplied(maxAttempts, trace);
        return false, None;
      }
      var p :| p in world.db.jobs && Claimable(world.db, p, now);
      ghost var i := |trace|;
      TakeClaimable(p, now);
      ghost var claimed, c := trace, world.worker.claim;
      cause := Process();
      assert trace[i] == claimed[i] && trace[..i] == claimed[..i];
      assert TookAt(trace, i, now) && ClaimTaken(trace, i) == c;
      T.FileShowsApplied(maxAttempts, trace);
      worked := true;
    }
  }
}
