/**
 The deployment worker's own program: run_once and its failure handling. Between any two
 of its actions other workers, clocks and the API do what they like, and building, probing
 and cleaning up end as they may. Each action is a step of DeploymentFencing, so all that
 is proved about runs there holds of any number of these workers together.
 */
module DeploymentWorker {
  import opened Wrappers
  import opened Ids
  import opened DeploymentStore
  import opened DeploymentFencing
  import Effects = DeploymentEffects

  datatype RuntimeFailure = RuntimeFailure(info: FailureInfo, retryable: bool, cleanup: bool)

  datatype Processing = Done | Lost | Broke(failure: RuntimeFailure)

  /** How a turn ended: no work, the claim lost, or a write of the claim committed last. */
  datatype Turn = NoWork | ClaimGone | Recorded

  /** Only the worker that holds a claim uses it. */
  predicate Uses(s: Step, token: Token) {
    match s
    case RenewStep(t, _, _) => t == token
    case WriteStep(t, _, _) => t == token
    case JudgeStep(t, _) => t == token
    case ProcessStep(t) => t == token
    case _ => false
  }

  predicate Holds(w: World, c: Claim, stage: Stage) {
    c.token in w.claims && w.claims[c.token] == c && c.token in w.stages && w.stages[c.token] == stage
  }

  lemma OthersKeepClaim(w: World, s: Step, c: Claim, stage: Stage)
    requires WorldInv(w) && Holds(w, c, stage) && !Uses(s, c.token)
    ensures Holds(Do(w, s), c, stage)
  {
    assert ClaimInv(w, c.token);
  }

  lemma CallsGrow(w: World, s: Step)
    ensures w.calls <= Do(w, s).calls
  {
  }

  /** The claim is live until then. */
  ghost predicate HeldUntil(w: World, c: Claim, until: Time) {
    forall t :: Live(w.db, c, t) <==> t < until
  }

  lemma RenewalHolds(w: World, c: Claim, now: Time, duration: nat)
    requires c.token in w.claims && w.claims[c.token] == c && Live(w.db, c, now)
    ensures HeldUntil(Do(w, RenewStep(c.token, now, duration)), c, now + duration)
  {
    forall t ensures Live(Renew(w.db, c, now, duration).value, c, t) <==> t < now + duration {
      Effects.RenewalHoldsUntil(w.db, c, now, duration, t);
    }
  }

  /** A cleanup that fails is a failure of its own, worth another try. */
  const CLEANUP_FAILED := RuntimeFailure(FailureInfo("CLEANUP", "CANDIDATE_CLEANUP_FAILED"), true, true)

  class DeploymentWorker {
    const me: WorkerId
    const maxAttempts: nat
    const leaseDuration: nat
    var world: World
    ghost var trace: seq<Step>

    constructor (me: WorkerId, maxAttempts: nat, leaseDuration: nat)
      requires maxAttempts >= 1 && leaseDuration > 0
      ensures Valid() && trace == []
    {
      this.me, this.maxAttempts, this.leaseDuration := me, maxAttempts, leaseDuration;
      world, trace := Init(maxAttempts), [];
      new;
      Reachable(maxAttempts, []);
    }

    /** The tables are where the recorded run has taken them. */
    ghost predicate Valid()
      reads this
    {
      && maxAttempts >= 1 && leaseDuration > 0
      && world == After(Init(maxAttempts), trace) && WorldInv(world) && world.maxAttempts == maxAttempts
    }

    method Take(step: Step)
      requires Valid()
      modifies this`world, this`trace
      ensures Valid() && world == Do(old(world), step) && old(world).calls <= world.calls && trace == old(trace) + [step]
    {
      CallsGrow(world, step);
      world := Do(world, step);
      trace := trace + [step];
      assert trace[..|trace| - 1] == old(trace);
      Reachable(maxAttempts, trace);
    }

    method Others(c: Claim, ghost stage: Stage)
      requires Valid() && Holds(world, c, stage)
      modifies this`world, this`trace
      ensures Valid() && Holds(world, c, stage) && old(world).calls <= world.calls
    {
      var steps: int := *;
      while steps > 0
        invariant Valid() && Holds(world, c, stage) && old(world).calls <= world.calls
      {
        var step: Step := *;
        if !Uses(step, c.token) {
          OthersKeepClaim(world, step, c, stage);
          Take(step);
        }
        steps := steps - 1;
      }
    }

    /** A heartbeat; false means that the claim is lost. */
    method Heartbeat(c: Claim, ghost stage: Stage) returns (ok: bool)
      requires Valid() && Holds(world, c, stage)
      modifies this`world, this`trace
      ensures Valid() && Holds(world, c, stage) && old(world).calls <= world.calls
      ensures trace != [] && trace[|trace| - 1].RenewStep?
      ensures ok ==> HeldUntil(world, c, trace[|trace| - 1].now + leaseDuration)
    {
      Others(c, stage);
      var now: Time := *;
      ok := Live(world.db, c, now);
      if ok { RenewalHolds(world, c, now, leaseDuration); }
      Take(RenewStep(c.token, now, leaseDuration));
    }

    /** One write under the claim; when it commits, it is the newest write of all and the status is what it says. */
    method Write(c: Claim, ghost stage: Stage, write: Write) returns (ok: bool)
      requires Valid() && Holds(world, c, stage) && Allowed(write)
      modifies this`world, this`trace
      ensures Valid() && Holds(world, c, stage) && old(world).calls <= world.calls
      ensures ok ==> LastWriteIs(c, Finishes(write)) && c.deployment in world.db.deployments
      ensures ok && !write.Diagnose? ==> world.db.deployments[c.deployment].status == StatusAfter(write, Queued)
      ensures ok && (write.Fail? || write.Retry?) ==> world.db.deployments[c.deployment].failure == Some(write.failure)
    {
      Others(c, stage);
      var now: Time := *;
      ok := Commit(world.db, c, now, write).Success?;
      Take(WriteStep(c.token, now, write));
    }

    ghost predicate LastWriteIs(c: Claim, finishes: bool)
      reads this
    {
      |world.log| > 0 && world.log[|world.log| - 1] == Entry(c.deployment, c.attempts, finishes)
    }

    /** Entering a stage renews the lease and then advances the status. */
    method EnterStage(c: Claim, status: Status) returns (ok: bool)
      requires Valid() && Holds(world, c, Called) && DeploymentStore.Processing(status)
      modifies this`world, this`trace
      ensures Valid() && Holds(world, c, Called) && old(world).calls <= world.calls
    {
      ok := Heartbeat(c, Called);
      if ok { ok := Write(c, Called, Advance(status)); }
    }

    ghost predicate Started(c: Claim)
      reads this
    {
      Call(c.token, c.deployment, c.attempts) in world.calls
    }

    /** Building, starting and activating: any number of stages, ending well, badly, or with the claim lost. */
    method Process(c: Claim, ghost stage: Stage) returns (result: Processing)
      requires Valid() && Holds(world, c, stage) && MayProcess(world, c.token)
      modifies this`world, this`trace
      ensures Valid() && Holds(world, c, Called) && Started(c)
    {
      Take(ProcessStep(c.token));
      ghost var started := world.calls;
      assert started[|started| - 1] == Call(c.token, c.deployment, c.attempts);
      var stages: int := *;
      while stages > 0
        invariant Valid() && Holds(world, c, Called) && started <= world.calls
      {
        var status: Status := *;
        if DeploymentStore.Processing(status) {
          var ok := EnterStage(c, status);
          if !ok { return Lost; }
        }
        stages := stages - 1;
      }
      var breaks: bool, failure: RuntimeFailure := *, *;
      result := if breaks then Broke(failure) else Done;
    }

    /** Captures diagnostics under the claim; false when the claim turned out to be lost. */
    method Diagnose(c: Claim, ghost stage: Stage) returns (ok: bool)
      requires Valid() && Holds(world, c, stage)
      modifies this`world, this`trace
      ensures Valid() && Holds(world, c, stage) && old(world).calls <= world.calls
    {
      ok := Heartbeat(c, stage);
      if ok { ok := Write(c, stage, DeploymentStore.Diagnose); }
    }

    /** The last write of all is this claim's, and left its deployment like this. */
    ghost predicate Left(c: Claim, finishes: bool, status: Status)
      reads this
    {
      LastWriteIs(c, finishes) && c.deployment in world.db.deployments && world.db.deployments[c.deployment].status == status
    }

    /** The failure ended the deployment, or queued it again with attempts left. */
    ghost predicate LeftFailed(c: Claim)
      reads this
    {
      Left(c, true, Failed) || (Left(c, false, Queued) && c.attempts < maxAttempts)
    }

    /** The cause is on record, and the deployment queued again exactly if that may help and attempts are left. */
    ghost predicate SettledBy(c: Claim, cause: RuntimeFailure)
      reads this
    {
      && (if cause.retryable && c.attempts < maxAttempts then Left(c, false, Queued) else Left(c, true, Failed))
      && c.deployment in world.db.deployments && world.db.deployments[c.deployment].failure == Some(cause.info)
    }

    /** Another try exactly while attempts are left and it may help, the end otherwise. */
    method RecordFailure(c: Claim, ghost stage: Stage, cause: RuntimeFailure) returns (turn: Turn)
      requires Valid() && Holds(world, c, stage)
      modifies this`world, this`trace
      ensures Valid() && Holds(world, c, stage) && old(world).calls <= world.calls
      ensures turn == ClaimGone || turn == Recorded
      ensures turn == Recorded ==> SettledBy(c, cause)
    {
      var at: Time := *;
      var ok := Write(c, stage, if cause.retryable && c.attempts < maxAttempts then Retry(at, cause.info) else Fail(cause.info));
      turn := if ok then Recorded else ClaimGone;
    }

    /** Cleans up and records the failure; a cleanup that fails is the failure worth trying again. */
    method HandleFailure(c: Claim, ghost stage: Stage, failure: RuntimeFailure) returns (turn: Turn, ghost cause: RuntimeFailure)
      requires Valid() && Holds(world, c, stage)
      modifies this`world, this`trace
      ensures Valid() && Holds(world, c, stage) && old(world).calls <= world.calls
      ensures turn == ClaimGone || turn == Recorded
      ensures turn == Recorded ==> LeftFailed(c) && SettledBy(c, cause)
      ensures cause == failure || (failure.cleanup && cause == CLEANUP_FAILED)
    {
      var worst := failure;
      cause := failure;
      if failure.cleanup {
        var diagnoses: bool, lost: bool, cleaned: bool := *, *, *;
        if diagnoses {
          var ok := Diagnose(c, stage);
          if !ok { return ClaimGone, cause; }
        }
        if lost { return ClaimGone, cause; }
        if !cleaned { worst := CLEANUP_FAILED; }
      }
      cause := worst;
      turn := RecordFailure(c, stage, worst);
    }

    method Succeed(c: Claim, ghost stage: Stage) returns (turn: Turn)
      requires Valid() && Holds(world, c, stage)
      modifies this`world, this`trace
      ensures Valid() && Holds(world, c, stage) && old(world).calls <= world.calls
      ensures turn == ClaimGone || turn == Recorded
      ensures turn == Recorded ==> Left(c, true, Succeeded)
    {
      var beat := Heartbeat(c, stage);
      if !beat { return ClaimGone; }
      var ok := Write(c, stage, DeploymentStore.Succeed);
      turn := if ok then Recorded else ClaimGone;
    }

    /** A later attempt first finds out what the earlier one left behind. */
    method Judge(c: Claim) returns (verdict: Verdict)
      requires Valid() && Holds(world, c, Fresh) && c.attempts > 1
      modifies this`world, this`trace
      ensures Valid() && Holds(world, c, Judged(verdict)) && old(world).calls <= world.calls
    {
      Others(c, Fresh);
      verdict := *;
      Take(JudgeStep(c.token, verdict));
    }

    /** What processing came to is what is recorded. */
    ghost predicate Tells(c: Claim, result: Processing)
      reads this
    {
      match result
      case Done => Left(c, true, Succeeded)
      case Lost => false
      case Broke(failure) => SettledBy(c, failure) || (failure.cleanup && SettledBy(c, CLEANUP_FAILED))
    }

    method RunProcess(c: Claim, ghost stage: Stage) returns (turn: Turn, ghost result: Processing)
      requires Valid() && Holds(world, c, stage) && MayProcess(world, c.token)
      modifies this`world, this`trace
      ensures Valid() && Holds(world, c, Called) && (turn == ClaimGone || turn == Recorded)
      ensures turn == Recorded ==> (Left(c, true, Succeeded) || LeftFailed(c)) && Tells(c, result)
    {
      var processed := Process(c, stage);
      result := processed;
      match processed
      case Done => turn := Succeed(c, Called);
      case Lost => turn := ClaimGone;
      case Broke(failure) => ghost var cause; turn, cause := HandleFailure(c, Called, failure);
    }

    /**
     Works on a claim. A first attempt is processed. A later one asks what the earlier left:
     ACTIVE is recorded as success, uncertainty as a failure, and only a safe verdict within
     the limit is processed. What is recorded is the newest write of all.
     */
    method RunClaim(c: Claim) returns (turn: Turn, verdict: Option<Verdict>, ghost result: Option<Processing>)
      requires Valid() && Holds(world, c, Fresh)
      modifies this`world, this`trace
      ensures Valid() && (turn == ClaimGone || turn == Recorded)
      ensures verdict == None <==> c.attempts <= 1
      ensures Holds(world, c, if verdict == None || (verdict == Some(SafeToRetry) && c.attempts <= maxAttempts) then Called
                              else Judged(verdict.value))
      ensures turn == Recorded ==> Left(c, true, Succeeded) || LeftFailed(c)
      ensures turn == Recorded && verdict == Some(Active) ==> Left(c, true, Succeeded)
      ensures turn == Recorded && verdict == Some(Uncertain) ==> SettledBy(c, RuntimeFailure(UNCERTAIN, true, false))
      ensures turn == Recorded && verdict == Some(SafeToRetry) && c.attempts > maxAttempts ==> Left(c, true, Failed)
      ensures result.Some? <==> verdict == None || (verdict == Some(SafeToRetry) && c.attempts <= maxAttempts)
      ensures turn == Recorded && result.Some? ==> Tells(c, result.value)
    {
      ghost var processed, cause;
      if c.attempts <= 1 {
        turn, processed := RunProcess(c, Fresh);
        return turn, None, Some(processed);
      }
      var found := Judge(c);
      verdict, result := Some(found), None;
      match found
      case Active => turn := Succeed(c, Judged(Active));
      case Uncertain => turn, cause := HandleFailure(c, Judged(Uncertain), RuntimeFailure(UNCERTAIN, true, false));
      case SafeToRetry =>
        if c.attempts > maxAttempts {
          var exhausted := RuntimeFailure(FailureInfo("RECOVERY", "WORKER_RECOVERY_EXHAUSTED"), false, true);
          turn, cause := HandleFailure(c, Judged(SafeToRetry), exhausted);
        } else {
          turn, processed := RunProcess(c, Judged(SafeToRetry));
          result := Some(processed);
        }
    }

    /**
     One turn at the time read from the clock: nothing was due then, or the claim it takes, of
     a job that was, ends in a write of its own that nothing has followed yet, or is lost.
     */
    method RunOnce(now: Time) returns (turn: Turn, claim: Option<Claim>)
      requires Valid()
      modifies this`world, this`trace
      ensures Valid()
      ensures turn == NoWork <==> claim == None
      ensures turn == NoWork ==> world == old(world) && forall d :: d in world.db.jobs ==> !Claimable(world.db, d, now)
      ensures claim.Some? ==>
        var d := claim.value.deployment;
        Claimable(old(world).db, d, now) && claim.value == ClaimJob(old(world).db, d, me, now, leaseDuration).1
      ensures claim.Some? ==> claim.value.token in world.claims && claim.value.token !in old(world).claims
      ensures turn == Recorded ==> Left(claim.value, true, Succeeded) || LeftFailed(claim.value)
    {
      if forall d :: d in world.db.jobs ==> !Claimable(world.db, d, now) {
        return NoWork, None;
      }
      var d :| d in world.db.jobs && Claimable(world.db, d, now);
      var c := ClaimJob(world.db, d, me, now, leaseDuration).1;
      NextTokenIsNew(world);
      Take(ClaimStep(d, me, now, leaseDuration));
      var verdict;
      ghost var result;
      turn, verdict, result := RunClaim(c);
      claim := Some(c);
    }
  }

  lemma NextTokenIsNew(w: World)
    requires WorldInv(w)
    ensures w.db.nextToken !in w.claims
  {
    assert forall t :: t in w.claims ==> ClaimInv(w, t);
  }
}
