/**
 The deletion worker's own program. Between any two of its actions everyone else may take
 any number of steps, and every lock, command and clock reading may come out either way.
 Each of its actions, and each of its teardown's, is a step of DeletionSystem, so all that
 is proved about runs there holds of this program.
 */
module DeletionWorker {
  import opened Wrappers
  import opened Ids
  import opened DeletionSystem
  import opened DeletionSafety
  import opened DeletionSession
  import D = DeletionStore
  import F = DeploymentStore
  import Route = DeletionRoute
  import Sweep = DeletionSweep
  import TD = Teardown
  import Theorems = DeletionTheorems
  import TO = TeardownOutcome
  import TR = TeardownRun

  datatype Outcome = Finished | Deferred | ClaimLost | Raised(retryable: bool)

  /** Trying again may help with a failed command, a lost claim or a refused guard. */
  predicate MayHelp(error: TD.Error) {
    error == TD.Unsure(true) || error == TD.ClaimLost || error == TD.GuardRejected
  }

  /** Authorized, removed with success, and called done, in this order and nothing else. */
  predicate RemovedInOrder(did: seq<Action>, kind: Kind) {
    |did| == 3 && did[0].Authorize? && did[1].Remove? && did[1].kind == kind && did[1].ok && did[2].FinishWork?
  }

  /** What the records imply is not there, and nothing carries the project's label. */
  ghost predicate Absent(s: Sys, p: ProjectId, records: Records) {
    && TO.AllAbsent(s.site.objects, TD.Expected(p, records.deployments, records.runtime))
    && TO.NothingLabelled(s.site.objects, p)
    && forall i :: 0 <= i < |TD.Targets(p, records.deployments)| ==> TD.Targets(p, records.deployments)[i] !in s.site.directories
  }

  /** What a worker saw to be absent is absent now. */
  lemma LookedIsAbsent(s: Sys, work: Work)
    requires Sweep.WorkSite(s, work) && LookedThrough(work.claim.project, work.notes)
    ensures Absent(s, work.claim.project, work.notes.records.value)
  {
    var p, records := work.claim.project, work.notes.records.value;
    var rs, ts := TD.Expected(p, records.deployments, records.runtime), TD.Targets(p, records.deployments);
    forall i | 0 <= i < |rs| ensures TD.KeyOf(rs[i]) !in s.site.objects {
      TD.ExpectedBearsName(p, records.deployments, records.runtime, rs[i]);
      assert Sweep.SightHolds(s, p, NoObject(TD.KeyOf(rs[i])));
    }
    forall k | k in s.site.objects ensures s.site.objects[k].labels.project != Some(p) {
      assert NoLabel(k.docker) in work.notes.sights by { match k.docker case Container => case Network => case Image => }
      assert Sweep.SightHolds(s, p, NoLabel(k.docker));
    }
    forall i | 0 <= i < |ts| ensures ts[i] !in s.site.directories {
      assert Sweep.SightHolds(s, p, NoDirectory(ts[i]));
    }
  }

  lemma NotedPartsAreAbsent(s: Sys, work: Work)
    requires Sweep.WorkSite(s, work)
    ensures forall kind :: NoPart(kind) in work.notes.sights ==> (work.claim.project, kind) !in s.present
  {
    forall kind | NoPart(kind) in work.notes.sights ensures (work.claim.project, kind) !in s.present {
      assert Sweep.SightHolds(s, work.claim.project, NoPart(kind));
    }
  }

  /** The rows of the project's deployments, in some order. */
  method SelectRows(fleet: F.Db, p: ProjectId) returns (rows: seq<TD.Deployment>)
    ensures Listed(fleet, p, rows)
  {
    rows := [];
    var left := F.OfProject(fleet, p);
    while left != {}
      invariant left <= F.OfProject(fleet, p)
      invariant forall i :: 0 <= i < |rows| ==> rows[i].id in F.OfProject(fleet, p) - left && rows[i] == RowOf(fleet, rows[i].id)
      invariant TD.DistinctIds(rows)
      invariant forall d :: d in F.OfProject(fleet, p) - left ==> HasRow(rows, d)
      decreases |left|
    {
      var d :| d in left;
      ghost var before := rows;
      rows, left := rows + [RowOf(fleet, d)], left - {d};
      forall e | e in F.OfProject(fleet, p) - left ensures HasRow(rows, e) {
        if e == d {
          assert rows[|before|].id == e;
        } else {
          assert HasRow(before, e);
          var i :| 0 <= i < |before| && before[i].id == e;
          assert rows[i].id == e;
        }
      }
    }
  }

  class ProjectDeletionWorker {
    const session: Session
    const maxAttempts: nat

    constructor (session: Session, maxAttempts: nat)
      ensures this.session == session && this.maxAttempts == maxAttempts
    {
      this.session, this.maxAttempts := session, maxAttempts;
    }

    ghost predicate Valid()
      reads session
    {
      session.Valid()
    }

    function Memory(): Option<Work>
      reads session
    {
      session.Memory()
    }

    predicate InPhase(phase: D.Phase, point: Point)
      reads session
    {
      session.InPhase(phase, point)
    }

    /** The same claim in the same phase, at this point of it. */
    twostate predicate Stays(point: Point)
      reads session
    {
      && old(Memory()).Some? && Memory().Some?
      && Memory().value.claim == old(Memory()).value.claim && Memory().value.point == point
    }

    method Advance() returns (ok: bool)
      requires Valid() && Memory().Some? && ReadyToAdvance(Memory().value)
      modifies session
      ensures Valid() && session.Continues()
      ensures ok <==> Memory().Some?
      ensures ok ==> InPhase(D.PHASES[D.Index(old(Memory()).value.claim.job.phase) + 1], AtPhase)
      ensures ok ==> Memory().value.claim.project == old(Memory()).value.claim.project && Memory().value.notes == NO_NOTES
    {
      var now: Time := *;
      ghost var before := session.Perform(AdvancePhase(now));
      ok := session.me in session.sys.workers;
    }

    /** A heartbeat and the guard; with either failing the worker gives up without another word. */
    method Authorize() returns (ok: bool)
      requires Valid() && Memory().Some? && Memory().value.point in {AtPhase, Cleared}
      modifies session
      ensures Valid() && session.Continues() && session.attempts == old(session.attempts)
      ensures if ok then Memory() == Some(old(Memory()).value.(point := Cleared)) else Memory() == None
      ensures ok ==>
        && |session.mine| == |old(session.mine)| + 1 && old(session.mine) <= session.mine
        && session.mine[|old(session.mine)|].Authorize?
    {
      ok := session.Authorize();
      if !ok { ghost var before := session.Perform(Stop); }
    }

    /** Calls the work of the phase done, which the notes must bear out. */
    method Finish()
      requires Valid() && Memory().Some? && MayFinish(Memory().value)
      modifies session
      ensures Valid() && session.Continues() && session.attempts == old(session.attempts)
      ensures session.mine == old(session.mine) + [FinishWork]
      ensures Memory() == Some(old(Memory()).value.(point := Worked))
    {
      ghost var before := session.Perform(FinishWork);
    }

    method GiveUp()
      requires Valid() && Memory().Some?
      modifies session
      ensures Valid() && session.Continues() && Memory() == None
      ensures LastAction().Some? && LastAction().value.Defer?
    {
      var now: Time, at: Time := *, *;
      ghost var before := session.Perform(Defer(now, at));
    }

    method Disable()
      requires Valid() && InPhase(D.RouteDisabling, Cleared)
      modifies session
      ensures Valid() && session.Continues() && Memory() == Some(old(Memory()).value.(point := AtPhase))
      ensures Route.RouteGoesOff(session.sys, Memory().value.claim.project)
    {
      var now: Time := *;
      ghost var before := session.Perform(Action.DisableRoute(now));
      WasSafe(before);
      Route.DisablingTurnsOff(before, session.me, now);
    }

    lemma WasSafe(before: Sys)
      requires Valid() && session.trace != [] && session.states[|session.trace| - 1] == before
      ensures SysInv(before)
    {
      session.RecordedAt(|session.trace| - 1);
      Sweep.SystemIsSafe(session.routeAttempts, session.trace[..|session.trace| - 1]);
    }

    /** Once off, the route stays off. */
    lemma StillOff(since: nat, p: ProjectId)
      requires Valid() && since <= |session.trace|
      requires Route.RouteOff(session.states[since], p) && Theorems.Doomed(session.states[since], p)
      ensures Route.RouteOff(session.sys, p)
    {
      session.RecordedAt(since);
      session.RecordedSince(since);
      Sweep.SystemIsSafe(session.routeAttempts, session.trace[..since]);
      Route.RunKeepsRouteOff(session.states[since], session.trace[since..], p);
    }

    lemma WorkedOnIsDoomed()
      requires Valid() && Memory().Some?
      ensures Theorems.Doomed(session.sys, Memory().value.claim.project)
    {
      session.Recorded();
      Sweep.SystemIsSafe(session.routeAttempts, session.trace);
      Route.WorkIsDoomed(session.sys, Memory().value);
    }

    /** Looks at the tables once; the answer is remembered only when it is yes. */
    method Check(action: Action) returns (ok: bool)
      requires Valid() && Memory().Some? && Memory().value.point == AtPhase && (action.CheckDrained? || action.CheckApplied?)
      modifies session
      ensures Valid() && session.Continues()
      ensures Memory() == Some(if ok then old(Memory()).value.(point := if action.CheckDrained? then Drained else RouteApplied)
                               else old(Memory()).value)
      ensures ok && action.CheckDrained? ==> action.locksFree
    {
      ghost var before := session.Perform(action);
      ok := session.me in session.sys.workers && session.sys.workers[session.me].point != AtPhase;
    }

    /** A phase that is left early is left by a lost claim or by an error still to be recorded. */
    ghost predicate Leaves(outcome: Option<Outcome>)
      reads session
    {
      outcome.Some? ==>
        && (outcome.value == ClaimLost || outcome.value.Raised?)
        && (outcome.value.Raised? <==> Memory().Some?)
    }

    /** Authorizes and reads the rows the teardown goes by; none when the claim is lost. */
    method ReadRecords() returns (records: Option<Records>)
      requires Valid() && Memory().Some? && LooksIn(Memory().value.claim.job.phase) && Memory().value.point == AtPhase
      modifies session
      ensures Valid() && session.Continues() && session.attempts == old(session.attempts)
      ensures if records == None then Memory() == None
              else Stays(Cleared) && Memory().value.notes.records == records
    {
      var ok := Authorize();
      if !ok { return None; }
      session.Others();
      var p := session.sys.workers[session.me].claim.project;
      var rows := SelectRows(session.sys.fleet, p);
      session.Act(Read(rows));
      records := session.sys.workers[session.me].notes.records;
    }

    /**
     Runs the teardown. Only when it returns normally, having seen that nothing is left in
     Docker or on disk, the phase is done.
     */
    method Teardown() returns (outcome: Option<Outcome>)
      requires Valid() && InPhase(D.RuntimeCleanup, AtPhase)
      modifies session
      ensures Valid() && session.Continues()
      ensures outcome == None ==>
        && Stays(Worked) && Memory().value.notes.records.Some?
        && Absent(session.sys, Memory().value.claim.project, Memory().value.notes.records.value)
      ensures Leaves(outcome)
    {
      var records := ReadRecords();
      if records == None { return Some(ClaimLost); }
      var teardown := new TR.ProjectTeardown(session);
      var result := teardown.Run(records.value.deployments, records.value.runtime);
      teardown.InMind();
      if result.Failure? { return Some(Raised(MayHelp(result.error))); }
      Finish();
      StillAbsent();
      outcome := None;
    }

    lemma StillAbsent()
      requires Valid() && Memory().Some? && LookedThrough(Memory().value.claim.project, Memory().value.notes)
      ensures Absent(session.sys, Memory().value.claim.project, Memory().value.notes.records.value)
      ensures forall kind :: NoPart(kind) in Memory().value.notes.sights ==>
                (Memory().value.claim.project, kind) !in session.sys.present
    {
      session.Recorded();
      Sweep.SweepReachable(session.routeAttempts, session.trace);
      LookedIsAbsent(session.sys, Memory().value);
      NotedPartsAreAbsent(session.sys, Memory().value);
    }

    /**
     A database phase. A mismatch of the flag ends it before anything else, a busy lock
     before the authorization; then come authorization, removal and the end of the work.
     */
    method RunDatabasePhase(kind: Kind) returns (outcome: Option<Outcome>, ghost found: bool, ghost locked: bool)
      requires Valid() && Memory().Some? && Memory().value.point == AtPhase
      requires DatabasePhase(Memory().value.claim.job.phase) && RemovesIn(Memory().value.claim.job.phase, kind)
      modifies session
      ensures Valid() && session.Continues()
      ensures outcome == None ==> Stays(Worked)
      ensures Leaves(outcome)
      ensures var flag := old(Memory()).value.claim.job.deleteDatabase;
              && (found != flag ==> outcome == Some(Raised(false)) && session.mine == old(session.mine))
              && (found == flag && found && !locked ==> outcome == Some(Raised(true)) && session.mine == old(session.mine))
              && (outcome == None && flag ==>
                    old(session.mine) <= session.mine && RemovedInOrder(session.mine[|old(session.mine)|..], kind))
              && (outcome == None && !flag ==> session.mine == old(session.mine) + [FinishWork])
    {
      session.Others();
      var c := session.sys.workers[session.me].claim;
      var present := c.project in session.sys.resources;
      found, locked := present, false;
      if present != c.job.deleteDatabase { return Some(Raised(false)), found, locked; }
      if !present {
        Finish();
        return None, found, locked;
      }
      var acquired: bool := *;
      locked := acquired;
      if !acquired { return Some(Raised(true)), found, locked; }
      outcome := RemoveOnce(kind);
    }

    /** Authorizes, removes and, if that was reported to succeed, calls the work done. */
    method RemoveOnce(kind: Kind) returns (outcome: Option<Outcome>)
      requires Valid() && Memory().Some? && Memory().value.point == AtPhase && RemovesIn(Memory().value.claim.job.phase, kind)
      requires PartKind(kind)
      modifies session
      ensures Valid() && session.Continues()
      ensures outcome == None ==> Stays(Worked)
      ensures Leaves(outcome)
      ensures outcome == None ==> old(session.mine) <= session.mine && RemovedInOrder(session.mine[|old(session.mine)|..], kind)
    {
      var ok := Authorize();
      if !ok { return Some(ClaimLost); }
      ghost var authorized := session.mine;
      outcome := RemoveAndFinish(kind);
      if outcome == None {
        assert session.mine[|old(session.mine)|..] == [authorized[|old(session.mine)|]] + session.mine[|authorized|..];
      }
    }

    method RemoveAndFinish(kind: Kind) returns (outcome: Option<Outcome>)
      requires Valid() && Memory().Some? && Memory().value.point == Cleared && RemovesIn(Memory().value.claim.job.phase, kind)
      requires PartKind(kind)
      modifies session
      ensures Valid() && session.Continues()
      ensures outcome == None ==> Stays(Worked)
      ensures Leaves(outcome)
      ensures outcome == None ==>
        && |session.mine| == |old(session.mine)| + 2 && old(session.mine) <= session.mine
        && var did := session.mine[|old(session.mine)|..];
           did[0].Remove? && did[0].kind == kind && did[0].ok && did[1].FinishWork?
    {
      var succeeds: bool, gone: bool, retryable: bool := *, *, *;
      session.Others();
      session.Remove(kind, succeeds, gone);
      if !succeeds { return Some(Raised(retryable)); }
      Finish();
      outcome := None;
    }

    method CleanSecrets() returns (outcome: Option<Outcome>)
      requires Valid() && InPhase(D.SecretCleanup, AtPhase)
      modifies session
      ensures Valid() && session.Continues()
      ensures outcome == None ==> Stays(Worked)
      ensures Leaves(outcome)
      ensures outcome == None ==> old(session.mine) <= session.mine && RemovedInOrder(session.mine[|old(session.mine)|..], Secrets)
    {
      var busy: bool := *;
      if busy { return Some(Raised(true)); }
      outcome := RemoveOnce(Secrets);
      if outcome == Some(Raised(true)) { outcome := Some(Raised(false)); }
    }

    /**
     The last phase only looks: at Docker and disk through the teardown, at the database and
     at the secrets, authorized before each, and passes only if nothing was found.
     */
    method VerifyFinalAbsence() returns (outcome: Option<Outcome>)
      requires Valid() && InPhase(D.MetadataDelete, AtPhase)
      modifies session
      ensures Valid() && session.Continues() && session.attempts == old(session.attempts)
      ensures outcome == None ==>
        && Stays(Worked) && Memory().value.notes.records.Some?
        && Absent(session.sys, Memory().value.claim.project, Memory().value.notes.records.value)
      ensures outcome == None ==>
        && (Memory().value.claim.project, Secrets) !in session.sys.present
        && (Memory().value.claim.job.deleteDatabase ==>
              (Memory().value.claim.project, Database) !in session.sys.present
              && (Memory().value.claim.project, Role) !in session.sys.present)
      ensures Leaves(outcome)
    {
      var records := ReadRecords();
      if records == None { return Some(ClaimLost); }
      outcome := LookAtSite(records.value);
      if outcome.Some? { return; }
      outcome := LookFurther();
      if outcome == None {
        Finish();
        StillAbsent();
      }
    }

    /** The look at Docker and disk, through the teardown. */
    method LookAtSite(records: Records) returns (outcome: Option<Outcome>)
      requires Valid() && InPhase(D.MetadataDelete, Cleared) && Memory().value.notes.records == Some(records)
      modifies session
      ensures Valid() && session.Continues() && session.attempts == old(session.attempts)
      ensures Memory().Some? && Memory().value.claim == old(Memory()).value.claim && Memory().value.point in {AtPhase, Cleared}
      ensures outcome == None ==> LookedThrough(Memory().value.claim.project, Memory().value.notes)
      ensures outcome.Some? ==> outcome.value.Raised?
    {
      var teardown := new TR.ProjectTeardown(session);
      var result := teardown.VerifyAbsent(records.deployments, records.runtime);
      teardown.InMind();
      outcome := if result.Failure? then Some(Raised(MayHelp(result.error))) else None;
    }

    /** One more authorized look, at a part of the project; None when it is not there. */
    method LookAt(kind: Kind) returns (outcome: Option<Outcome>)
      requires Valid() && Memory().Some? && LooksIn(Memory().value.claim.job.phase) && Memory().value.point in {AtPhase, Cleared}
      modifies session
      ensures Valid() && session.Continues() && session.attempts == old(session.attempts)
      ensures outcome == None ==>
        && Stays(Cleared) && NoPart(kind) in Memory().value.notes.sights
        && old(Memory()).value.notes.sights <= Memory().value.notes.sights
        && Memory().value.notes.records == old(Memory()).value.notes.records
      ensures Leaves(outcome)
    {
      var ok := Authorize();
      if !ok { return Some(ClaimLost); }
      session.Others();
      var c := session.sys.workers[session.me].claim;
      var fails: bool, retryable: bool := *, *;
      if fails || (c.project, kind) in session.sys.present { return Some(Raised(fails && retryable)); }
      session.Note(NoPart(kind));
      outcome := None;
    }

    /** The looks at the database, if the job's flag says there is one, and at the secrets. */
    method LookFurther() returns (outcome: Option<Outcome>)
      requires Valid() && Memory().Some? && Memory().value.claim.job.phase == D.MetadataDelete
      requires Memory().value.point in {AtPhase, Cleared} && LookedThrough(Memory().value.claim.project, Memory().value.notes)
      modifies session
      ensures Valid() && session.Continues() && session.attempts == old(session.attempts)
      ensures outcome == None ==> Stays(Cleared) && MayFinish(Memory().value)
      ensures Leaves(outcome)
    {
      session.Others();
      var c := session.sys.workers[session.me].claim;
      if (c.project in session.sys.resources) != c.job.deleteDatabase { return Some(Raised(false)); }
      var busy: bool := *;
      if busy { return Some(Raised(true)); }
      if c.job.deleteDatabase {
        outcome := LookAt(Database);
        if outcome.Some? { return; }
        outcome := LookAt(Role);
        if outcome.Some? { return; }
      }
      outcome := LookAt(Secrets);
    }

    method FinalizeDeletion() returns (outcome: Outcome)
      requires Valid() && InPhase(D.MetadataDelete, Worked)
      modifies session
      ensures Valid() && session.Continues() && Memory() == None
      ensures outcome == Finished || outcome == ClaimLost
      ensures outcome == Finished ==> old(Memory()).value.claim.project !in session.sys.host.db.projects
    {
      session.Others();
      var now: Time := *;
      var c := session.sys.workers[session.me].claim;
      outcome := if MutationAllowed(session.sys, c, now, true) && session.sys.deletions.jobs[c.project].phase == D.MetadataDelete
                 then Finished else ClaimLost;
      FinalizeEnds(session.sys, session.me, now);
      session.Act(Finalize(now));
    }

    /** What a phase does before it asks for the next one; None means that it is ready to. */
    method RunPhase() returns (left: Option<Outcome>)
      requires Valid() && Memory().Some? && Memory().value.point == AtPhase
      requires Memory().value.claim.job.phase != D.MetadataDelete
      modifies session
      ensures Valid() && session.Continues()
      ensures left == None ==> Stays(ReadyPoint(old(Memory()).value.claim.job.phase))
      ensures left.Some? ==> left.value != Finished && (left.value.Raised? <==> Memory().Some?)
      ensures left == Some(Deferred) ==>
        && old(Memory()).value.claim.job.phase in {D.WaitingForOperations, D.RouteDisabling, D.RouteRemoved}
        && LastAction().Some? && LastAction().value.Defer?
      ensures old(Memory()).value.claim.job.phase == D.RouteDisabling && left != Some(ClaimLost) ==>
        Route.RouteOff(session.sys, old(Memory()).value.claim.project)
    {
      match session.sys.workers[session.me].claim.job.phase {
        case Requested => left := None;
        case WaitingForOperations => ghost var free; left, free := AwaitOperations();
        case RouteDisabling => left := DisableRoute();
        case RouteRemoved => left := AwaitRoute();
        case RuntimeCleanup => left := Teardown();
        case DatabaseQuiescing => ghost var found, locked; left, found, locked := RunDatabasePhase(DatabaseSessions);
        case DatabaseDropDatabase => ghost var found, locked; left, found, locked := RunDatabasePhase(Database);
        case DatabaseDropRole => ghost var found, locked; left, found, locked := RunDatabasePhase(Role);
        case SecretCleanup => left := CleanSecrets();
      }
    }

    /** One pass of the loop: the phase's own work and the move to the next phase. */
    method CompletePhase() returns (left: Option<Outcome>)
      requires Valid() && Memory().Some? && Memory().value.point == AtPhase
      requires Memory().value.claim.job.phase != D.MetadataDelete
      modifies session
      ensures Valid() && session.Continues()
      ensures left == None ==>
        && InPhase(D.PHASES[D.Index(old(Memory()).value.claim.job.phase) + 1], AtPhase)
        && Memory().value.claim.project == old(Memory()).value.claim.project
      ensures left.Some? ==> left.value != Finished && (left.value.Raised? <==> Memory().Some?)
    {
      left := RunPhase();
      if left.Some? { return; }
      var moved := Advance();
      left := if moved then None else Some(ClaimLost);
    }

    method AwaitOperations() returns (left: Option<Outcome>, ghost free: bool)
      requires Valid() && InPhase(D.WaitingForOperations, AtPhase)
      modifies session
      ensures left == None ==> free
      ensures Valid() && session.Continues() && (left == None || left == Some(Deferred))
      ensures if left == None then Stays(Drained) else Memory() == None && LastAction().Some? && LastAction().value.Defer?
    {
      var locksFree: bool := *;
      free := locksFree;
      var ok := Check(CheckDrained(locksFree));
      if ok { return None, free; }
      GiveUp();
      left := Some(Deferred);
    }

    method AwaitRoute() returns (left: Option<Outcome>)
      requires Valid() && (InPhase(D.RouteDisabling, AtPhase) || InPhase(D.RouteRemoved, AtPhase))
      modifies session
      ensures Valid() && session.Continues() && (left == None || left == Some(Deferred))
      ensures if left == None then Stays(RouteApplied) else Memory() == None && LastAction().Some? && LastAction().value.Defer?
    {
      var ok := Check(CheckApplied);
      if ok { return None; }
      GiveUp();
      left := Some(Deferred);
    }

    method DisableRoute() returns (left: Option<Outcome>)
      requires Valid() && InPhase(D.RouteDisabling, AtPhase)
      modifies session
      ensures Valid() && session.Continues() && (left == None || left == Some(Deferred) || left == Some(ClaimLost))
      ensures if left == None then Stays(RouteApplied) else Memory() == None
      ensures left == Some(Deferred) ==> LastAction().Some? && LastAction().value.Defer?
      ensures left != Some(ClaimLost) ==> Route.RouteOff(session.sys, old(Memory()).value.claim.project)
    {
      var ok := Authorize();
      if !ok { return Some(ClaimLost); }
      Disable();
      WorkedOnIsDoomed();
      ghost var since, p := |session.trace|, Memory().value.claim.project;
      session.RecordedNow();
      left := AwaitRoute();
      StillOff(since, p);
    }

    /** The phases before the last; None when the last is reached. */
    method RunPhases() returns (left: Option<Outcome>)
      requires Valid() && Memory().Some? && Memory().value.point == AtPhase
      modifies session
      ensures Valid() && session.Continues()
      ensures left == None ==>
        InPhase(D.MetadataDelete, AtPhase) && Memory().value.claim.project == old(Memory()).value.claim.project
      ensures left.Some? ==> left.value != Finished && (left.value.Raised? <==> Memory().Some?)
    {
      while session.sys.workers[session.me].claim.job.phase != D.MetadataDelete
        invariant Valid() && session.Continues()
        invariant Memory().Some? && Memory().value.point == AtPhase
        invariant Memory().value.claim.project == old(Memory()).value.claim.project
        decreases 9 - D.Index(session.sys.workers[session.me].claim.job.phase)
      {
        left := CompletePhase();
        if left.Some? { return; }
      }
      left := None;
    }

    method RunLastPhase() returns (outcome: Outcome)
      requires Valid() && InPhase(D.MetadataDelete, AtPhase)
      modifies session
      ensures Valid() && session.Continues()
      ensures outcome.Raised? <==> Memory().Some?
      ensures outcome == Finished ==> old(Memory()).value.claim.project !in session.sys.host.db.projects
    {
      var left := VerifyFinalAbsence();
      if left.Some? { return left.value; }
      outcome := FinalizeDeletion();
    }

    /**
     Works through the remaining phases. It ends because every pass either leaves or
     commits the move to the next phase; when it reports Finished the project is gone, and
     it keeps its claim in mind only when it raised an error that is still to be recorded.
     */
    method RunClaim() returns (outcome: Outcome)
      requires Valid() && Memory().Some? && Memory().value.point == AtPhase
      modifies session
      ensures Valid() && session.Continues()
      ensures outcome.Raised? <==> Memory().Some?
      ensures outcome == Finished ==> old(Memory()).value.claim.project !in session.sys.host.db.projects
    {
      var left := RunPhases();
      if left.Some? { return left.value; }
      outcome := RunLastPhase();
    }

    /** The last action of this worker in the record, if it is the last step. */
    ghost function LastAction(): Option<Action>
      reads session
    {
      if session.trace != [] && session.trace[|session.trace| - 1].Act? && session.trace[|session.trace| - 1].k == session.me
      then Some(session.trace[|session.trace| - 1].action) else None
    }

    /** Tries again later exactly if that may help and attempts are left; otherwise the job has failed. */
    method PersistFailure(retryable: bool)
      requires Valid() && Memory().Some?
      modifies session
      ensures Valid() && session.Continues() && Memory() == None
      ensures LastAction().Some?
      ensures if retryable && old(Memory()).value.claim.job.attempts < maxAttempts then LastAction().value.Reschedule?
              else LastAction().value.Fail? && LastAction().value.error.retryable == retryable
    {
      var now: Time, at: Time, code: string := *, *, *;
      ghost var before;
      if retryable && session.sys.workers[session.me].claim.job.attempts < maxAttempts {
        before := session.Perform(Reschedule(now, at));
      } else {
        before := session.Perform(Fail(now, D.LastError(code, retryable)));
      }
    }

    /** Step i of the record is this worker's claim, at that time, of a job that was claimable then. */
    ghost predicate ClaimedAt(i: nat, now: Time)
      requires Valid() && i < |session.trace|
      reads session
    {
      && session.trace[i].TakeDeletion? && session.trace[i].k == session.me && session.trace[i].now == now
      && D.Claimable(session.states[i].deletions, session.trace[i].p, now)
    }

    method Claim(p: ProjectId, now: Time, duration: nat)
      requires Valid() && Memory() == None && D.Claimable(session.sys.deletions, p, now)
      modifies session
      ensures Valid() && session.Continues() && |session.trace| == |old(session.trace)| + 1
      ensures ClaimedAt(|old(session.trace)|, now)
      ensures Memory() == Some(Work(D.ClaimJob(old(session.sys).deletions, p, session.me, now, duration).1, AtPhase, NO_NOTES))
    {
      assert session.states[|session.trace|] == session.states[|session.trace|..][0];
      session.Take(TakeDeletion(session.me, p, now, duration));
    }

    /** A claim beyond the attempt limit only fails; any other is worked on, and a failure recorded. */
    method WorkOnClaim()
      requires Valid() && Memory().Some? && Memory().value.point == AtPhase
      modifies session
      ensures Valid() && session.Continues() && Memory() == None
      ensures old(Memory()).value.claim.job.attempts > maxAttempts ==> LastAction().Some? && LastAction().value.Fail?
    {
      if session.sys.workers[session.me].claim.job.attempts > maxAttempts {
        PersistFailure(true);
      } else {
        var outcome := RunClaim();
        if outcome.Raised? { PersistFailure(outcome.retryable); }
      }
    }

    /**
     One turn of the worker, which claims at the time it reads from the clock: false only
     when no deletion was due then.
     */
    method RunOnce(now: Time) returns (worked: bool)
      requires Valid() && Memory() == None
      modifies session
      ensures Valid() && session.Continues() && Memory() == None
      ensures !worked ==> forall p :: p in session.sys.deletions.jobs ==> !D.Claimable(session.sys.deletions, p, now)
      ensures worked ==> exists i :: |old(session.trace)| <= i < |session.trace| && ClaimedAt(i, now)
    {
      session.Others();
      if forall p :: p in session.sys.deletions.jobs ==> !D.Claimable(session.sys.deletions, p, now) { return false; }
      var p :| p in session.sys.deletions.jobs && D.Claimable(session.sys.deletions, p, now);
      var duration: nat := *;
      ghost var i := |session.trace|;
      Claim(p, now, duration);
      assert ClaimedAt(i, now);
      ghost var trace, states := session.trace, session.states;
      WorkOnClaim();
      assert session.trace[i] == trace[i] && session.states[i] == states[i];
      assert ClaimedAt(i, now);
      worked := true;
    }
  }

  lemma FinalizeEnds(s: Sys, k: WorkerId, now: Time)
    requires k in s.workers && s.workers[k].claim.job.phase == D.MetadataDelete && s.workers[k].point == Worked
    ensures var c, s' := s.workers[k].claim, WorkerDo(s, k, s.workers[k], Finalize(now));
            && k !in s'.workers
            && (MutationAllowed(s, c, now, true) && s.deletions.jobs[c.project].phase == D.MetadataDelete ==>
                  c.project !in s'.host.db.projects)
  {
    var c := s.workers[k].claim;
    if MutationAllowed(s, c, now, true) {
      LiveIsFinalizable(s, c, now);
      DroppedHost(s.host, c.project);
    }
  }
}
