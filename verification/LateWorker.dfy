/**
 A concrete run in which a deletion worker meets the authorization mismatch: its lease
 runs out before the sessions are ended, another worker finishes the project, and then it looks.
 */
module LateWorker {
  import opened Wrappers
  import opened Ids
  import opened DeletionSystem
  import D = DeletionStore
  import R = RouteStore
  import TD = Teardown

  /** Project 1 has a database, and nothing else is left of what belongs to it. */
  predicate Deserted(s: Sys) {
    && 1 in s.host.db.projects && IsDeleting(s, 1)
    && R.RouteGone(s.host.db, 1) && 1 !in s.host.db.jobs
    && s.fleet.deployments == map[]
    && 1 in s.resources && s.present == {} && s.site == Site(map[], {}, map[], map[])
  }

  /** Worker k deletes project 1 with a lease until then, and the late worker 0 still holds what it held. */
  predicate Deleting(s: Sys, k: WorkerId, until: Time, phase: D.Phase, point: Point, late: Option<Work>) {
    && Deserted(s)
    && 1 in s.deletions.jobs && k in s.workers
    && var j, work := s.deletions.jobs[1], s.workers[k];
    && j.state == D.Claimed && j.lease.Some? && j.phase == phase && j.deleteDatabase
    && j.lease.value.owner == k == work.claim.owner && j.lease.value.token == work.claim.token
    && j.lease.value.expiresAt == until
    && work.claim.project == 1 && work.claim.job.phase == phase && work.claim.job.deleteDatabase
    && work.point == point && s.workers.Keys <= {0, k}
    && (late.Some? ==> k != 0 && 0 in s.workers && s.workers[0] == late.value)
  }

  ghost predicate Reaches(s: Sys) {
    exists run :: After(Init(3), run) == s
  }

  /** One more step of the scripted run. */
  lemma Then(s: Sys, step: Step) returns (s': Sys)
    requires Reaches(s)
    ensures Reaches(s') && s' == Do(s, step)
  {
    var run :| After(Init(3), run) == s;
    assert (run + [step])[..|run|] == run;
    s' := After(Init(3), run + [step]);
  }

  lemma AskForDeletion() returns (s: Sys)
    ensures Reaches(s) && Deserted(s) && s.workers == map[]
    ensures 1 in s.deletions.jobs && s.deletions.jobs[1] == D.Job(D.Pending, D.Requested, 0, 0, None, true, None)
  {
    assert After(Init(3), []) == Init(3);
    s := Then(Init(3), Host(H.CreateProject(1)));
    s := Then(s, EnsureDatabase(1));
    s := Then(s, RequestDeletion(1, D.Confirmation(true, true, true), 0));
  }

  lemma Begin() returns (s: Sys)
    ensures Reaches(s) && Deleting(s, 0, 1, D.Requested, AtPhase, None)
  {
    s := AskForDeletion();
    s := Then(s, TakeDeletion(0, 1, 0, 1));
  }

  lemma AdvanceMoves(s: Sys, k: WorkerId, now: Time, phase: D.Phase, next: D.Phase, late: Option<Work>)
    requires D.Index(next) == D.Index(phase) + 1
    requires Deleting(s, k, now + 1, phase, ReadyPoint(phase), late)
    ensures Deleting(AdvanceDo(s, k, s.workers[k].claim, now), k, now + 1, next, AtPhase, late)
  {
    assert D.PHASES[D.Index(phase) + 1] == next;
  }

  lemma Leave(s: Sys, k: WorkerId, now: Time, phase: D.Phase, next: D.Phase, late: Option<Work>) returns (s': Sys)
    requires D.Index(next) == D.Index(phase) + 1
    requires Reaches(s) && Deleting(s, k, now + 1, phase, ReadyPoint(phase), late)
    ensures Reaches(s') && Deleting(s', k, now + 1, next, AtPhase, late)
  {
    AdvanceMoves(s, k, now, phase, next, late);
    s' := Then(s, Act(k, AdvancePhase(now)));
  }

  lemma Drain(s: Sys) returns (s': Sys)
    requires Reaches(s) && Deleting(s, 0, 1, D.WaitingForOperations, AtPhase, None)
    ensures Reaches(s') && Deleting(s', 0, 1, D.WaitingForOperations, Drained, None)
  {
    s' := Then(s, Act(0, CheckDrained(true)));
  }

  lemma FindRouteGone(s: Sys, phase: D.Phase) returns (s': Sys)
    requires phase == D.RouteDisabling || phase == D.RouteRemoved
    requires Reaches(s) && Deleting(s, 0, 1, phase, AtPhase, None)
    ensures Reaches(s') && Deleting(s', 0, 1, phase, RouteApplied, None)
  {
    s' := Then(s, Act(0, CheckApplied));
  }

  /** One more look at what is not there. */
  lemma See(s: Sys, k: WorkerId, until: Time, phase: D.Phase, late: Option<Work>, sight: Sight) returns (s': Sys)
    requires LooksIn(phase) && !sight.Exactly?
    requires Reaches(s) && Deleting(s, k, until, phase, AtPhase, late)
    ensures Reaches(s') && Deleting(s', k, until, phase, AtPhase, late)
    ensures s'.workers[k].notes == s.workers[k].notes.(sights := s.workers[k].notes.sights + {sight})
  {
    s' := Then(s, Act(k, Look(sight)));
  }

  lemma ReadNothing(s: Sys, k: WorkerId, until: Time, phase: D.Phase, late: Option<Work>) returns (s': Sys)
    requires LooksIn(phase) && Reaches(s) && Deleting(s, k, until, phase, AtPhase, late)
    ensures Reaches(s') && Deleting(s', k, until, phase, AtPhase, late)
    ensures s'.workers[k].notes.records == Some(Records([], None))
  {
    s' := Then(s, Act(k, Read([])));
  }

  lemma NothingExpected(notes: Notes)
    requires notes.records == Some(Records([], None))
    requires {NoLabel(TD.Container), NoLabel(TD.Network), NoLabel(TD.Image), NoDirectory(TD.GatewayDirectory(1))} <= notes.sights
    ensures LookedThrough(1, notes)
  {
    assert TD.Expected(1, [], None) == [];
    assert TD.Targets(1, []) == [TD.GatewayDirectory(1)];
  }

  /** A project without deployments is soon looked through. */
  lemma LookThrough(s: Sys, k: WorkerId, until: Time, phase: D.Phase, late: Option<Work>) returns (s': Sys)
    requires LooksIn(phase) && Reaches(s) && Deleting(s, k, until, phase, AtPhase, late)
    ensures Reaches(s') && Deleting(s', k, until, phase, AtPhase, late) && LookedThrough(1, s'.workers[k].notes)
  {
    s' := ReadNothing(s, k, until, phase, late);
    s' := See(s', k, until, phase, late, NoLabel(TD.Container));
    s' := See(s', k, until, phase, late, NoLabel(TD.Network));
    s' := See(s', k, until, phase, late, NoLabel(TD.Image));
    s' := See(s', k, until, phase, late, NoDirectory(TD.GatewayDirectory(1)));
    NothingExpected(s'.workers[k].notes);
  }

  lemma LookAtParts(s: Sys, k: WorkerId, until: Time, late: Option<Work>) returns (s': Sys)
    requires Reaches(s) && Deleting(s, k, until, D.MetadataDelete, AtPhase, late) && LookedThrough(1, s.workers[k].notes)
    ensures Reaches(s') && Deleting(s', k, until, D.MetadataDelete, AtPhase, late) && MayFinish(s'.workers[k])
  {
    s' := See(s, k, until, D.MetadataDelete, late, NoPart(Database));
    s' := See(s', k, until, D.MetadataDelete, late, NoPart(Role));
    s' := See(s', k, until, D.MetadataDelete, late, NoPart(Secrets));
  }

  /** Work is done after a removal, or when everything was looked through. */
  lemma Finish(s: Sys, k: WorkerId, until: Time, phase: D.Phase, point: Point, late: Option<Work>) returns (s': Sys)
    requires Reaches(s) && Deleting(s, k, until, phase, point, late) && MayFinish(s.workers[k])
    ensures Reaches(s') && Deleting(s', k, until, phase, Worked, late)
  {
    s' := Then(s, Act(k, FinishWork));
  }

  lemma GetToRoute() returns (s: Sys)
    ensures Reaches(s) && Deleting(s, 0, 1, D.RouteDisabling, AtPhase, None)
  {
    s := Begin();
    s := Leave(s, 0, 0, D.Requested, D.WaitingForOperations, None);
    s := Drain(s);
    s := Leave(s, 0, 0, D.WaitingForOperations, D.RouteDisabling, None);
  }

  lemma GetToCleanup() returns (s: Sys)
    ensures Reaches(s) && Deleting(s, 0, 1, D.RuntimeCleanup, AtPhase, None)
  {
    s := GetToRoute();
    s := FindRouteGone(s, D.RouteDisabling);
    s := Leave(s, 0, 0, D.RouteDisabling, D.RouteRemoved, None);
    s := FindRouteGone(s, D.RouteRemoved);
    s := Leave(s, 0, 0, D.RouteRemoved, D.RuntimeCleanup, None);
  }

  /** The phases in which there is nothing to remove. */
  lemma GetToDatabase() returns (s: Sys)
    ensures Reaches(s) && Deleting(s, 0, 1, D.DatabaseQuiescing, AtPhase, None)
  {
    s := GetToCleanup();
    s := LookThrough(s, 0, 1, D.RuntimeCleanup, None);
    s := Finish(s, 0, 1, D.RuntimeCleanup, AtPhase, None);
    s := Leave(s, 0, 0, D.RuntimeCleanup, D.DatabaseQuiescing, None);
  }

  lemma AuthorizeClears(s: Sys, k: WorkerId, now: Time, phase: D.Phase, late: Option<Work>)
    requires D.Index(phase) >= 5 && Deleting(s, k, now + 1, phase, AtPhase, late)
    ensures Deleting(AuthorizeDo(s, k, s.workers[k], now, 1), k, now + 1, phase, Cleared, late)
  {
  }

  lemma Clear(s: Sys, k: WorkerId, now: Time, phase: D.Phase, late: Option<Work>) returns (s': Sys)
    requires D.Index(phase) >= 5
    requires Reaches(s) && Deleting(s, k, now + 1, phase, AtPhase, late)
    ensures Reaches(s') && Deleting(s', k, now + 1, phase, Cleared, late)
  {
    AuthorizeClears(s, k, now, phase, late);
    s' := Then(s, Act(k, Authorize(now, 1)));
  }

  lemma RemoveOne(s: Sys, k: WorkerId, now: Time, phase: D.Phase, kind: Kind, late: Option<Work>) returns (s': Sys)
    requires 5 <= D.Index(phase) < 9 && RemovesIn(phase, kind)
    requires Reaches(s) && Deleting(s, k, now + 1, phase, Cleared, late)
    ensures Reaches(s') && Deleting(s', k, now + 1, phase, Removed, late)
  {
    s' := Then(s, Act(k, Remove(kind, true, true)));
    assert s'.present == {};
  }

  /** A phase with a removal that succeeds. */
  lemma RemoveAndLeave(s: Sys, k: WorkerId, now: Time, phase: D.Phase, kind: Kind, next: D.Phase, late: Option<Work>)
    returns (s': Sys)
    requires 5 <= D.Index(phase) < 9 && RemovesIn(phase, kind) && D.Index(next) == D.Index(phase) + 1
    requires Reaches(s) && Deleting(s, k, now + 1, phase, AtPhase, late)
    ensures Reaches(s') && Deleting(s', k, now + 1, next, AtPhase, late)
  {
    s' := Clear(s, k, now, phase, late);
    s' := RemoveOne(s', k, now, phase, kind, late);
    s' := Finish(s', k, now + 1, phase, Removed, late);
    s' := Leave(s', k, now, phase, next, late);
  }

  lemma TakeOver(s: Sys, late: Work) returns (s': Sys)
    requires Reaches(s) && Deleting(s, 0, 1, D.DatabaseQuiescing, AtPhase, None) && s.workers[0] == late
    ensures Reaches(s') && Deleting(s', 1, 2, D.DatabaseQuiescing, AtPhase, Some(late))
  {
    s' := Then(s, TakeDeletion(1, 1, 1, 1));
  }

  lemma EndProject(s: Sys, late: Work) returns (s': Sys)
    requires Reaches(s) && Deleting(s, 1, 2, D.MetadataDelete, Worked, Some(late))
    ensures Reaches(s') && 0 in s'.workers && s'.workers[0] == late && 1 !in s'.resources
  {
    s' := Then(s, Act(1, DeletionSystem.Finalize(1)));
  }

  lemma DropDatabase(s: Sys, late: Work) returns (s': Sys)
    requires Reaches(s) && Deleting(s, 1, 2, D.DatabaseQuiescing, AtPhase, Some(late))
    ensures Reaches(s') && Deleting(s', 1, 2, D.DatabaseDropRole, AtPhase, Some(late))
  {
    s' := RemoveAndLeave(s, 1, 1, D.DatabaseQuiescing, DatabaseSessions, D.DatabaseDropDatabase, Some(late));
    s' := RemoveAndLeave(s', 1, 1, D.DatabaseDropDatabase, Database, D.DatabaseDropRole, Some(late));
  }

  lemma DropRoleAndSecrets(s: Sys, late: Work) returns (s': Sys)
    requires Reaches(s) && Deleting(s, 1, 2, D.DatabaseDropRole, AtPhase, Some(late))
    ensures Reaches(s') && Deleting(s', 1, 2, D.MetadataDelete, AtPhase, Some(late))
  {
    s' := RemoveAndLeave(s, 1, 1, D.DatabaseDropRole, Role, D.SecretCleanup, Some(late));
    s' := RemoveAndLeave(s', 1, 1, D.SecretCleanup, Secrets, D.MetadataDelete, Some(late));
  }

  /** The other worker does what is left. */
  lemma DoTheRest(s: Sys, late: Work) returns (s': Sys)
    requires Reaches(s) && Deleting(s, 1, 2, D.DatabaseQuiescing, AtPhase, Some(late))
    ensures Reaches(s') && 0 in s'.workers && s'.workers[0] == late && 1 !in s'.resources
  {
    s' := DropDatabase(s, late);
    s' := DropRoleAndSecrets(s', late);
    s' := LookThrough(s', 1, 2, D.MetadataDelete, Some(late));
    s' := LookAtParts(s', 1, 2, Some(late));
    s' := Finish(s', 1, 2, D.MetadataDelete, AtPhase, Some(late));
    s' := EndProject(s', late);
  }

  /** A worker can come to the check of a database phase with an authorization that does not match. */
  lemma MismatchCanHappen()
    ensures exists run :: var s := After(Init(3), run);
              0 in s.workers && s.workers[0].point == AtPhase
              && DatabasePhase(s.workers[0].claim.job.phase) && AuthorizationMismatch(s, s.workers[0].claim)
  {
    var s := GetToDatabase();
    var late := s.workers[0];
    s := TakeOver(s, late);
    s := DoTheRest(s, late);
    var run :| After(Init(3), run) == s;
  }
}
