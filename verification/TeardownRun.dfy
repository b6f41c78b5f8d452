/**
 The teardown itself, step by step over Docker and the private directories of the running
 system. Everything it looks at and removes, and every guard, is an action of the worker it
 runs for; others may remove objects meanwhile, but nothing that concerns the project appears,
 and every command, heartbeat and guard may fail. start is what there was of the project when
 the run began, others what somebody else removed since, and troubled tells whether anything
 outside the program's control went wrong.
 */
module TeardownRun {
  import opened Wrappers
  import opened Ids
  import opened Teardown
  import opened TeardownOutcome
  import A = DeletionSession
  import D = DeletionStore
  import S = DeletionSystem
  import Site = DeletionSite
  import Sweep = DeletionSweep

  // ---------------------------------------------------------------- what of the system concerns the project

  ghost function ObjectsOf(s: S.Sys, p: ProjectId): map<Key, Object> {
    map k | k in s.site.objects && S.Concerns(k, s.site.objects[k], p) :: s.site.objects[k]
  }

  ghost function DirectoriesOf(s: S.Sys, p: ProjectId): set<Target> {
    set t | t in s.site.directories && S.OwnTarget(s, p, t)
  }

  /** What the worker that tears down has in mind. */
  ghost predicate WorksOn(work: S.Work, claim: D.Claim, records: S.Records, sights: set<S.Sight>) {
    work.claim == claim && work.point in {S.AtPhase, S.Cleared} && work.notes == S.Notes(Some(records), sights)
  }

  lemma LessOfTheProject(s: S.Sys, s': S.Sys, p: ProjectId)
    requires Site.Dwindles(s, s', p)
    ensures Shrunk(ObjectsOf(s, p), ObjectsOf(s', p)) && DirectoriesOf(s', p) <= DirectoriesOf(s, p)
  {
  }

  /** What a removal leaves of the project's things. */
  ghost predicate Left(before: map<Key, Object>, after: map<Key, Object>, kind: S.Kind, effective: bool) {
    forall k :: k in after <==> k in before && !(effective && kind.Docker? && k.docker == kind.docker && before[k].id == kind.id)
  }

  lemma RemovalLeaves(s: S.Sys, k: WorkerId, work: S.Work, kind: S.Kind, ok: bool, gone: bool, p: ProjectId)
    ensures var s' := S.RemoveDo(s, k, work, kind, ok, gone);
            && Shrunk(ObjectsOf(s, p), ObjectsOf(s', p)) && Left(ObjectsOf(s, p), ObjectsOf(s', p), kind, ok || gone)
            && DirectoriesOf(s', p) == DirectoriesOf(s, p) - (if kind.Directory? && (ok || gone) then {kind.target} else {})
            && k in s'.workers && s'.workers[k] == work.(point := S.AfterRemoval(kind, ok))
  {
  }

  ghost predicate AccountedFor(start: map<Key, Object>, objects: map<Key, Object>, others: set<Key>, p: ProjectId) {
    forall k :: k in start && k !in objects ==> k in others || Owned(start[k], p)
  }

  /** The removal of a kind of which all that was there was the project's own. */
  ghost predicate OnlyOwn(start: map<Key, Object>, kind: S.Kind, p: ProjectId) {
    kind.Docker? ==> forall k :: Shares(start, k, kind.docker, kind.id) ==> Owned(start[k], p)
  }

  lemma RemovalIsAccountedFor(start: map<Key, Object>, before: map<Key, Object>, after: map<Key, Object>, others: set<Key>,
                              p: ProjectId, kind: S.Kind, effective: bool)
    requires Shrunk(start, before) && Shrunk(before, after) && AccountedFor(start, before, others, p)
    requires Left(before, after, kind, effective) && OnlyOwn(start, kind, p)
    ensures Shrunk(start, after) && AccountedFor(start, after, others, p)
  {
  }

  lemma Dwindled(maxAttempts: nat, states: seq<S.Sys>, run: seq<S.Step>, n: nat, p: ProjectId)
    requires A.IsRun(maxAttempts, states, run) && n <= |run| && S.Spent(states[n], p)
    ensures Site.Dwindles(states[n], states[|run|], p)
  {
    A.RunFromInit(maxAttempts, states, run, n);
    A.RunIsAfter(maxAttempts, states, run, n, |run|);
    Sweep.SystemIsSafe(maxAttempts, run[..n]);
    Site.RunDwindles(states[n], run[n..|run|], p);
  }

  lemma LabelsGoWithIds(s: S.Sys, p: ProjectId)
    requires Site.RegisterInv(s)
    ensures SameIdSameLabels(ObjectsOf(s, p))
  {
  }

  /** A worker in a phase that looks at the site deals with a spent project. */
  lemma WorkedOnIsSpent(session: A.Session)
    requires session.Valid() && session.Memory().Some? && S.LooksIn(session.Memory().value.claim.job.phase)
    ensures S.Spent(session.sys, session.Memory().value.claim.project) && Site.RegisterInv(session.sys)
    ensures Sweep.WorkSite(session.sys, session.Memory().value)
  {
    session.Recorded();
    Sweep.SweepReachable(session.routeAttempts, session.trace);
  }

  class ProjectTeardown {
    const session: A.Session
    const claim: D.Claim
    const project: ProjectId
    const records: S.Records
    ghost const start: map<Key, Object>
    ghost var objects: map<Key, Object>
    ghost var directories: set<Target>
    ghost var sights: set<S.Sight>
    ghost var cleared: bool
    ghost var others: set<Key>
    ghost var log: seq<Event>
    ghost var troubled: bool

    constructor (session: A.Session)
      requires session.Valid() && session.Memory().Some?
      requires var work := session.Memory().value;
               S.LooksIn(work.claim.job.phase) && work.point in {S.AtPhase, S.Cleared} && work.notes.records.Some?
      ensures Valid() && objects == start && log == [] && !troubled && this.session == session
      ensures claim == session.Memory().value.claim && Some(records) == session.Memory().value.notes.records
    {
      var work := session.sys.workers[session.me];
      this.session, claim, project, records := session, work.claim, work.claim.project, work.notes.records.value;
      start, objects := ObjectsOf(session.sys, work.claim.project), ObjectsOf(session.sys, work.claim.project);
      directories, sights := DirectoriesOf(session.sys, work.claim.project), work.notes.sights;
      others, log, troubled, cleared := {}, [], false, work.point == S.Cleared;
      new;
      assert Mirrors(session.sys);
      WorkedOnIsSpent(session);
      LabelsGoWithIds(session.sys, project);
    }

    /**
     What the fields say of the system: the worker is still at it, with these notes, and
     there is this much of the project.
     */
    ghost predicate Mirrors(s: S.Sys)
      reads this`objects, this`directories, this`sights, this`cleared
    {
      && session.me in s.workers && WorksOn(s.workers[session.me], claim, records, sights)
      && cleared == (s.workers[session.me].point == S.Cleared)
      && objects == ObjectsOf(s, project) && directories == DirectoriesOf(s, project)
    }

    /** Whatever is gone was taken by somebody else or was the project's own. */
    ghost predicate Accounted()
      reads this`objects, this`others, this`troubled
    {
      && SameIdSameLabels(start) && Shrunk(start, objects) && AccountedFor(start, objects, others, project)
      && (!troubled ==> others == {})
    }

    ghost predicate Valid()
      reads this, session
    {
      && session.Valid() && claim.project == project && S.LooksIn(claim.job.phase)
      && Accounted() && (forall s :: s == session.sys ==> Mirrors(s))
    }

    /** What the worker has in mind of it all. */
    lemma InMind()
      requires Valid()
      ensures session.Valid() && session.Memory().Some?
      ensures session.Memory().value.claim == claim && session.Memory().value.point in {S.AtPhase, S.Cleared}
      ensures session.Memory().value.notes == S.Notes(Some(records), sights)
    {
      assert Mirrors(session.sys);
    }

    /** Of the project there is what there was, or less, and what went wrong is not forgotten. */
    twostate predicate Lessens()
      reads this, session
    {
      && session.Continues() && Shrunk(old(objects), objects) && directories <= old(directories)
      && (old(troubled) ==> troubled)
    }

    /** Time passes: objects only go, the record only grows, and without trouble the world stands still. */
    twostate predicate Passes()
      reads this, session
    {
      && Lessens()
      && (!troubled ==> objects == old(objects) && directories == old(directories))
      && old(sights) <= sights && session.attempts == old(session.attempts)
    }

    /** Takes note of what others did to the project's things since the record was that long. */
    ghost method Settle(since: nat)
      requires session.Valid() && claim.project == project && S.LooksIn(claim.job.phase) && Accounted()
      requires session.Memory().Some? && WorksOn(session.Memory().value, claim, records, sights)
      requires since <= |session.trace| && S.Spent(session.states[since], project)
      requires objects == ObjectsOf(session.states[since], project) && directories == DirectoriesOf(session.states[since], project)
      modifies this`objects, this`directories, this`others, this`troubled, this`cleared
      ensures Valid() && Passes() && cleared == (session.Memory().value.point == S.Cleared)
    {
      Dwindled(session.routeAttempts, session.states, session.trace, since, project);
      LessOfTheProject(session.states[since], session.sys, project);
      var now, left := ObjectsOf(session.sys, project), DirectoriesOf(session.sys, project);
      others := others + (objects.Keys - now.Keys);
      troubled := troubled || objects != now || directories != left;
      objects, directories, cleared := now, left, session.Memory().value.point == S.Cleared;
      assert Mirrors(session.sys);
    }

    /** Others may take objects away; nobody adds any. */
    method Others()
      requires Valid()
      modifies this, session
      ensures Valid() && Passes() && log == old(log) && sights == old(sights) && cleared == old(cleared)
    {
      ghost var since := |session.trace|;
      assert Mirrors(session.sys);
      WorkedOnIsSpent(session);
      session.Others();
      Settle(since);
    }

    /** The worker renews its claim, as it does before every command. */
    method Pulse() returns (ok: bool)
      requires Valid()
      modifies this, session
      ensures Valid() && Passes() && log == old(log) && sights == old(sights) && cleared == old(cleared)
      ensures !ok ==> troubled
    {
      ghost var since := |session.trace|;
      assert Mirrors(session.sys);
      WorkedOnIsSpent(session);
      ok := session.Beat();
      Settle(since);
      if !ok { troubled := true; }
    }

    /** A heartbeat and a command, which may go wrong. */
    method Call() returns (failure: Option<Error>)
      requires Valid()
      modifies this, session
      ensures Valid() && Passes() && log == old(log) && sights == old(sights) && cleared == old(cleared)
      ensures failure.Some? ==> troubled
    {
      var ok := Pulse();
      if !ok { return Some(ClaimLost); }
      Others();
      var fails: bool, error: Error := *, *;
      if fails {
        troubled := true;
        return Some(error);
      }
      failure := None;
    }

    /** The worker notes down what it sees. */
    method Note(sight: S.Sight)
      requires Valid() && session.Memory().Some? && S.Sees(session.sys, session.Memory().value, sight)
      modifies this`sights, session
      ensures Valid() && sights == old(sights) + {sight} && session.attempts == old(session.attempts) && session.Continues()
    {
      assert Mirrors(session.sys);
      session.Note(sight);
      sights := sights + {sight};
      assert Mirrors(session.sys);
    }

    /** What stands under a name right now; its absence, or its being exactly right, is noted down. */
    method Inspect(r: Resource) returns (seen: Result<Option<string>, Error>)
      requires Valid() && BearsName(KeyOf(r), project)
      modifies this`sights, session
      ensures Valid() && old(sights) <= sights && session.attempts == old(session.attempts) && session.Continues()
      ensures IsSeen(r, seen)
    {
      assert Mirrors(session.sys);
      if KeyOf(r) !in session.sys.site.objects {
        Note(S.NoObject(KeyOf(r)));
        return Success(None);
      }
      var o := session.sys.site.objects[KeyOf(r)];
      if !Exact(o, project, r) { return Failure(Unsure(false)); }
      Note(S.Exactly(r, o.id));
      seen := Success(Some(o.id));
    }

    /** The names of this kind that carry the project's label right now; that there are none is noted down. */
    method ListLabelled(docker: DockerKind) returns (observed: set<Key>)
      requires Valid()
      modifies this`sights, session
      ensures Valid() && old(sights) <= sights && session.attempts == old(session.attempts) && session.Continues()
      ensures forall k :: k in observed <==> Labelled(objects, k, project) && k.docker == docker
      ensures observed == {} ==> S.NoLabel(docker) in sights
    {
      assert Mirrors(session.sys);
      var site := session.sys.site.objects;
      observed := set k | k in site && k.docker == docker && site[k].labels.project == Some(project);
      if observed == {} {
        assert forall k :: k in site && k.docker == docker && site[k].labels.project == Some(project) ==> k in observed;
        Note(S.NoLabel(docker));
      }
    }

    /** Whether a directory of the project is there right now; its absence is noted down. */
    method DirectoryExists(t: Target) returns (there: bool)
      requires Valid() && t in Targets(project, records.deployments)
      modifies this`sights, session
      ensures Valid() && old(sights) <= sights && session.attempts == old(session.attempts) && session.Continues()
      ensures there <==> t in directories
      ensures !there ==> S.NoDirectory(t) in sights
    {
      assert Mirrors(session.sys);
      WorkedOnIsSpent(session);
      there := t in session.sys.site.directories;
      if !there { Note(S.NoDirectory(t)); }
    }

    /** What an observation found now: the exact id, absence, or something else under the name. */
    ghost predicate IsSeen(r: Resource, seen: Result<Option<string>, Error>)
      reads this`objects, this`sights
    {
      match seen
      case Failure(_) => KeyOf(r) in objects && !Exact(objects[KeyOf(r)], project, r)
      case Success(None) => KeyOf(r) !in objects && S.NoObject(KeyOf(r)) in sights
      case Success(Some(id)) => Seen(objects, project, r, id) && S.Exactly(r, id) in sights
    }

    /** The look itself, which goes into the record when it finds the resource. */
    method Look(r: Resource) returns (seen: Result<Option<string>, Error>)
      requires Valid() && BearsName(KeyOf(r), project)
      modifies this`sights, this`log, session
      ensures Valid() && old(sights) <= sights && session.attempts == old(session.attempts) && session.Continues()
      ensures IsSeen(r, seen)
      ensures seen.Success? && seen.value.Some? ==> log == old(log) + [Observed(r, seen.value.value)]
      ensures seen.Failure? || seen.value == None ==> log == old(log)
    {
      seen := Inspect(r);
      if seen.Success? && seen.value.Some? { log := log + [Observed(r, seen.value.value)]; }
    }

    method Observe(r: Resource) returns (seen: Result<Option<string>, Error>)
      requires Valid() && BearsName(KeyOf(r), project)
      modifies this, session
      ensures Valid() && Passes() && cleared == old(cleared)
      ensures seen.Success? || !troubled ==> IsSeen(r, seen)
      ensures seen.Success? && seen.value.Some? ==> log == old(log) + [Observed(r, seen.value.value)]
      ensures seen.Failure? || seen.value == None ==> log == old(log)
    {
      var failure := Call();
      if failure.Some? { return Failure(failure.value); }
      seen := Look(r);
    }

    /** What one look at every expected resource found. */
    ghost predicate Found(rs: seq<Resource>, states: map<Resource, Option<string>>)
      reads this
    {
      forall r :: r in rs ==> r in states && FoundAs(r, states[r])
    }

    ghost predicate FoundAs(r: Resource, state: Option<string>)
      reads this
    {
      match state
      case None => KeyOf(r) !in objects && S.NoObject(KeyOf(r)) in sights
      case Some(id) =>
        && Seen(start, project, r, id) && SeenBefore(log, |log|, Observed(r, id))
        && (!troubled ==> KeyOf(r) in objects)
    }

    /** The record keeps what was in it, orderly and within any rank it was within. */
    twostate predicate Remembers()
      reads this`log
    {
      && Orderly(log)
      && (forall rank: nat :: RankedBelow(old(log), rank) ==> RankedBelow(log, rank))
      && (forall x :: SeenBefore(old(log), |old(log)|, x) ==> SeenBefore(log, |log|, x))
    }

    method ObserveNext(r: Resource) returns (state: Result<Option<string>, Error>)
      requires Valid() && Orderly(log) && BearsName(KeyOf(r), project)
      modifies this, session
      ensures Valid() && Passes() && Remembers()
      ensures state.Success? ==> FoundAs(r, state.value)
      ensures state.Failure? && !troubled ==> KeyOf(r) in objects && !Exact(objects[KeyOf(r)], project, r)
    {
      state := Observe(r);
      if state.Success? && state.value.Some? { LogOther(old(log), Observed(r, state.value.value)); }
    }

    /** The first n of the list were found as the states say. */
    ghost predicate FoundFirst(rs: seq<Resource>, states: map<Resource, Option<string>>, n: nat)
      requires n <= |rs|
      reads this
    {
      forall j :: 0 <= j < n ==> rs[j] in states && FoundAs(rs[j], states[rs[j]])
    }

    method ObserveOneMore(rs: seq<Resource>, states: map<Resource, Option<string>>, n: nat)
      returns (seen: Result<map<Resource, Option<string>>, Error>)
      requires Valid() && Orderly(log) && Named(rs) && n < |rs| && FoundFirst(rs, states, n)
      modifies this, session
      ensures Valid() && Passes() && Remembers()
      ensures seen.Success? ==> FoundFirst(rs, seen.value, n + 1)
      ensures seen.Failure? && !troubled ==> Mislabelled(objects, project, rs)
    {
      var state := ObserveNext(rs[n]);
      if state.Failure? { return Failure(state.error); }
      seen := Success(states[rs[n] := state.value]);
    }

    method ObserveExpected(rs: seq<Resource>) returns (seen: Result<map<Resource, Option<string>>, Error>)
      requires Valid() && Orderly(log) && Named(rs)
      modifies this, session
      ensures Valid() && Passes() && Remembers()
      ensures seen.Success? ==> Found(rs, seen.value)
      ensures seen.Failure? && !troubled ==> Mislabelled(objects, project, rs)
    {
      var states: map<Resource, Option<string>> := map[];
      for n := 0 to |rs|
        invariant Valid() && Passes() && Remembers() && FoundFirst(rs, states, n)
      {
        seen := ObserveOneMore(rs, states, n);
        if seen.Failure? { return; }
        states := seen.value;
      }
      seen := Success(states);
    }

    method RejectExtraOf(rs: seq<Resource>, requireEmpty: bool, docker: DockerKind) returns (failure: Option<Error>)
      requires Valid()
      modifies this, session
      ensures Valid() && Passes() && log == old(log)
      ensures failure == None ==> NoStray(objects, project, rs, requireEmpty, docker)
      ensures failure == None && requireEmpty ==> S.NoLabel(docker) in sights
      ensures failure.Some? && !troubled ==> Stray(objects, project, rs, requireEmpty)
    {
      failure := Call();
      if failure.Some? { return; }
      var observed := ListLabelled(docker);
      var expected := set i | 0 <= i < |rs| :: KeyOf(rs[i]);
      KeysAreExpected(rs, expected);
      ListedIsNoStray(objects, project, rs, requireEmpty, docker, observed, expected);
      failure := if (requireEmpty && observed != {}) || !(observed <= expected) then Some(Unsure(false)) else None;
    }

    method RejectExtraResources(rs: seq<Resource>, requireEmpty: bool) returns (failure: Option<Error>)
      requires Valid()
      modifies this, session
      ensures Valid() && Passes() && log == old(log)
      ensures failure == None ==> forall docker :: NoStray(objects, project, rs, requireEmpty, docker)
      ensures failure == None && requireEmpty ==> {S.NoLabel(Container), S.NoLabel(Network), S.NoLabel(Image)} <= sights
      ensures failure.Some? && !troubled ==> Stray(objects, project, rs, requireEmpty)
    {
      failure := RejectExtraOf(rs, requireEmpty, Container);
      if failure.Some? { return; }
      failure := RejectExtraOf(rs, requireEmpty, Network);
      if failure.Some? { return; }
      failure := RejectExtraOf(rs, requireEmpty, Image);
      if failure.Some? { return; }
      forall docker: DockerKind ensures NoStray(objects, project, rs, requireEmpty, docker) {
        match docker case Container => case Network => case Image =>
      }
    }

    /** The guard, with its heartbeat, right before a removal. */
    method Authorize() returns (failure: Option<Error>)
      requires Valid()
      modifies this, session
      ensures Valid() && Passes() && sights == old(sights)
      ensures if failure == None then log == old(log) + [Guarded] && cleared else troubled && log == old(log)
    {
      ghost var since := |session.trace|;
      assert Mirrors(session.sys);
      WorkedOnIsSpent(session);
      var ok := session.Authorize();
      Settle(since);
      if !ok {
        troubled := true;
        var beaten: bool := *;
        return Some(if beaten then GuardRejected else ClaimLost);
      }
      log := log + [Guarded];
      failure := None;
    }

    /** The notes allow the removal: the object was seen with the right labels, or the records imply the directory. */
    ghost predicate Allowed(kind: S.Kind)
      reads this`sights
    {
      match kind
      case Docker(docker, id) => exists r :: S.Exactly(r, id) in sights && r.docker == docker
      case Entry(t) => t in Targets(project, records.deployments)
      case Directory(t) => t in Targets(project, records.deployments)
      case _ => false
    }

    lemma AllowedIsTakeable(kind: S.Kind)
      requires Valid() && Allowed(kind) && claim.job.phase == D.RuntimeCleanup
      ensures session.Memory().Some? && S.MayTake(session.Memory().value, kind)
      ensures S.RemovesIn(session.Memory().value.claim.job.phase, kind)
    {
      assert Mirrors(session.sys);
      if kind.Docker? {
        var r :| S.Exactly(r, kind.id) in sights && r.docker == kind.docker;
        assert S.Exactly(r, kind.id) in session.Memory().value.notes.sights;
      }
    }

    /** What the worker does for a removal, and what it leaves of the project. */
    method Carry(kind: S.Kind, ok: bool, gone: bool)
      requires Valid() && cleared && claim.job.phase == D.RuntimeCleanup && Allowed(kind)
      modifies session
      ensures session.Valid() && session.Continues()
      ensures session.Memory().Some? && WorksOn(session.Memory().value, claim, records, sights)
      ensures session.Memory().value.point == S.AtPhase
      ensures var after := ObjectsOf(session.sys, project);
              Shrunk(objects, after) && Left(objects, after, kind, ok || gone)
      ensures DirectoriesOf(session.sys, project) == directories - (if kind.Directory? && (ok || gone) then {kind.target} else {})
    {
      AllowedIsTakeable(kind);
      assert Mirrors(session.sys);
      RemovalLeaves(session.sys, session.me, session.Memory().value, kind, ok, gone, project);
      session.Remove(kind, ok, gone);
    }

    /** One removal by the worker, of what the notes allow. */
    method Removes(kind: S.Kind, ok: bool, gone: bool)
      requires Valid() && cleared && claim.job.phase == D.RuntimeCleanup
      requires Allowed(kind) && OnlyOwn(start, kind, project)
      modifies this`objects, this`directories, this`cleared, session
      ensures Valid() && session.Continues() && Shrunk(old(objects), objects) && Left(old(objects), objects, kind, ok || gone)
      ensures directories == old(directories) - (if kind.Directory? && (ok || gone) then {kind.target} else {})
    {
      Carry(kind, ok, gone);
      RemovalIsAccountedFor(start, objects, ObjectsOf(session.sys, project), others, project, kind, ok || gone);
      objects, directories, cleared := ObjectsOf(session.sys, project), DirectoriesOf(session.sys, project), false;
      assert Mirrors(session.sys);
    }

    /** Removes by id: every name of the object goes. A failing command may have removed it all the same. */
    method MutateRemove(r: Resource, id: string) returns (ok: bool)
      requires Valid() && Seen(start, project, r, id) && S.Exactly(r, id) in sights && cleared && claim.job.phase == D.RuntimeCleanup
      modifies this, session
      ensures Valid() && Lessens()
      ensures log == old(log) + [Removed(r, id)] && old(sights) <= sights
      ensures ok ==> forall k :: k in objects ==> !Shares(start, k, r.docker, id)
      ensures !troubled ==> ok && directories == old(directories)
      ensures !troubled ==> forall k :: k in old(objects) && !Shares(start, k, r.docker, id) ==> k in objects
    {
      Others();
      var fails: bool, happened: bool := *, *;
      log := log + [Removed(r, id)];
      if fails { troubled := true; }
      Removes(S.Docker(r.docker, id), !fails, happened);
      ok := !fails;
    }

    /** The guard and the second look, which must find the id of the first. */
    method LookAgain(r: Resource, id: string) returns (failure: Option<Error>)
      requires Valid() && Orderly(log) && BearsName(KeyOf(r), project)
      modifies this, session
      ensures Valid() && Passes() && Remembers()
      ensures failure == None ==> log == old(log) + [Guarded] + [Observed(r, id)] && cleared && S.Exactly(r, id) in sights
      ensures failure == None ==> KeyOf(r) in objects
      ensures !troubled && failure.Some? ==> KeyOf(r) !in objects || !Seen(objects, project, r, id)
    {
      failure := Authorize();
      if failure.Some? { return; }
      LogOther(old(log), Guarded);
      ghost var guarded := log;
      var seen := Observe(r);
      if seen.Failure? { return Some(seen.error); }
      if seen.value.Some? { LogOther(guarded, Observed(r, seen.value.value)); }
      failure := if seen.value == Some(id) then None else Some(Unsure(false));
    }

    /** One removal: guard, second look, and only then the removal of the id seen both times. */
    method RemoveOne(r: Resource, id: string) returns (failure: Option<Error>)
      requires Valid() && Orderly(log) && RankedBelow(log, Rank(r.kind))
      requires Seen(start, project, r, id) && SeenBefore(log, |log|, Observed(r, id))
      requires BearsName(KeyOf(r), project) && claim.job.phase == D.RuntimeCleanup
      modifies this, session
      ensures Valid() && Lessens()
      ensures Orderly(log) && RankedBelow(log, Rank(r.kind))
      ensures forall x :: SeenBefore(old(log), |old(log)|, x) ==> SeenBefore(log, |log|, x)
      ensures failure == None ==> forall k :: k in objects ==> !Shares(start, k, r.docker, id)
      ensures !troubled ==> directories == old(directories) && (failure == None <==> KeyOf(r) in old(objects))
      ensures !troubled ==> forall k :: k in old(objects) && !Shares(start, k, r.docker, id) ==> k in objects
    {
      failure := LookAgain(r, id);
      if failure.Some? { return; }
      failure := Call();
      if failure.Some? { return; }
      LogRemoval(old(log), r, id);
      RemovalSeen(old(log), r, id);
      var ok := MutateRemove(r, id);
      failure := if ok then None else Some(Unsure(false));
    }

    /** What the removals found out before r's turn still holds of the world. */
    ghost predicate Waiting(r: Resource, state: Option<string>)
      reads this
    {
      match state
      case None => KeyOf(r) !in objects
      case Some(id) => Seen(start, project, r, id) && SeenBefore(log, |log|, Observed(r, id))
    }

    /** What holds before the turn of the i-th of the queue: what went before is gone, and the rest is as it was seen. */
    ghost predicate OnTurn(queue: seq<Resource>, states: map<Resource, Option<string>>, i: nat)
      requires i <= |queue| && forall r :: r in queue ==> r in states
      reads this
    {
      && Orderly(log) && AllAbsent(objects, queue[..i])
      && (forall m :: i <= m < |queue| ==> RankedBelow(log, Rank(queue[m].kind)) && Waiting(queue[m], states[queue[m]]))
    }

    /** The turn of the i-th: it is skipped if it was not there, and removed otherwise. */
    method TakeTurn(queue: seq<Resource>, states: map<Resource, Option<string>>, i: nat, ghost began: map<Key, Object>)
      returns (failure: Option<Error>)
      requires Valid() && i < |queue| && Ranked(queue) && DistinctKeys(queue) && Named(queue) && claim.job.phase == D.RuntimeCleanup
      requires (forall r :: r in queue ==> r in states) && OnTurn(queue, states, i)
      requires !troubled ==> Tracks(began, objects, queue, i) && (states[queue[i]].Some? <==> KeyOf(queue[i]) in began)
      modifies this, session
      ensures Valid() && Lessens()
      ensures Orderly(log) && (failure == None ==> OnTurn(queue, states, i + 1))
      ensures !troubled ==> directories == old(directories)
      ensures !troubled && failure == None ==> Tracks(began, objects, queue, i + 1)
      ensures !troubled && failure.Some? ==> SharedId(began, queue) && (Shrunk(began, old(objects)) ==> Lost(began, objects))
    {
      KeepWaiting(queue, i);
      if states[queue[i]] == None {
        if !troubled { SkipTracks(began, objects, queue, i); }
        return None;
      }
      failure := RemoveNext(queue, states[queue[i]].value, i, began);
    }

    method RemoveNext(queue: seq<Resource>, id: string, i: nat, ghost began: map<Key, Object>) returns (failure: Option<Error>)
      requires Valid() && i < |queue| && DistinctKeys(queue) && BearsName(KeyOf(queue[i]), project)
      requires claim.job.phase == D.RuntimeCleanup && Orderly(log) && RankedBelow(log, Rank(queue[i].kind))
      requires Seen(start, project, queue[i], id) && SeenBefore(log, |log|, Observed(queue[i], id))
      requires !troubled ==> Tracks(began, objects, queue, i) && KeyOf(queue[i]) in began
      modifies this, session
      ensures Valid() && Lessens()
      ensures Orderly(log) && RankedBelow(log, Rank(queue[i].kind)) && (failure == None ==> KeyOf(queue[i]) !in objects)
      ensures forall x :: SeenBefore(old(log), |old(log)|, x) ==> SeenBefore(log, |log|, x)
      ensures !troubled ==> directories == old(directories)
      ensures !troubled && failure == None ==> Tracks(began, objects, queue, i + 1)
      ensures !troubled && failure.Some? ==> SharedId(began, queue) && (Shrunk(began, old(objects)) ==> Lost(began, objects))
    {
      ghost var now := objects;
      failure := RemoveOne(queue[i], id);
      if failure == None {
        if !troubled { RemovalTracks(began, now, objects, queue, i); }
      } else if !troubled {
        GoneTooSoon(began, now, queue, i);
        assert KeyOf(queue[i]) in began && KeyOf(queue[i]) !in objects;
      }
    }

    method RemoveAll(queue: seq<Resource>, states: map<Resource, Option<string>>) returns (failure: Option<Error>)
      requires Valid() && Orderly(log) && RankedBelow(log, 0) && Ranked(queue) && DistinctKeys(queue) && Found(queue, states)
      requires Named(queue) && claim.job.phase == D.RuntimeCleanup
      modifies this, session
      ensures Valid() && Lessens()
      ensures Orderly(log)
      ensures failure == None ==> AllAbsent(objects, queue)
      ensures !troubled ==> directories == old(directories) && (failure == None <==> !SharedId(old(objects), queue))
      ensures !troubled && failure.Some? ==> Lost(old(objects), objects)
    {
      assert !troubled ==> forall i :: 0 <= i < |queue| ==> FoundAs(queue[i], states[queue[i]]);
      for i := 0 to |queue|
        invariant Valid() && Lessens()
        invariant OnTurn(queue, states, i)
        invariant !troubled ==> directories == old(directories) && Tracks(old(objects), objects, queue, i)
      {
        failure := TakeTurn(queue, states, i, old(objects));
        if failure.Some? { return; }
      }
      assert queue[..|queue|] == queue;
      if !troubled { TracksApart(old(objects), objects, queue); }
      failure := None;
    }

    /** One entry of a directory, or the directory itself, goes behind a guard of its own. */
    method Unlink(kind: S.Kind) returns (failure: Option<Error>)
      requires Valid() && Orderly(log) && claim.job.phase == D.RuntimeCleanup
      requires (kind.Entry? || kind.Directory?) && kind.target in Targets(project, records.deployments)
      modifies this, session
      ensures Valid() && Lessens()
      ensures Orderly(log) && old(sights) <= sights
      ensures failure == None && kind.Directory? ==> kind.target !in directories
      ensures !troubled ==> failure == None && objects == old(objects)
      ensures !troubled ==> directories == old(directories) - if kind.Directory? then {kind.target} else {}
    {
      failure := Authorize();
      if failure.Some? { return; }
      LogOther(old(log), Guarded);
      failure := Drop(kind);
    }

    method Drop(kind: S.Kind) returns (failure: Option<Error>)
      requires Valid() && cleared && claim.job.phase == D.RuntimeCleanup
      requires (kind.Entry? || kind.Directory?) && kind.target in Targets(project, records.deployments)
      modifies this`objects, this`directories, this`cleared, this`troubled, session
      ensures Valid() && Lessens()
      ensures failure == None && kind.Directory? ==> kind.target !in directories
      ensures !troubled ==> failure == None && objects == old(objects)
      ensures !troubled ==> directories == old(directories) - if kind.Directory? then {kind.target} else {}
    {
      var fails: bool, happened: bool := *, *;
      Removes(kind, !fails, happened);
      if fails { troubled := true; }
      failure := if fails then Some(FilesystemUnsure) else None;
    }

    /** Empties and removes one private directory, authorizing each deletion, and looks again. */
    method RemoveDirectory(t: Target) returns (failure: Option<Error>)
      requires Valid() && Orderly(log) && t in Targets(project, records.deployments) && claim.job.phase == D.RuntimeCleanup
      modifies this, session
      ensures Valid() && Lessens()
      ensures Orderly(log) && old(sights) <= sights
      ensures failure == None ==> t !in directories && S.NoDirectory(t) in sights
      ensures !troubled ==> failure == None && objects == old(objects) && directories == old(directories) - {t}
    {
      failure := Call();
      if failure.Some? { return; }
      var there := DirectoryExists(t);
      if !there { return None; }
      var entries: int := *;
      while entries > 0
        invariant Valid() && Lessens() && Orderly(log) && old(sights) <= sights
        invariant !troubled ==> objects == old(objects) && directories == old(directories)
      {
        failure := Unlink(S.Entry(t));
        if failure.Some? { return; }
        entries := entries - 1;
      }
      failure := Unlink(S.Directory(t));
      if failure.Some? { return; }
      there := DirectoryExists(t);
      if there { failure := Some(FilesystemUnsure); }
    }

    method RemoveDirectories(targets: seq<Target>) returns (failure: Option<Error>)
      requires Valid() && Orderly(log) && targets == Targets(project, records.deployments) && claim.job.phase == D.RuntimeCleanup
      modifies this, session
      ensures Valid() && Lessens()
      ensures Orderly(log) && old(sights) <= sights
      ensures failure == None ==> forall i :: 0 <= i < |targets| ==> targets[i] !in directories && S.NoDirectory(targets[i]) in sights
      ensures !troubled ==> failure == None && objects == old(objects)
    {
      for i := 0 to |targets|
        invariant Valid() && Lessens()
        invariant Orderly(log) && old(sights) <= sights
        invariant forall j :: 0 <= j < i ==> targets[j] !in directories && S.NoDirectory(targets[j]) in sights
        invariant !troubled ==> objects == old(objects)
      {
        failure := RemoveDirectory(targets[i]);
        if failure.Some? { return; }
      }
      failure := None;
    }

    /** Every expected object was seen to be absent. */
    ghost predicate AllSeen(rs: seq<Resource>)
      reads this
    {
      forall i :: 0 <= i < |rs| ==> S.NoObject(KeyOf(rs[i])) in sights
    }

    ghost predicate Named(rs: seq<Resource>)
    {
      forall r :: r in rs ==> BearsName(KeyOf(r), project)
    }

    /** Nothing expected and nothing labelled is left. */
    method ConfirmAbsent(rs: seq<Resource>) returns (failure: Option<Error>)
      requires Valid() && Orderly(log) && Named(rs)
      modifies this, session
      ensures Valid() && Passes() && Orderly(log)
      ensures failure == None ==> AllAbsent(objects, rs) && NothingLabelled(objects, project)
      ensures failure == None ==> AllSeen(rs) && {S.NoLabel(Container), S.NoLabel(Network), S.NoLabel(Image)} <= sights
      ensures !troubled ==> (failure == None <==> AllAbsent(objects, rs) && NothingLabelled(objects, project))
    {
      var seen := ObserveExpected(rs);
      if seen.Failure? { return Some(seen.error); }
      if exists i :: 0 <= i < |rs| && seen.value[rs[i]].Some? { return Some(Unsure(false)); }
      assert AllAbsent(objects, rs);
      failure := RejectExtraResources(rs, true);
      if failure == None { NoStrayMeansNothingLabelled(objects, project, rs); }
    }

    /** The first looks: every expected resource, no other, and no unsafe directory. */
    method Survey(rs: seq<Resource>) returns (seen: Result<map<Resource, Option<string>>, Error>)
      requires Valid() && Orderly(log) && Named(rs)
      modifies this, session
      ensures Valid() && Passes() && Orderly(log)
      ensures RankedBelow(old(log), 0) ==> RankedBelow(log, 0)
      ensures seen.Success? ==> Found(rs, seen.value)
      ensures !troubled ==>
                (seen.Success? <==> !Mislabelled(objects, project, rs) && !Stray(objects, project, rs, false))
    {
      seen := ObserveExpected(rs);
      if seen.Failure? { return; }
      var failure := RejectExtraResources(rs, false);
      if failure == None {
        failure := Call();
      }
      if failure.Some? { return Failure(failure.value); }
      FoundIsExact(rs, seen.value);
      if !troubled { NoStrayAtAll(objects, project, rs, false); }
    }

    lemma FoundIsExact(rs: seq<Resource>, states: map<Resource, Option<string>>)
      requires Valid() && Found(rs, states)
      ensures !troubled ==> !Mislabelled(objects, project, rs)
    {
      forall r | r in rs && KeyOf(r) in objects && !troubled ensures Exact(objects[KeyOf(r)], project, r) {
        assert FoundAs(r, states[r]);
      }
    }

    /**
     The teardown. What is gone afterwards was the project's own or was taken by others;
     every removal was guarded and looked at twice, in order; on success nothing of the
     project is left. Untroubled, it succeeds exactly when the records are consistent, no
     expected name is mislabelled, nothing else carries the project's label, and no two
     expected names share an object; if only the last is not so, it has removed something.
     */
    method Run(deployments: seq<Deployment>, runtime: Option<Runtime>) returns (r: Result<(), Error>)
      requires Valid() && log == [] && !troubled && objects == start
      requires records == S.Records(deployments, runtime) && claim.job.phase == D.RuntimeCleanup
      modifies this, session
      ensures Valid() && session.Continues() && Orderly(log)
      ensures r.Success? ==>
        && Consistent(project, deployments, runtime)
        && AllAbsent(objects, Expected(project, deployments, runtime)) && NothingLabelled(objects, project)
        && (forall i :: 0 <= i < |Targets(project, deployments)| ==> Targets(project, deployments)[i] !in directories)
        && S.LookedThrough(project, S.Notes(Some(records), sights))
      ensures !troubled ==> (r.Success? <==> Removable(start, project, deployments, runtime))
      ensures !troubled && r.Failure? ==> Failed(start, objects, project, deployments, runtime)
    {
      var expected := ExpectedResources(project, deployments, runtime);
      if expected.Failure? { return Failure(expected.error); }
      var rs := expected.value;
      NamesAreOwn(deployments, runtime);
      var seen := Survey(rs);
      if seen.Failure? { return Failure(seen.error); }
      r := RemoveFound(rs, seen.value, Targets(project, deployments));
    }

    method RemoveFound(rs: seq<Resource>, states: map<Resource, Option<string>>, targets: seq<Target>) returns (r: Result<(), Error>)
      requires Valid() && Orderly(log) && RankedBelow(log, 0) && DistinctKeys(rs) && Found(rs, states)
      requires Named(rs) && targets == Targets(project, records.deployments) && claim.job.phase == D.RuntimeCleanup
      requires !troubled ==> !Stray(objects, project, rs, false)
      modifies this, session
      ensures Valid() && session.Continues() && Orderly(log) && (old(troubled) ==> troubled)
      ensures r.Success? ==> AllAbsent(objects, rs) && NothingLabelled(objects, project)
      ensures r.Success? ==> forall i :: 0 <= i < |targets| ==> targets[i] !in directories && S.NoDirectory(targets[i]) in sights
      ensures r.Success? ==> AllSeen(rs) && {S.NoLabel(Container), S.NoLabel(Network), S.NoLabel(Image)} <= sights
      ensures !troubled ==> (r.Success? <==> !SharedId(old(objects), rs))
      ensures !troubled && r.Failure? ==> Lost(old(objects), objects)
    {
      RemovalOrderSorts(rs);
      var queue := InRemovalOrder(rs);
      var failure := RemoveAll(queue, states);
      if failure.Some? { return Failure(failure.value); }
      if !troubled { RemovedIsClean(old(objects), objects, project, rs, queue); }
      failure := ConfirmAbsent(rs);
      if failure.Some? { return Failure(failure.value); }
      failure := RemoveDirectories(targets);
      if failure.Some? { return Failure(failure.value); }
      failure := ConfirmAbsent(rs);
      r := if failure == None then Success(()) else Failure(failure.value);
    }

    lemma NamesAreOwn(deployments: seq<Deployment>, runtime: Option<Runtime>)
      ensures Named(Expected(project, deployments, runtime))
    {
      forall r | r in Expected(project, deployments, runtime) ensures BearsName(KeyOf(r), project) {
        ExpectedBearsName(project, deployments, runtime, r);
      }
    }

    /** The directories of the list, one after the other; the first that is there makes it fail. */
    method DirectoriesAbsent(targets: seq<Target>) returns (failure: Option<Error>)
      requires Valid() && targets == Targets(project, records.deployments)
      modifies this, session
      ensures Valid() && Passes() && log == old(log)
      ensures failure == None ==> forall i :: 0 <= i < |targets| ==> targets[i] !in directories && S.NoDirectory(targets[i]) in sights
      ensures !troubled && (forall i :: 0 <= i < |targets| ==> targets[i] !in directories) ==> failure == None
    {
      for i := 0 to |targets|
        invariant Valid() && Passes() && log == old(log)
        invariant forall j :: 0 <= j < i ==> targets[j] !in directories && S.NoDirectory(targets[j]) in sights
      {
        Others();
        var there := DirectoryExists(targets[i]);
        if there { return Some(FilesystemUnsure); }
      }
      failure := None;
    }

    /** Changes nothing; untroubled it succeeds exactly when nothing of the project is left. */
    method VerifyAbsent(deployments: seq<Deployment>, runtime: Option<Runtime>) returns (r: Result<(), Error>)
      requires Valid() && Orderly(log) && records == S.Records(deployments, runtime)
      modifies this, session
      ensures Valid() && Passes() && Orderly(log)
      ensures var gone := && Consistent(project, deployments, runtime)
                          && AllAbsent(objects, Expected(project, deployments, runtime)) && NothingLabelled(objects, project)
                          && forall i :: 0 <= i < |Targets(project, deployments)| ==> Targets(project, deployments)[i] !in directories;
              (r.Success? ==> gone) && (!troubled && gone ==> r.Success?)
      ensures r.Success? ==> S.LookedThrough(project, S.Notes(Some(records), sights))
    {
      var failure := Authorize();
      if failure.Some? { return Failure(failure.value); }
      LogOther(old(log), Guarded);
      var expected := ExpectedResources(project, deployments, runtime);
      if expected.Failure? { return Failure(expected.error); }
      NamesAreOwn(deployments, runtime);
      failure := ConfirmAbsent(expected.value);
      if failure.Some? { return Failure(failure.value); }
      failure := DirectoriesAbsent(Targets(project, deployments));
      r := if failure == None then Success(()) else Failure(failure.value);
    }
  }
}
