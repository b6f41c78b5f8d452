/**
 A concrete run in which public-routes.conf ends up naming a route that is not applied,
 although the worker is idle and owes no reconciliation: the reload fails after the
 switch, and then the old file cannot be written back.
 */
module StaleFile {
  import opened Wrappers
  import opened Ids
  import opened RouteStore
  import opened RoutingHost
  import EdgeHostname

  const HOST: Hostname := "a.b"

  /** An enabled route nobody has worked on yet. */
  function Requested(): Db {
    Db(map[1 := Ready], map[1 := Route(HOST, Enabled, Pending, 1, None, None, None)],
       map[1 := Job(1, JobPending, 0, 0, None, None)], 0)
  }

  function Claimed(): Claim {
    Claim(1, Route(HOST, Enabled, Applying, 1, None, None, None), 0, 0, 1, 1)
  }

  function Serving(expiresAt: Time): Db {
    Db(map[1 := Ready], map[1 := Route(HOST, Enabled, Applying, 1, None, None, None)],
       map[1 := Job(1, JobClaimed, 1, 0, Some(Lease(0, 0, expiresAt)), None)], 1)
  }

  function Empty(): Config {
    Generated(map[], 0)
  }

  function At(db: Db, files: Files, worker: Worker): World {
    World(db, files, worker, 3, map[(1, 1) := (HOST, Enabled)], {1}, None)
  }

  /** The startup pass over no applied routes, and the pass that serves the claim. */
  function Pass(mode: Mode): Work {
    if mode.Serve? then Work(mode, map[1 := HOST], map[], Generated(map[1 := HOST], 0), NoRoutes)
    else Work(mode, map[], map[], Empty(), NoRoutes)
  }

  lemma Extend(w: World, run: seq<Step>, s: Step)
    ensures After(w, run + [s]) == Do(After(w, run), s)
  {
    assert (run + [s])[..|run|] == run;
  }

  lemma HostIsValid()
    ensures EdgeHostname.Valid(HOST)
  {
    assert HOST[2..] == "b" && HOST[..1] == "a";
    assert EdgeHostname.Labels("b", 0);
    assert EdgeHostname.Labels(HOST, 1);
  }

  ghost predicate Reaches(w: World) {
    exists run :: After(Init(3), run) == w
  }

  /** One more step of the scripted run. */
  lemma Then(w: World, s: Step, w': World)
    requires Reaches(w) && Do(w, s) == w'
    ensures Reaches(w')
  {
    var run :| After(Init(3), run) == w;
    Extend(Init(3), run, s);
  }

  const NONE := Files(None, None)
  const CLEAN := Files(Some(Empty()), None)

  lemma RequestRoute()
    ensures Reaches(At(Requested(), NONE, Down))
  {
    assert After(Init(3), []) == Init(3);
    var created := World(Db(map[1 := Ready], map[], map[], 0), NONE, Down, 3, map[], {1}, None);
    Then(Init(3), CreateProject(1), created);
    Then(created, EnableRoute(1, HOST, 0), At(Requested(), NONE, Down));
  }

  lemma EnterStartUp()
    ensures Reaches(At(Requested(), NONE, InApply(Validated, Pass(Startup))))
  {
    RequestRoute();
    Then(At(Requested(), NONE, Down), Boot, At(Requested(), NONE, Booted));
    Then(At(Requested(), NONE, Booted), BeginReconcile(0), At(Requested(), NONE, InApply(Entered, Pass(Startup))));
    Validates(Requested(), NONE, Pass(Startup));
  }

  lemma Validates(db: Db, files: Files, work: Work)
    requires Reaches(At(db, files, InApply(Entered, work))) && files.journal == None
    ensures Reaches(At(db, files, InApply(Validated, work)))
  {
    Then(At(db, files, InApply(Entered, work)), Validate, At(db, files, InApply(Validated, work)));
  }

  /** The three tests before a pass reads the file, for either pass. */
  lemma Fences(db: Db, files: Files, work: Work)
    requires Reaches(At(db, files, InApply(Validated, work)))
    requires FenceDo(At(db, files, InApply(Validated, work)), work, 0, 9) == Success(At(db, files, InApply(Validated, work)))
    requires FenceDo(At(db, files, InApply(Fenced, work)), work, 0, 9) == Success(At(db, files, InApply(Fenced, work)))
    ensures Reaches(At(db, files, InApply(Tested, work)))
  {
    Then(At(db, files, InApply(Validated, work)), Fence(0, 9), At(db, files, InApply(Fenced, work)));
    Then(At(db, files, InApply(Fenced, work)), Fence(0, 9), At(db, files, InApply(Tested, work)));
  }

  /** From a tested candidate to the switched file. */
  lemma Switches(db: Db, files: Files, work: Work, read: Work, journal: Transaction)
    requires Reaches(At(db, files, InApply(Tested, work)))
    requires files.config == (if read.previous == NoRoutes then None else Some(read.previous))
    requires read == work.(previous := read.previous)
    requires journal == Transaction(read.previous, read.rendered, PreviousHostname(read.mode), JournalPrepared)
    ensures Reaches(At(db, Files(Some(read.rendered), Some(journal)), InApply(Switched, read)))
  {
    Then(At(db, files, InApply(Tested, work)), ReadCurrent, At(db, files.(config := Some(read.previous)), InApply(Read, read)));
    Then(At(db, files.(config := Some(read.previous)), InApply(Read, read)), WriteJournal,
         At(db, Files(Some(read.previous), Some(journal)), InApply(Journaled, read)));
    Then(At(db, Files(Some(read.previous), Some(journal)), InApply(Journaled, read)), Switch,
         At(db, Files(Some(read.rendered), Some(journal)), InApply(Switched, read)));
  }

  lemma FinishStartUp()
    ensures Reaches(At(Requested(), CLEAN, Idle(false)))
  {
    EnterStartUp();
    Fences(Requested(), NONE, Pass(Startup));
    var prepared := Transaction(NoRoutes, Empty(), None, JournalPrepared);
    Switches(Requested(), NONE, Pass(Startup), Pass(Startup), prepared);
    CommitStartUp(Files(Some(Empty()), Some(prepared)), Files(Some(Empty()), Some(prepared.(phase := JournalCommitted))));
  }

  lemma CommitStartUp(prepared: Files, committed: Files)
    requires Reaches(At(Requested(), prepared, InApply(Switched, Pass(Startup))))
    requires prepared == Files(Some(Empty()), Some(Transaction(NoRoutes, Empty(), None, JournalPrepared)))
    requires committed == Files(Some(Empty()), Some(Transaction(NoRoutes, Empty(), None, JournalCommitted)))
    ensures Reaches(At(Requested(), CLEAN, Idle(false)))
  {
    var work := Pass(Startup);
    AuthorizeStartUp(prepared);
    FinalizeStartUp(prepared);
    Then(At(Requested(), prepared, InApply(Finalized, work)), MarkCommitted, At(Requested(), committed, InApply(Marked, work)));
    ClearStartUp(committed);
  }

  lemma ClearStartUp(files: Files)
    requires Reaches(At(Requested(), files, InApply(Marked, Pass(Startup)))) && files.config == Some(Empty())
    ensures Reaches(At(Requested(), CLEAN, Idle(false)))
  {
    Then(At(Requested(), files, InApply(Marked, Pass(Startup))), ClearJournal, At(Requested(), CLEAN, Idle(false)));
  }

  lemma FinalizeStartUp(files: Files)
    requires Reaches(At(Requested(), files, InApply(Authorized, Pass(Startup))))
    ensures Reaches(At(Requested(), files, InApply(Finalized, Pass(Startup))))
  {
    var work := Pass(Startup);
    Then(At(Requested(), files, InApply(Authorized, work)), Finalize(0, Answered), At(Requested(), files, InApply(Finalized, work)));
  }

  lemma AuthorizeStartUp(files: Files)
    requires Reaches(At(Requested(), files, InApply(Switched, Pass(Startup))))
    ensures Reaches(At(Requested(), files, InApply(Authorized, Pass(Startup))))
  {
    var work := Pass(Startup);
    Then(At(Requested(), files, InApply(Switched, work)), Probe, At(Requested(), files, InApply(Probed, work)));
    Then(At(Requested(), files, InApply(Probed, work)), Fence(0, 9), At(Requested(), files, InApply(Authorized, work)));
  }

  lemma ServingBeat()
    ensures Renew(Serving(9), Claimed(), 0, 9) == Success(Serving(9))
    ensures Applied(Serving(9)) == map[] && AppliedHosts(Serving(9)) == map[]
    ensures Claimable(Requested(), 1, 0) && ClaimJob(Requested(), 1, 0, 0, 9) == (Serving(9), Claimed())
  {
    var (db, c) := ClaimJob(Requested(), 1, 0, 0, 9);
    assert c == Claimed();
    assert db.jobs[1] == Serving(9).jobs[1] && db.routes[1] == Serving(9).routes[1];
    assert db.jobs == Serving(9).jobs && db.routes == Serving(9).routes;
    assert Renew(Serving(9), Claimed(), 0, 9).value.jobs == Serving(9).jobs;
  }

  lemma PlanFirstRoute()
    ensures Do(At(Serving(9), CLEAN, Holding(Claimed())), Plan(0))
         == At(Serving(9), CLEAN, InApply(Entered, Pass(Serve(Claimed()))))
  {
    HostIsValid();
    ServingBeat();
    assert Planned(map[], Serve(Claimed())) == map[1 := HOST];
    assert |map[1 := HOST]| == 1;
  }

  lemma BeginServing()
    ensures Reaches(At(Serving(9), CLEAN, InApply(Validated, Pass(Serve(Claimed())))))
  {
    FinishStartUp();
    ServingBeat();
    Then(At(Requested(), CLEAN, Idle(false)), TakeJob(1, 0, 0, 9), At(Serving(9), CLEAN, Holding(Claimed())));
    PlanFirstRoute();
    Then(At(Serving(9), CLEAN, Holding(Claimed())), Plan(0), At(Serving(9), CLEAN, InApply(Entered, Pass(Serve(Claimed())))));
    Validates(Serving(9), CLEAN, Pass(Serve(Claimed())));
  }

  function Stuck(files: Files): World {
    At(Serving(9), files, Reporting(Claimed(), Because(Unexpected), false)).(stale := Some(Claimed()))
  }

  lemma GetStuck(files: Files, work: Work)
    requires files.config == Some(work.rendered) && work == Pass(Serve(Claimed())).(previous := Empty())
    requires Reaches(At(Serving(9), files, InApply(Switched, work)))
    ensures Reaches(Stuck(files))
  {
    var lost := EdgeFailure(true, false);
    Then(At(Serving(9), files, InApply(Switched, work)), Throw(lost), At(Serving(9), files, InRestore(false, work, lost)));
    Then(At(Serving(9), files, InRestore(false, work, lost)), RestoreWriteFails, Stuck(files));
  }

  lemma FailToRestore(files: Files, work: Work)
    requires files.config == Some(work.rendered) && work == Pass(Serve(Claimed())).(previous := Empty())
    requires Reaches(At(Serving(9), files, InApply(Switched, work)))
    ensures exists w :: Reaches(w) && w.worker == Idle(false) && w.files == files && AppliedHosts(w.db) == map[]
  {
    GetStuck(files, work);
    var stuck := Stuck(files);
    var idle := Do(stuck, Deliver(0, 0, "UNEXPECTED_ROUTING_FAILURE"));
    Then(stuck, Deliver(0, 0, "UNEXPECTED_ROUTING_FAILURE"), idle);
  }

  /** Without the hypothesis that a restore can write, the file may keep showing a route that is not applied. */
  lemma FileCanStayWrong()
    ensures exists run :: var w := After(Init(3), run);
              w.worker == Idle(false) && RoutesOf(w.files.config) != AppliedHosts(w.db)
  {
    var work := Pass(Serve(Claimed()));
    BeginServing();
    ServingBeat();
    Fences(Serving(9), CLEAN, work);
    var journal := Transaction(Empty(), work.rendered, None, JournalPrepared);
    Switches(Serving(9), CLEAN, work, work.(previous := Empty()), journal);
    FailToRestore(Files(Some(work.rendered), Some(journal)), work.(previous := Empty()));
    var w :| Reaches(w) && w.worker == Idle(false) && w.files.config == Some(work.rendered) && AppliedHosts(w.db) == map[];
    var run :| After(Init(3), run) == w;
    assert 1 in RoutesOf(w.files.config) && 1 !in AppliedHosts(w.db);
  }
}
