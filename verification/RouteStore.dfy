/**
 The tables behind public hostnames and the transactions that change them. Every
 transaction is one function on the tables: it either commits (Success carries the new
 tables) or is rolled back (Failure). The class in RouteRepository performs the same
 transactions by updating its rows in place.
 */
module RouteStore {
  import opened Wrappers
  import opened Ids

  type Hostname = string

  datatype Desired = Enabled | Disabled
  datatype Status = Pending | Applying | Active | Inactive | Failed | Uncertain
  datatype JobState = JobPending | JobClaimed | JobSucceeded | JobFailed

  datatype Route = Route(
    hostname: Hostname,
    desired: Desired,
    status: Status,
    revision: nat,
    appliedRevision: Option<nat>,
    appliedHostname: Option<Hostname>,
    lastError: Option<string>)

  datatype Job = Job(
    revision: nat,
    state: JobState,
    attempts: nat,
    availableAt: Time,
    lease: Option<Lease>,
    lastError: Option<string>)

  /** What a worker keeps from the transaction that claimed a job. */
  datatype Claim = Claim(
    project: ProjectId,
    route: Route,
    owner: WorkerId,
    token: Token,
    revision: nat,
    attempts: nat)

  /** One row of the applied snapshot. */
  datatype AppliedRow = AppliedRow(revision: Option<nat>, hostname: Hostname)

  datatype RouteError = ProjectDeleting | RouteNotFound | HostnameConflict | ClaimLost | UnknownProject

  datatype Db = Db(
    projects: map<ProjectId, ProjectStatus>,
    routes: map<ProjectId, Route>,
    jobs: map<ProjectId, Job>,
    nextToken: Token)

  const GATEWAY_START_FAILED := "GATEWAY_START_FAILED"

  // ---------------------------------------------------------------- reading the tables

  function Applied(db: Db): map<ProjectId, AppliedRow> {
    map p | p in db.routes && db.routes[p].appliedHostname.Some?
      :: AppliedRow(db.routes[p].appliedRevision, db.routes[p].appliedHostname.value)
  }

  /** The project-to-hostname map the routing file should hold. */
  function AppliedHosts(db: Db): map<ProjectId, Hostname> {
    map p | p in db.routes && db.routes[p].appliedHostname.Some? :: db.routes[p].appliedHostname.value
  }

  /** The projects whose route exists and has not been removed. */
  function Unremoved(db: Db): set<ProjectId> {
    set p | p in db.routes && db.routes[p].status != Inactive
  }

  predicate Holds(r: Route, h: Hostname) {
    r.hostname == h || r.appliedHostname == Some(h)
  }

  predicate HostnameAvailable(db: Db, p: ProjectId, h: Hostname) {
    forall q :: q in db.routes && q != p ==> !Holds(db.routes[q], h)
  }

  /** The route the deletion guard accepts: desired off, applied, and nothing left. */
  predicate Removed(r: Route) {
    && r.desired == Disabled
    && r.status == Inactive
    && r.appliedRevision == Some(r.revision)
    && r.appliedHostname == None
  }

  predicate RouteGone(db: Db, p: ProjectId) {
    p in db.routes ==> Removed(db.routes[p])
  }

  predicate MayMutate(db: Db, p: ProjectId) {
    p in db.projects ==> db.projects[p] != Deleting
  }

  predicate Live(db: Db, c: Claim, now: Time) {
    && c.project in db.jobs
    && c.project in db.routes
    && db.routes[c.project].revision == db.jobs[c.project].revision == c.revision
    && db.jobs[c.project].state == JobClaimed
    && db.jobs[c.project].lease.Some?
    && db.jobs[c.project].lease.value.owner == c.owner
    && db.jobs[c.project].lease.value.token == c.token
    && db.jobs[c.project].lease.value.expiresAt > now
  }

  predicate Claimable(db: Db, p: ProjectId, now: Time) {
    && p in db.jobs
    && p in db.routes
    && db.routes[p].revision == db.jobs[p].revision
    && (|| (db.jobs[p].state == JobPending && db.jobs[p].availableAt <= now)
        || (db.jobs[p].state == JobClaimed && db.jobs[p].lease.Some? && db.jobs[p].lease.value.expiresAt <= now))
  }

  // ---------------------------------------------------------------- transactions

  /** Both rows of a project after its desired state was (re)requested. */
  function Request(db: Db, p: ProjectId, r: Route, revision: nat, now: Time): Db {
    db.(routes := db.routes[p := r.(status := Pending, revision := revision, lastError := None)],
        jobs := db.jobs[p := Job(revision, JobPending, 0, now, None, None)])
  }

  function SetEnabled(db: Db, p: ProjectId, h: Hostname, now: Time): Result<Db, RouteError> {
    if !MayMutate(db, p) then Failure(ProjectDeleting)
    else if !HostnameAvailable(db, p, h) then Failure(HostnameConflict)
    else if p !in db.routes then
      if p !in db.projects then Failure(UnknownProject)
      else Success(Request(db, p, Route(h, Enabled, Pending, 1, None, None, None), 1, now))
    else
      var r := db.routes[p];
      var same := r.desired == Enabled && r.hostname == h;
      if same && r.status in {Pending, Applying, Active} then Success(db)
      else Success(Request(db, p, r.(hostname := h, desired := Enabled),
                           if same then r.revision else r.revision + 1, now))
  }

  function DisableRow(db: Db, p: ProjectId, now: Time): Db
    requires p in db.routes
  {
    var r := db.routes[p];
    var same := r.desired == Disabled;
    if same && r.status in {Pending, Applying, Inactive} then db
    else Request(db, p, r.(desired := Disabled), if same then r.revision else r.revision + 1, now)
  }

  function Disable(db: Db, p: ProjectId, now: Time): Result<Db, RouteError> {
    if !MayMutate(db, p) then Failure(ProjectDeleting)
    else if p !in db.routes then Failure(RouteNotFound)
    else Success(DisableRow(db, p, now))
  }

  function DisableForDeletion(db: Db, p: ProjectId, now: Time): Result<Db, RouteError> {
    if p !in db.projects || db.projects[p] != Deleting then Failure(ProjectDeleting)
    else if p !in db.routes then Success(db)
    else Success(DisableRow(db, p, now))
  }

  function WakePending(db: Db, p: ProjectId, now: Time): Db {
    if && p in db.jobs && p in db.routes
       && db.jobs[p].state == JobPending && db.jobs[p].lastError == Some(GATEWAY_START_FAILED)
       && db.routes[p].desired == Enabled && db.routes[p].status == Pending
       && db.routes[p].revision == db.jobs[p].revision
       && db.routes[p].lastError == Some(GATEWAY_START_FAILED)
    then
      var j := db.jobs[p];
      db.(jobs := db.jobs[p := j.(availableAt := if j.availableAt <= now then j.availableAt else now)])
    else db
  }

  /** Claims one given job; a fresh token makes every earlier claim of it stale. */
  function ClaimJob(db: Db, p: ProjectId, owner: WorkerId, now: Time, duration: nat): (r: (Db, Claim))
    requires Claimable(db, p, now)
    ensures duration > 0 ==> Live(r.0, r.1, now)
  {
    var j := db.jobs[p];
    var route := db.routes[p].(status := Applying, lastError := None);
    (db.(routes := db.routes[p := route],
         jobs := db.jobs[p := j.(state := JobClaimed, attempts := j.attempts + 1, lastError := None,
                                 lease := Some(Lease(owner, db.nextToken, now + duration)))],
         nextToken := db.nextToken + 1),
     Claim(p, route, owner, db.nextToken, j.revision, j.attempts + 1))
  }

  function Renew(db: Db, c: Claim, now: Time, duration: nat): Result<Db, RouteError> {
    if !Live(db, c, now) then Failure(ClaimLost)
    else
      var j := db.jobs[c.project];
      Success(db.(jobs := db.jobs[c.project := j.(lease := Some(j.lease.value.(expiresAt := now + duration)))]))
  }

  function Finish(db: Db, c: Claim, r: Route, state: JobState, error: Option<string>): Db
    requires c.project in db.jobs
  {
    db.(routes := db.routes[c.project := r],
        jobs := db.jobs[c.project := db.jobs[c.project].(state := state, lease := None, lastError := error)])
  }

  function Complete(db: Db, c: Claim, now: Time): Result<Db, RouteError> {
    if !Live(db, c, now) then Failure(ClaimLost)
    else
      var r := db.routes[c.project];
      var row := if r.desired == Enabled
        then r.(status := Active, appliedRevision := Some(r.revision), appliedHostname := Some(r.hostname), lastError := None)
        else r.(status := Inactive, appliedRevision := Some(r.revision), appliedHostname := None, lastError := None);
      Success(Finish(db, c, row, JobSucceeded, None))
  }

  function Fail(db: Db, c: Claim, now: Time, code: string, uncertain: bool): Result<Db, RouteError> {
    if !Live(db, c, now) then Failure(ClaimLost)
    else
      var row := db.routes[c.project].(status := if uncertain then Uncertain else Failed, lastError := Some(code));
      Success(Finish(db, c, row, JobFailed, Some(code)))
  }

  function Reschedule(db: Db, c: Claim, now: Time, availableAt: Time, code: string): Result<Db, RouteError> {
    if !Live(db, c, now) then Failure(ClaimLost)
    else
      var row := db.routes[c.project].(status := Pending, lastError := Some(code));
      var db' := Finish(db, c, row, JobPending, Some(code));
      Success(db'.(jobs := db'.jobs[c.project := db'.jobs[c.project].(availableAt := availableAt)]))
  }

  /** The effect of deleting a project's rows on these tables. */
  function RemoveProject(db: Db, p: ProjectId): Db {
    db.(projects := db.projects - {p}, routes := db.routes - {p}, jobs := db.jobs - {p})
  }

  // ---------------------------------------------------------------- what every run keeps

  function JobStateFor(s: Status): JobState {
    match s
    case Pending => JobPending
    case Applying => JobClaimed
    case Active => JobSucceeded
    case Inactive => JobSucceeded
    case Failed => JobFailed
    case Uncertain => JobFailed
  }

  predicate RowInv(r: Route, j: Job, nextToken: Token) {
    && 1 <= r.revision == j.revision
    && j.state == JobStateFor(r.status)
    && (j.lease.Some? <==> j.state == JobClaimed)
    && (j.lease.Some? ==> j.lease.value.token < nextToken)
    && (r.appliedRevision.Some? ==> 1 <= r.appliedRevision.value <= r.revision)
    && (r.appliedHostname.Some? ==> r.appliedRevision.Some?)
    && (r.status == Active ==>
          r.desired == Enabled && r.appliedRevision == Some(r.revision) && r.appliedHostname == Some(r.hostname))
    && (r.status == Inactive ==> Removed(r))
  }

  predicate Disjoint(r: Route, s: Route) {
    && r.hostname != s.hostname
    && r.appliedHostname != Some(s.hostname)
    && s.appliedHostname != Some(r.hostname)
    && (r.appliedHostname.Some? ==> r.appliedHostname != s.appliedHostname)
  }

  /** No hostname one project asks for or serves is asked for or served by another. */
  predicate Exclusive(routes: map<ProjectId, Route>) {
    forall p, q :: p in routes && q in routes && p != q ==> Disjoint(routes[p], routes[q])
  }

  predicate Rows(db: Db) {
    && db.jobs.Keys == db.routes.Keys
    && db.routes.Keys <= db.projects.Keys
    && forall p :: p in db.routes ==> RowInv(db.routes[p], db.jobs[p], db.nextToken)
  }

  predicate Inv(db: Db) {
    Rows(db) && Exclusive(db.routes)
  }

  /** The applied revision of a surviving route never goes back. */
  predicate AppliedAdvances(db: Db, db': Db) {
    forall p :: p in db.routes && p in db'.routes && db.routes[p].appliedRevision.Some? ==>
      db'.routes[p].appliedRevision.Some?
      && db.routes[p].appliedRevision.value <= db'.routes[p].appliedRevision.value
  }

  /** Revisions only grow, and a revision that stays keeps its hostname and desired state. */
  predicate RevisionsAdvance(db: Db, db': Db) {
    forall p :: p in db.routes && p in db'.routes ==>
      && db.routes[p].revision <= db'.routes[p].revision
      && (db.routes[p].revision == db'.routes[p].revision ==>
            db.routes[p].hostname == db'.routes[p].hostname && db.routes[p].desired == db'.routes[p].desired)
  }

  /**
   What every transaction except Complete does, seen from the routing worker: the
   applied rows stay, and no route that was not removed disappears or becomes removed.
   */
  predicate Quiet(db: Db, db': Db) {
    && Applied(db') == Applied(db)
    && AppliedHosts(db') == AppliedHosts(db)
    && Unremoved(db) <= Unremoved(db')
    && RevisionsAdvance(db, db')
  }

  lemma AppliedHostsAfterPut(db: Db, db': Db, p: ProjectId)
    requires p in db'.routes && db'.routes == db.routes[p := db'.routes[p]]
    ensures AppliedHosts(db') ==
            (if db'.routes[p].appliedHostname.Some?
             then AppliedHosts(db)[p := db'.routes[p].appliedHostname.value]
             else AppliedHosts(db) - {p})
  {
  }

  /** A row that replaces r without touching what is applied. */
  predicate QuietRow(r: Route, r': Route) {
    && r'.appliedRevision == r.appliedRevision
    && r'.appliedHostname == r.appliedHostname
    && r.revision <= r'.revision
    && (r.revision == r'.revision ==> r'.hostname == r.hostname && r'.desired == r.desired)
    && (r.status != Inactive ==> r'.status != Inactive)
  }

  predicate Fits(routes: map<ProjectId, Route>, p: ProjectId, r: Route) {
    forall q :: q in routes && q != p ==> Disjoint(r, routes[q])
  }

  lemma PutKeepsExclusive(routes: map<ProjectId, Route>, p: ProjectId, r: Route)
    requires Exclusive(routes) && Fits(routes, p, r)
    ensures Exclusive(routes[p := r])
  {
    var routes' := routes[p := r];
    forall a, b | a in routes' && b in routes' && a != b ensures Disjoint(routes'[a], routes'[b]) {
      if a == p {
        assert Disjoint(r, routes[b]);
      } else if b == p {
        assert Disjoint(r, routes[a]);
      }
    }
  }

  /** Replacing one project's two rows by consistent ones keeps the invariant. */
  lemma PutKeeps(db: Db, db': Db, p: ProjectId)
    requires Inv(db) && p in db.projects && p in db'.routes && p in db'.jobs
    requires db' == Db(db.projects, db.routes[p := db'.routes[p]], db.jobs[p := db'.jobs[p]], db'.nextToken)
    requires db.nextToken <= db'.nextToken
    requires RowInv(db'.routes[p], db'.jobs[p], db'.nextToken)
    requires Fits(db.routes, p, db'.routes[p])
    ensures Inv(db')
  {
    PutKeepsExclusive(db.routes, p, db'.routes[p]);
  }

  lemma PutIsQuiet(db: Db, db': Db, p: ProjectId)
    requires p in db'.routes && p in db'.jobs
    requires db' == Db(db.projects, db.routes[p := db'.routes[p]], db.jobs[p := db'.jobs[p]], db'.nextToken)
    requires if p in db.routes then QuietRow(db.routes[p], db'.routes[p]) else db'.routes[p].appliedHostname == None
    ensures Quiet(db, db') && AppliedAdvances(db, db')
  {
  }

  /** Only p's rows can differ. */
  predicate TouchesOnly(db: Db, db': Db, p: ProjectId) {
    && p in db'.routes
    && db'.projects == db.projects
    && db'.routes == db.routes[p := db'.routes[p]]
  }

  lemma SetEnabledTouches(db: Db, p: ProjectId, h: Hostname, now: Time)
    requires SetEnabled(db, p, h, now).Success?
    ensures TouchesOnly(db, SetEnabled(db, p, h, now).value, p)
  {
  }

  lemma DisableRowTouches(db: Db, p: ProjectId, now: Time)
    requires p in db.routes
    ensures TouchesOnly(db, DisableRow(db, p, now), p)
  {
  }

  lemma SetEnabledKeeps(db: Db, p: ProjectId, h: Hostname, now: Time)
    requires Inv(db) && SetEnabled(db, p, h, now).Success?
    ensures var db' := SetEnabled(db, p, h, now).value;
            Inv(db') && Quiet(db, db') && AppliedAdvances(db, db')
  {
    var db' := SetEnabled(db, p, h, now).value;
    if db' != db {
      assert Fits(db.routes, p, db'.routes[p]) by {
        forall q | q in db.routes && q != p ensures Disjoint(db'.routes[p], db.routes[q]) {
          assert !Holds(db.routes[q], h);
          assert p in db.routes ==> Disjoint(db.routes[p], db.routes[q]);
        }
      }
      PutKeeps(db, db', p);
      PutIsQuiet(db, db', p);
    }
  }

  lemma DisableRowKeeps(db: Db, p: ProjectId, now: Time)
    requires Inv(db) && p in db.routes
    ensures var db' := DisableRow(db, p, now); Inv(db') && Quiet(db, db') && AppliedAdvances(db, db')
  {
    var db' := DisableRow(db, p, now);
    if db' != db {
      SameHostsFit(db.routes, p, db'.routes[p]);
      PutKeeps(db, db', p);
      PutIsQuiet(db, db', p);
    }
  }

  lemma SameHostsFit(routes: map<ProjectId, Route>, p: ProjectId, r: Route)
    requires Exclusive(routes) && p in routes && r.hostname == routes[p].hostname
    requires r.appliedHostname in {None, Some(r.hostname), routes[p].appliedHostname}
    ensures Fits(routes, p, r)
  {
    forall q | q in routes && q != p ensures Disjoint(r, routes[q]) {
      assert Disjoint(routes[p], routes[q]);
    }
  }

  lemma WakePendingKeeps(db: Db, p: ProjectId, now: Time)
    requires Inv(db)
    ensures var db' := WakePending(db, p, now); Inv(db') && Quiet(db, db') && db'.routes == db.routes
  {
  }

  lemma ClaimJobKeeps(db: Db, p: ProjectId, owner: WorkerId, now: Time, duration: nat)
    requires Inv(db) && Claimable(db, p, now)
    ensures var db' := ClaimJob(db, p, owner, now, duration).0;
            Inv(db') && Quiet(db, db') && AppliedAdvances(db, db')
  {
    var db' := ClaimJob(db, p, owner, now, duration).0;
    SameHostsFit(db.routes, p, db'.routes[p]);
    PutKeeps(db, db', p);
    PutIsQuiet(db, db', p);
  }

  lemma RenewKeeps(db: Db, c: Claim, now: Time, duration: nat)
    requires Inv(db) && Renew(db, c, now, duration).Success?
    ensures var db' := Renew(db, c, now, duration).value; Inv(db') && Quiet(db, db') && db'.routes == db.routes
  {
  }

  lemma FailKeeps(db: Db, c: Claim, now: Time, code: string, uncertain: bool)
    requires Inv(db) && Fail(db, c, now, code, uncertain).Success?
    ensures var db' := Fail(db, c, now, code, uncertain).value;
            Inv(db') && Quiet(db, db') && AppliedAdvances(db, db')
  {
    var db' := Fail(db, c, now, code, uncertain).value;
    SameHostsFit(db.routes, c.project, db'.routes[c.project]);
    PutKeeps(db, db', c.project);
    PutIsQuiet(db, db', c.project);
  }

  lemma RescheduleKeeps(db: Db, c: Claim, now: Time, availableAt: Time, code: string)
    requires Inv(db) && Reschedule(db, c, now, availableAt, code).Success?
    ensures var db' := Reschedule(db, c, now, availableAt, code).value;
            Inv(db') && Quiet(db, db') && AppliedAdvances(db, db')
  {
    var db' := Reschedule(db, c, now, availableAt, code).value;
    SameHostsFit(db.routes, c.project, db'.routes[c.project]);
    PutKeeps(db, db', c.project);
    PutIsQuiet(db, db', c.project);
  }

  lemma RemoveProjectKeeps(db: Db, p: ProjectId)
    requires Inv(db)
    ensures Inv(RemoveProject(db, p))
  {
    var db' := RemoveProject(db, p);
    assert forall q :: q in db'.routes ==> q in db.routes && db'.routes[q] == db.routes[q] && db'.jobs[q] == db.jobs[q];
  }

  lemma RemoveProjectIsQuiet(db: Db, p: ProjectId)
    requires RouteGone(db, p)
    ensures Quiet(db, RemoveProject(db, p)) && AppliedAdvances(db, RemoveProject(db, p))
  {
    var db' := RemoveProject(db, p);
    assert forall q :: q in db'.routes <==> q in db.routes && q != p;
  }

  lemma CompleteKeeps(db: Db, c: Claim, now: Time)
    requires Inv(db) && Complete(db, c, now).Success?
    ensures Inv(Complete(db, c, now).value)
  {
    var db' := Complete(db, c, now).value;
    SameHostsFit(db.routes, c.project, db'.routes[c.project]);
    PutKeeps(db, db', c.project);
  }

  /** Complete is the one transaction that changes the applied set, and only for its own project. */
  lemma CompleteChangesItsRow(db: Db, c: Claim, now: Time)
    requires Inv(db) && Complete(db, c, now).Success?
    ensures var db' := Complete(db, c, now).value;
            && AppliedAdvances(db, db') && RevisionsAdvance(db, db')
            && db'.routes == db.routes[c.project := db'.routes[c.project]]
            && (db'.routes[c.project].status == Inactive <==> db.routes[c.project].desired == Disabled)
            && db'.routes[c.project].appliedHostname ==
               (if db.routes[c.project].desired == Enabled then Some(db.routes[c.project].hostname) else None)
  {
  }

  /**
   Once a deleting project's route is gone, no transaction open to anyone brings it back:
   the route requests are refused and no claim of its job can be live or be made.
   */
  lemma GoneRouteIsFrozen(db: Db, p: ProjectId, h: Hostname, c: Claim, now: Time)
    requires Inv(db) && p in db.projects && db.projects[p] == Deleting && RouteGone(db, p)
    ensures SetEnabled(db, p, h, now) == Failure(ProjectDeleting)
    ensures Disable(db, p, now) == Failure(ProjectDeleting)
    ensures DisableForDeletion(db, p, now) == Success(db)
    ensures !Claimable(db, p, now)
    ensures c.project == p ==> !Live(db, c, now)
    ensures WakePending(db, p, now) == db
  {
  }
}
