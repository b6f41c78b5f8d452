/** Requests to look again at a deployment whose runtime state was left uncertain. */
module ReconciliationStore {
  import opened Wrappers
  import opened Ids

  datatype State = Pending | Claimed | Resolved | Blocked

  datatype Row = Row(state: State, attempts: nat, availableAt: Time, lease: Option<Lease>)

  datatype Claim = Claim(deployment: DeploymentId, owner: WorkerId, token: Token, attempts: nat)

  datatype RequestError = ProjectDeleting | UnknownDeployment | InProgress | ClaimLost

  datatype Db = Db(rows: map<DeploymentId, Row>, nextToken: Token)

  predicate Open(r: Row) {
    r.state == Pending || r.state == Claimed
  }

  predicate Live(db: Db, c: Claim, now: Time) {
    && c.deployment in db.rows
    && db.rows[c.deployment].state == Claimed
    && db.rows[c.deployment].lease.Some?
    && db.rows[c.deployment].lease.value.owner == c.owner
    && db.rows[c.deployment].lease.value.token == c.token
    && db.rows[c.deployment].lease.value.expiresAt > now
  }

  predicate Claimable(db: Db, d: DeploymentId, now: Time) {
    && d in db.rows
    && (|| (db.rows[d].state == Pending && db.rows[d].availableAt <= now)
        || (db.rows[d].state == Claimed && db.rows[d].lease.Some? && db.rows[d].lease.value.expiresAt <= now))
  }

  /** project is the status of the deployment's project, None when there is no such deployment. */
  function Request(db: Db, d: DeploymentId, project: Option<ProjectStatus>, now: Time): Result<Db, RequestError> {
    if project == Some(Deleting) then Failure(ProjectDeleting)
    else if project == None then Failure(UnknownDeployment)
    else if d in db.rows && db.rows[d].state == Claimed then Failure(InProgress)
    else Success(db.(rows := db.rows[d := Row(Pending, 0, now, None)]))
  }

  function Schedule(db: Db, d: DeploymentId, project: Option<ProjectStatus>, availableAt: Time): Db {
    if project == None || project == Some(Deleting) || d in db.rows then db
    else db.(rows := db.rows[d := Row(Pending, 0, availableAt, None)])
  }

  function ClaimRow(db: Db, d: DeploymentId, owner: WorkerId, now: Time, duration: nat): (Db, Claim)
    requires Claimable(db, d, now)
  {
    var r := db.rows[d];
    (Db(db.rows[d := r.(state := Claimed, attempts := r.attempts + 1, lease := Some(Lease(owner, db.nextToken, now + duration)))],
        db.nextToken + 1),
     Claim(d, owner, db.nextToken, r.attempts + 1))
  }

  function Renew(db: Db, c: Claim, now: Time, duration: nat): Result<Db, RequestError> {
    if !Live(db, c, now) then Failure(ClaimLost)
    else
      var r := db.rows[c.deployment];
      Success(db.(rows := db.rows[c.deployment := r.(lease := Some(r.lease.value.(expiresAt := now + duration)))]))
  }

  /** Resolves or blocks the request. */
  function Finish(db: Db, c: Claim, now: Time, blocked: bool): Result<Db, RequestError> {
    if !Live(db, c, now) then Failure(ClaimLost)
    else Success(db.(rows := db.rows[c.deployment :=
      db.rows[c.deployment].(state := if blocked then Blocked else Resolved, lease := None)]))
  }

  function Retry(db: Db, c: Claim, now: Time, availableAt: Time): Result<Db, RequestError> {
    if !Live(db, c, now) then Failure(ClaimLost)
    else Success(db.(rows := db.rows[c.deployment :=
      db.rows[c.deployment].(state := Pending, availableAt := availableAt, lease := None)]))
  }

  /** One pass of the scheduler over its candidates, with the projects as the pass finds them. */
  function ScheduleAll(db: Db, candidates: seq<(DeploymentId, Time)>, projects: map<DeploymentId, ProjectStatus>): Db {
    if candidates == [] then db
    else
      var c := candidates[|candidates| - 1];
      Schedule(ScheduleAll(db, candidates[..|candidates| - 1], projects), c.0,
               if c.0 in projects then Some(projects[c.0]) else None, c.1)
  }

  predicate RowInv(r: Row, nextToken: Token) {
    && (r.lease.Some? <==> r.state == Claimed)
    && (r.lease.Some? ==> r.lease.value.token < nextToken)
  }

  predicate Inv(db: Db) {
    forall d :: d in db.rows ==> RowInv(db.rows[d], db.nextToken)
  }

  /** A pass touches no row that was there, and gives a deleting project none. */
  lemma {:induction false} SchedulingOnlyAdds(db: Db, candidates: seq<(DeploymentId, Time)>, projects: map<DeploymentId, ProjectStatus>)
    requires Inv(db)
    ensures var db' := ScheduleAll(db, candidates, projects);
            && Inv(db') && db'.nextToken == db.nextToken
            && (forall d :: d in db.rows ==> d in db'.rows && db'.rows[d] == db.rows[d])
            && (forall d :: d in db'.rows && d !in db.rows ==> d in projects && projects[d] != Deleting && db'.rows[d].state == Pending)
    decreases |candidates|
  {
    if candidates != [] { SchedulingOnlyAdds(db, candidates[..|candidates| - 1], projects); }
  }

  /** Once a later claim has been given out, or a finished row was requested anew, the earlier claim can write nothing. */
  lemma SupersededClaimIsFenced(db: Db, c: Claim, now: Time, later: Time, owner: WorkerId, duration: nat, blocked: bool, at: Time)
    requires Inv(db) && Live(db, c, now) && Claimable(db, c.deployment, later)
    ensures var db' := ClaimRow(db, c.deployment, owner, later, duration).0;
            forall t :: Finish(db', c, t, blocked) == Failure(ClaimLost) && Retry(db', c, t, at) == Failure(ClaimLost)
                        && Renew(db', c, t, duration) == Failure(ClaimLost)
  {
  }
}
