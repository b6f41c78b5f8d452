/** The deletion job of a project: ten phases, one lease, and the transactions that move them. */
module DeletionStore {
  import opened Wrappers
  import opened Ids

  datatype Phase =
    | Requested | WaitingForOperations | RouteDisabling | RouteRemoved | RuntimeCleanup
    | DatabaseQuiescing | DatabaseDropDatabase | DatabaseDropRole | SecretCleanup | MetadataDelete

  const PHASES: seq<Phase> :=
    [Requested, WaitingForOperations, RouteDisabling, RouteRemoved, RuntimeCleanup,
     DatabaseQuiescing, DatabaseDropDatabase, DatabaseDropRole, SecretCleanup, MetadataDelete]

  function Index(p: Phase): (i: nat)
    ensures i < |PHASES| && PHASES[i] == p
  {
    match p
    case Requested => 0
    case WaitingForOperations => 1
    case RouteDisabling => 2
    case RouteRemoved => 3
    case RuntimeCleanup => 4
    case DatabaseQuiescing => 5
    case DatabaseDropDatabase => 6
    case DatabaseDropRole => 7
    case SecretCleanup => 8
    case MetadataDelete => 9
  }

  datatype State = Pending | Claimed | Failed

  datatype LastError = LastError(code: string, retryable: bool)

  datatype Job = Job(state: State, phase: Phase, attempts: nat, availableAt: Time, lease: Option<Lease>,
                     deleteDatabase: bool, lastError: Option<LastError>)

  /** What a deletion worker keeps: the job row as it last saw it, and the identity of its claim. */
  datatype Claim = Claim(project: ProjectId, job: Job, owner: WorkerId, token: Token)

  datatype DeletionError =
    | NotFound | ConfirmationMismatch | DatabaseConfirmationRequired
    | DeletionFailed | NotFailed | ClaimLost | NotNextPhase

  datatype Db = Db(jobs: map<ProjectId, Job>, nextToken: Token)

  /** What the administrator typed, compared with what the project requires. */
  datatype Confirmation = Confirmation(projectMatches: bool, deleteDatabase: bool, databaseMatches: bool)

  function Confirmed(c: Confirmation, hasDatabase: bool): Option<DeletionError> {
    if !c.projectMatches then Some(ConfirmationMismatch)
    else if hasDatabase && (!c.deleteDatabase || !c.databaseMatches) then Some(DatabaseConfirmationRequired)
    else None
  }

  /** The caller also marks the project DELETING when a job is inserted. */
  function Request(db: Db, p: ProjectId, projectExists: bool, hasDatabase: bool, c: Confirmation, now: Time): Result<Db, DeletionError> {
    if !projectExists then Failure(NotFound)
    else if Confirmed(c, hasDatabase).Some? then Failure(Confirmed(c, hasDatabase).value)
    else if p in db.jobs then
      if db.jobs[p].state == Failed then Failure(DeletionFailed) else Success(db)
    else Success(db.(jobs := db.jobs[p := Job(Pending, Requested, 0, now, None, hasDatabase, None)]))
  }

  function Retry(db: Db, p: ProjectId, projectExists: bool, hasDatabase: bool, c: Confirmation, now: Time): Result<Db, DeletionError> {
    if !projectExists then Failure(NotFound)
    else if Confirmed(c, hasDatabase).Some? then Failure(Confirmed(c, hasDatabase).value)
    else if p !in db.jobs then Failure(NotFound)
    else if db.jobs[p].state != Failed then Failure(NotFailed)
    else Success(db.(jobs := db.jobs[p :=
      db.jobs[p].(state := Pending, attempts := 0, availableAt := now, lease := None, lastError := None)]))
  }

  predicate Claimable(db: Db, p: ProjectId, now: Time) {
    && p in db.jobs
    && (|| (db.jobs[p].state == Pending && db.jobs[p].availableAt <= now)
        || (db.jobs[p].state == Claimed && db.jobs[p].lease.Some? && db.jobs[p].lease.value.expiresAt <= now))
  }

  function ClaimJob(db: Db, p: ProjectId, owner: WorkerId, now: Time, duration: nat): (Db, Claim)
    requires Claimable(db, p, now)
  {
    var j := db.jobs[p].(state := Claimed, attempts := db.jobs[p].attempts + 1,
                         lease := Some(Lease(owner, db.nextToken, now + duration)));
    (Db(db.jobs[p := j], db.nextToken + 1), Claim(p, j, owner, db.nextToken))
  }

  predicate Live(db: Db, c: Claim, now: Time) {
    && c.project in db.jobs
    && db.jobs[c.project].state == Claimed
    && db.jobs[c.project].lease.Some?
    && db.jobs[c.project].lease.value.owner == c.owner
    && db.jobs[c.project].lease.value.token == c.token
    && db.jobs[c.project].lease.value.expiresAt > now
  }

  function Renew(db: Db, c: Claim, now: Time, duration: nat): Result<Db, DeletionError> {
    if !Live(db, c, now) then Failure(ClaimLost)
    else
      var j := db.jobs[c.project];
      Success(db.(jobs := db.jobs[c.project := j.(lease := Some(j.lease.value.(expiresAt := now + duration)))]))
  }

  function Advance(db: Db, c: Claim, now: Time, expected: Phase, next: Phase): Result<Db, DeletionError> {
    if Index(next) != Index(expected) + 1 then Failure(NotNextPhase)
    else if !Live(db, c, now) || db.jobs[c.project].phase != expected then Failure(ClaimLost)
    else Success(db.(jobs := db.jobs[c.project := db.jobs[c.project].(phase := next)]))
  }

  function Fail(db: Db, c: Claim, now: Time, error: LastError): Result<Db, DeletionError> {
    if !Live(db, c, now) then Failure(ClaimLost)
    else Success(db.(jobs := db.jobs[c.project :=
      db.jobs[c.project].(state := Failed, lease := None, lastError := Some(error))]))
  }

  function Reschedule(db: Db, c: Claim, now: Time, availableAt: Time): Result<Db, DeletionError> {
    if !Live(db, c, now) then Failure(ClaimLost)
    else Success(db.(jobs := db.jobs[c.project :=
      db.jobs[c.project].(state := Pending, availableAt := availableAt, lease := None)]))
  }

  /** Like Reschedule, but gives the attempt back. */
  function Defer(db: Db, c: Claim, now: Time, availableAt: Time): Result<Db, DeletionError> {
    if !Live(db, c, now) then Failure(ClaimLost)
    else
      var j := db.jobs[c.project];
      Success(db.(jobs := db.jobs[c.project :=
        j.(state := Pending, attempts := if j.attempts >= 1 then j.attempts - 1 else 0,
           availableAt := availableAt, lease := None)]))
  }

  predicate JobInv(j: Job, nextToken: Token) {
    && (j.lease.Some? <==> j.state == Claimed)
    && (j.lease.Some? ==> j.lease.value.token < nextToken)
    && (j.lastError.Some? <==> j.state == Failed)
  }

  predicate Inv(db: Db) {
    forall p :: p in db.jobs ==> JobInv(db.jobs[p], db.nextToken)
  }
}
