/**
 Deployments and their jobs. A worker's write commits only while its claim is the live
 one; the clock of every transaction is the worker's own and may be anything.
 */
module DeploymentStore {
  import opened Wrappers
  import opened Ids

  /** The frozen configuration a deployment was created with, of which its services matter; none if it does not parse. */
  datatype Snapshot = Snapshot(services: Option<seq<string>>)

  datatype Status =
    | Queued
    | Preparing | Building | Starting | HealthChecking | Activating
    | Succeeded | Failed

  datatype JobState = JobPending | JobClaimed | JobDone

  datatype FailureInfo = FailureInfo(stage: string, code: string)

  const UNCERTAIN := FailureInfo("RECOVERY", "RECOVERY_STATE_UNCERTAIN")

  datatype Deployment = Deployment(project: ProjectId, snapshot: Snapshot, status: Status, failure: Option<FailureInfo>)

  datatype Job = Job(state: JobState, attempts: nat, availableAt: Time, lease: Option<Lease>)

  datatype Claim = Claim(deployment: DeploymentId, owner: WorkerId, token: Token, attempts: nat)

  datatype DeploymentError =
    | ProjectDeleting | UnknownProject | ActiveDeployment | ClaimLost | NotFound | ReconciliationConflict

  datatype Db = Db(deployments: map<DeploymentId, Deployment>, jobs: map<DeploymentId, Job>, nextToken: Token)

  predicate Terminal(s: Status) {
    s == Succeeded || s == Failed
  }

  predicate Processing(s: Status) {
    s != Queued && !Terminal(s)
  }

  predicate HasActive(db: Db, p: ProjectId) {
    exists d :: d in db.deployments && db.deployments[d].project == p && !Terminal(db.deployments[d].status)
  }

  predicate Live(db: Db, c: Claim, now: Time) {
    && c.deployment in db.jobs
    && c.deployment in db.deployments
    && db.jobs[c.deployment].state == JobClaimed
    && db.jobs[c.deployment].lease.Some?
    && db.jobs[c.deployment].lease.value.owner == c.owner
    && db.jobs[c.deployment].lease.value.token == c.token
    && db.jobs[c.deployment].lease.value.expiresAt > now
  }

  predicate Claimable(db: Db, d: DeploymentId, now: Time) {
    && d in db.jobs
    && d in db.deployments
    && !Terminal(db.deployments[d].status)
    && (|| (db.jobs[d].state == JobPending && db.jobs[d].availableAt <= now)
        || (db.jobs[d].state == JobClaimed && db.jobs[d].lease.Some? && db.jobs[d].lease.value.expiresAt <= now))
  }

  // ---------------------------------------------------------------- transactions

  function Create(db: Db, d: DeploymentId, p: ProjectId, project: Option<ProjectStatus>, snapshot: Snapshot, now: Time)
    : Result<Db, DeploymentError>
  {
    if project == Some(Deleting) then Failure(ProjectDeleting)
    else if project == None then Failure(UnknownProject)
    else if HasActive(db, p) then Failure(ActiveDeployment)
    else Success(db.(deployments := db.deployments[d := Deployment(p, snapshot, Queued, None)],
                     jobs := db.jobs[d := Job(JobPending, 0, now, None)]))
  }

  function ClaimJob(db: Db, d: DeploymentId, owner: WorkerId, now: Time, duration: nat): (r: (Db, Claim))
    requires Claimable(db, d, now)
    ensures duration > 0 ==> Live(r.0, r.1, now)
  {
    var j := db.jobs[d];
    (Db(db.deployments[d := db.deployments[d].(status := Preparing, failure := None)],
        db.jobs[d := j.(state := JobClaimed, attempts := j.attempts + 1, lease := Some(Lease(owner, db.nextToken, now + duration)))],
        db.nextToken + 1),
     Claim(d, owner, db.nextToken, j.attempts + 1))
  }

  function Renew(db: Db, c: Claim, now: Time, duration: nat): Result<Db, DeploymentError> {
    if !Live(db, c, now) then Failure(ClaimLost)
    else
      var j := db.jobs[c.deployment];
      Success(db.(jobs := db.jobs[c.deployment := j.(lease := Some(j.lease.value.(expiresAt := now + duration)))]))
  }

  /** What a live claim may write. */
  datatype Write =
    | Advance(status: Status)
    | Diagnose
    | Succeed
    | Fail(failure: FailureInfo)
    | Retry(availableAt: Time, failure: FailureInfo)

  function StatusAfter(w: Write, status: Status): Status {
    match w
    case Advance(s) => s
    case Diagnose => status
    case Succeed => Succeeded
    case Fail(_) => Failed
    case Retry(_, _) => Queued
  }

  function FailureAfter(w: Write, failure: Option<FailureInfo>): Option<FailureInfo> {
    match w
    case Advance(_) => failure
    case Diagnose => failure
    case Succeed => None
    case Fail(f) => Some(f)
    case Retry(_, f) => Some(f)
  }

  /** A write a claim may ask for at all: advancing is only for processing statuses. */
  predicate Allowed(w: Write) {
    w.Advance? ==> Processing(w.status)
  }

  predicate Finishes(w: Write) {
    w.Succeed? || w.Fail?
  }

  function Commit(db: Db, c: Claim, now: Time, w: Write): Result<Db, DeploymentError>
    requires Allowed(w)
  {
    if !Live(db, c, now) then Failure(ClaimLost)
    else
      var d := db.deployments[c.deployment];
      var j := db.jobs[c.deployment];
      if !w.Diagnose? && Terminal(d.status) then Failure(ClaimLost)
      else
        var job := if Finishes(w) then j.(state := JobDone, lease := None)
                   else if w.Retry? then j.(state := JobPending, availableAt := w.availableAt, lease := None)
                   else j;
        Success(db.(deployments := db.deployments[c.deployment :=
                      d.(status := StatusAfter(w, d.status), failure := FailureAfter(w, d.failure))],
                    jobs := db.jobs[c.deployment := job]))
  }

  /** An uncertain deployment may be declared active after the fact; the job is not involved. */
  function ReconcileSucceeded(db: Db, d: DeploymentId): Result<Db, DeploymentError> {
    if d !in db.deployments then Failure(NotFound)
    else if db.deployments[d].status == Succeeded then Success(db)
    else if db.deployments[d].status != Failed || db.deployments[d].failure != Some(UNCERTAIN) then Failure(ReconciliationConflict)
    else Success(db.(deployments := db.deployments[d := db.deployments[d].(status := Succeeded, failure := None)]))
  }

  function OfProject(db: Db, p: ProjectId): set<DeploymentId> {
    set d | d in db.deployments && db.deployments[d].project == p
  }

  /** The effect of deleting a project's rows on these tables. */
  function RemoveProject(db: Db, p: ProjectId): Db {
    db.(deployments := db.deployments - OfProject(db, p), jobs := db.jobs - OfProject(db, p))
  }

  // ---------------------------------------------------------------- what every run keeps

  function JobStateFor(s: Status): JobState {
    if s == Queued then JobPending else if Terminal(s) then JobDone else JobClaimed
  }

  predicate RowInv(d: Deployment, j: Job, nextToken: Token) {
    && j.state == JobStateFor(d.status)
    && (j.lease.Some? <==> j.state == JobClaimed)
    && (j.lease.Some? ==> j.lease.value.token < nextToken)
  }

  predicate OneActive(deployments: map<DeploymentId, Deployment>) {
    forall d, e :: d in deployments && e in deployments && d != e && deployments[d].project == deployments[e].project ==>
      Terminal(deployments[d].status) || Terminal(deployments[e].status)
  }

  /** Status and job agree, and a project has at most one deployment that is not over. */
  predicate Inv(db: Db) {
    && db.jobs.Keys == db.deployments.Keys
    && (forall d :: d in db.deployments ==> RowInv(db.deployments[d], db.jobs[d], db.nextToken))
    && OneActive(db.deployments)
  }

  lemma CreateKeeps(db: Db, d: DeploymentId, p: ProjectId, project: Option<ProjectStatus>, snapshot: Snapshot, now: Time)
    requires Inv(db) && Create(db, d, p, project, snapshot, now).Success?
    ensures Inv(Create(db, d, p, project, snapshot, now).value)
  {
  }

  lemma ClaimJobKeeps(db: Db, d: DeploymentId, owner: WorkerId, now: Time, duration: nat)
    requires Inv(db) && Claimable(db, d, now)
    ensures Inv(ClaimJob(db, d, owner, now, duration).0)
  {
  }

  lemma RenewKeeps(db: Db, c: Claim, now: Time, duration: nat)
    requires Inv(db) && Renew(db, c, now, duration).Success?
    ensures Inv(Renew(db, c, now, duration).value)
  {
  }

  lemma CommitKeeps(db: Db, c: Claim, now: Time, w: Write)
    requires Inv(db) && Allowed(w) && Commit(db, c, now, w).Success?
    ensures Inv(Commit(db, c, now, w).value)
  {
    var db' := Commit(db, c, now, w).value;
    assert !Terminal(db.deployments[c.deployment].status);
  }

  lemma ReconcileSucceededKeeps(db: Db, d: DeploymentId)
    requires Inv(db) && ReconcileSucceeded(db, d).Success?
    ensures Inv(ReconcileSucceeded(db, d).value)
  {
  }

  lemma RemoveProjectKeeps(db: Db, p: ProjectId)
    requires Inv(db)
    ensures Inv(RemoveProject(db, p))
  {
    var db' := RemoveProject(db, p);
    assert forall d :: d in db'.deployments ==> d in db.deployments && db'.deployments[d] == db.deployments[d];
  }

  /** A claim that a later claim of the same deployment replaced can write nothing more. */
  lemma SupersededClaimIsFenced(db: Db, c: Claim, now: Time, later: Time, owner: WorkerId, duration: nat, w: Write)
    requires Inv(db) && Live(db, c, now) && Claimable(db, c.deployment, later) && Allowed(w)
    ensures var db' := ClaimJob(db, c.deployment, owner, later, duration).0;
            forall t :: Commit(db', c, t, w) == Failure(ClaimLost) && Renew(db', c, t, duration) == Failure(ClaimLost)
  {
  }
}
