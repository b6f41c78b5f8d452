/**
 Project deletion next to everything it must not race with: the routing host, deployments,
 reconciliations and managed databases, the objects in Docker, the directories and whatever
 else projects own outside the tables, and any number of deletion workers. A worker checks
 and acts in separate steps, so anything may be committed in between, and a worker that lost
 its lease may still carry out the removal it was cleared for. A removal may fail, and a
 failed one may have had its effect all the same.
 */
module DeletionSystem {
  import opened Wrappers
  import opened Ids
  import R = RouteStore
  import H = RoutingHost
  import F = DeploymentStore
  import Q = ReconciliationStore
  import D = DeletionStore
  import TD = Teardown

  /** How far a worker has come within the phase it last saw. */
  datatype Point = AtPhase | Drained | RouteApplied | Cleared | Removed | Worked

  /** The rows a teardown goes by: the project's deployments, in some order, and its gateway. */
  datatype Records = Records(deployments: seq<TD.Deployment>, runtime: Option<TD.Runtime>)

  /** What a worker saw at some moment: that something is not there, or an object with exactly the right labels. */
  datatype Sight =
    | NoObject(key: TD.Key)
    | NoLabel(docker: TD.DockerKind)
    | NoDirectory(target: TD.Target)
    | NoPart(kind: Kind)
    | Exactly(resource: TD.Resource, id: string)

  datatype Notes = Notes(records: Option<Records>, sights: set<Sight>)

  const NO_NOTES := Notes(None, {})

  datatype Work = Work(claim: D.Claim, point: Point, notes: Notes)

  /** What can be removed: an object by its id, an entry of a directory or all of it, and the other parts of a project. */
  datatype Kind =
    | Docker(docker: TD.DockerKind, id: string)
    | Entry(target: TD.Target)
    | Directory(target: TD.Target)
    | DatabaseSessions | Database | Role | Secrets

  /** An attempted removal outside the database: whether it was reported to succeed, and what the file showed. */
  datatype Removal = Removal(project: ProjectId, kind: Kind, ok: bool, namedInFile: bool)

  /** What there is of databases and secrets. */
  type Present = set<(ProjectId, Kind)>

  /**
   Docker, the private directories, and the rows of the gateways. labels remembers what every
   object id ever stood for; an id never changes its labels.
   */
  datatype Site = Site(objects: map<TD.Key, TD.Object>, directories: set<TD.Target>,
                       labels: map<(TD.DockerKind, string), TD.Labels>, runtimes: map<ProjectId, TD.Runtime>)

  /** used remembers of which project every deployment was that was ever created. */
  datatype Sys = Sys(host: H.World, fleet: F.Db, used: map<DeploymentId, ProjectId>, recs: Q.Db, resources: set<ProjectId>,
                     deletions: D.Db, workers: map<WorkerId, Work>, removals: seq<Removal>, present: Present, site: Site)

  /** What happens to the site without the deletion workers: things appear, vanish, and are recorded. */
  datatype SiteStep =
    | Place(key: TD.Key, object: TD.Object)
    | MakeDirectory(target: TD.Target)
    | Vanish(keys: set<TD.Key>, targets: set<TD.Target>)
    | Record(p: ProjectId, runtime: TD.Runtime)

  datatype FleetStep =
    | Create(d: DeploymentId, p: ProjectId, snapshot: F.Snapshot, now: Time)
    | ClaimDeployment(d: DeploymentId, owner: WorkerId, now: Time, duration: nat)
    | RenewDeployment(fc: F.Claim, now: Time, duration: nat)
    | Write(fc: F.Claim, now: Time, write: F.Write)
    | ReconcileSucceeded(d: DeploymentId)

  datatype RecsStep =
    | Request(d: DeploymentId, now: Time)
    | Schedule(d: DeploymentId, at: Time)
    | ClaimRow(d: DeploymentId, owner: WorkerId, now: Time, duration: nat)
    | RenewRow(qc: Q.Claim, now: Time, duration: nat)
    | Finish(qc: Q.Claim, now: Time, blocked: bool)
    | RetryRow(qc: Q.Claim, now: Time, at: Time)

  /** What a deletion worker that holds a claim may do next. */
  datatype Action =
    | Beat(now: Time, duration: nat)
    | CheckDrained(locksFree: bool)
    | Authorize(now: Time, duration: nat)
    | DisableRoute(now: Time)
    | CheckApplied
    | Read(deployments: seq<TD.Deployment>)
    | Look(sight: Sight)
    | Remove(kind: Kind, ok: bool, gone: bool)
    | FinishWork
    | AdvancePhase(now: Time)
    | Defer(now: Time, at: Time)
    | Reschedule(now: Time, at: Time)
    | Fail(now: Time, error: D.LastError)
    | Finalize(now: Time)
    | Stop

  datatype Step =
    | Host(h: H.Step)
    | Fleet(f: FleetStep)
    | Recs(q: RecsStep)
    | EnsureDatabase(p: ProjectId)
    | Appear(p: ProjectId, kind: Kind)
    | OnSite(change: SiteStep)
    | RequestDeletion(p: ProjectId, confirmation: D.Confirmation, now: Time)
    | RetryDeletion(p: ProjectId, confirmation: D.Confirmation, now: Time)
    | TakeDeletion(k: WorkerId, p: ProjectId, now: Time, duration: nat)
    | Act(k: WorkerId, action: Action)

  function Init(maxAttempts: nat): Sys {
    Sys(H.Init(maxAttempts), F.Db(map[], map[], 0), map[], Q.Db(map[], 0), {}, D.Db(map[], 0), map[], [], {},
        Site(map[], {}, map[], map[]))
  }

  // ---------------------------------------------------------------- what the transactions read

  function ProjectStatusOf(s: Sys, p: ProjectId): Option<ProjectStatus> {
    if p in s.host.db.projects then Some(s.host.db.projects[p]) else None
  }

  function ProjectOf(s: Sys, d: DeploymentId): Option<ProjectStatus> {
    if d in s.fleet.deployments then ProjectStatusOf(s, s.fleet.deployments[d].project) else None
  }

  predicate IsDeleting(s: Sys, p: ProjectId) {
    ProjectStatusOf(s, p) == Some(Deleting)
  }

  /** No deployment of the project is running or being worked on, and no reconciliation is open. */
  predicate Quiesced(fleet: F.Db, recs: Q.Db, p: ProjectId) {
    forall d :: d in fleet.deployments && fleet.deployments[d].project == p ==>
      && F.Terminal(fleet.deployments[d].status)
      && (d in fleet.jobs ==> fleet.jobs[d].state != F.JobClaimed)
      && (d in recs.rows ==> !Q.Open(recs.rows[d]))
  }

  predicate OperationsDrained(s: Sys, p: ProjectId) {
    && Quiesced(s.fleet, s.recs, p)
    && (p in s.host.db.jobs ==> s.host.db.jobs[p].state != R.JobClaimed)
  }

  predicate MutationAllowed(s: Sys, c: D.Claim, now: Time, requireRouteRemoved: bool) {
    && D.Live(s.deletions, c, now)
    && IsDeleting(s, c.project)
    && (requireRouteRemoved ==> R.RouteGone(s.host.db, c.project))
  }

  predicate RemovesIn(phase: D.Phase, kind: Kind) {
    match phase
    case RuntimeCleanup => kind.Docker? || kind.Entry? || kind.Directory?
    case DatabaseQuiescing => kind == DatabaseSessions
    case DatabaseDropDatabase => kind == Database
    case DatabaseDropRole => kind == Role
    case SecretCleanup => kind == Secrets
    case _ => false
  }

  predicate DatabaseKind(kind: Kind) {
    kind == DatabaseSessions || kind == Database || kind == Role
  }

  predicate PartKind(kind: Kind) {
    DatabaseKind(kind) || kind == Secrets
  }

  /** The project's deletion has found all operations drained, or it is gone already. */
  predicate Spent(s: Sys, p: ProjectId) {
    && p in s.host.seen
    && (p in s.host.db.projects ==> p in s.deletions.jobs && D.Index(s.deletions.jobs[p].phase) >= 2)
  }

  /** Parts of a project appear only while it is not spent, those of a database only after the intent was recorded. */
  predicate MayAppear(s: Sys, p: ProjectId, kind: Kind) {
    && PartKind(kind) && p in s.host.db.projects && !Spent(s, p)
    && (DatabaseKind(kind) ==> p in s.resources)
  }

  // ---------------------------------------------------------------- Docker, directories and gateway rows

  function RowOf(fleet: F.Db, d: DeploymentId): TD.Deployment
    requires d in fleet.deployments
  {
    TD.Deployment(d, fleet.deployments[d].project, fleet.deployments[d].snapshot.services)
  }

  predicate HasRow(rows: seq<TD.Deployment>, d: DeploymentId) {
    exists i :: 0 <= i < |rows| && rows[i].id == d
  }

  /** Every deployment of the project once, as its row says. */
  predicate Listed(fleet: F.Db, p: ProjectId, rows: seq<TD.Deployment>) {
    && (forall i :: 0 <= i < |rows| ==> rows[i].id in F.OfProject(fleet, p) && rows[i] == RowOf(fleet, rows[i].id))
    && TD.DistinctIds(rows)
    && (forall d :: d in F.OfProject(fleet, p) ==> HasRow(rows, d))
  }

  function RuntimeOf(s: Sys, p: ProjectId): Option<TD.Runtime> {
    if p in s.site.runtimes then Some(s.site.runtimes[p]) else None
  }

  /** A directory of the project, or of a deployment that is or was the project's. */
  predicate OwnTarget(s: Sys, p: ProjectId, t: TD.Target) {
    match t
    case GatewayDirectory(q) => q == p
    case Workspace(d) => d in s.used && s.used[d] == p
  }

  /** The object is the project's by its name or by its label. */
  predicate Concerns(k: TD.Key, o: TD.Object, p: ProjectId) {
    TD.BearsName(k, p) || o.labels.project == Some(p)
  }

  /** Nothing appears that concerns a spent project, and an id stands for the same labels as ever. */
  predicate MayPlace(s: Sys, k: TD.Key, o: TD.Object) {
    && k !in s.site.objects
    && ((k.docker, o.id) in s.site.labels ==> s.site.labels[(k.docker, o.id)] == o.labels)
    && (forall p :: p in s.host.seen && Spent(s, p) ==> !Concerns(k, o, p))
  }

  predicate MayMake(s: Sys, t: TD.Target) {
    forall p :: p in s.host.seen && Spent(s, p) ==> !OwnTarget(s, p, t)
  }

  function SiteDo(s: Sys, change: SiteStep): Site {
    match change
    case Place(k, o) =>
      if MayPlace(s, k, o)
      then s.site.(objects := s.site.objects[k := o], labels := s.site.labels[(k.docker, o.id) := o.labels]) else s.site
    case MakeDirectory(t) => if MayMake(s, t) then s.site.(directories := s.site.directories + {t}) else s.site
    case Vanish(keys, targets) => s.site.(objects := s.site.objects - keys, directories := s.site.directories - targets)
    case Record(p, runtime) =>
      if p in s.host.db.projects && !Spent(s, p) then s.site.(runtimes := s.site.runtimes[p := runtime]) else s.site
  }

  // ---------------------------------------------------------------- what a worker sees and removes

  predicate LooksIn(phase: D.Phase) {
    phase == D.RuntimeCleanup || phase == D.MetadataDelete
  }

  predicate Sees(s: Sys, work: Work, sight: Sight) {
    match sight
    case NoObject(k) => k !in s.site.objects
    case NoLabel(docker) =>
      forall k :: k in s.site.objects && k.docker == docker ==> s.site.objects[k].labels.project != Some(work.claim.project)
    case NoDirectory(t) => t !in s.site.directories
    case NoPart(kind) => (work.claim.project, kind) !in s.present
    case Exactly(r, id) =>
      && TD.KeyOf(r) in s.site.objects && s.site.objects[TD.KeyOf(r)].id == id
      && TD.Exact(s.site.objects[TD.KeyOf(r)], work.claim.project, r)
  }

  /** An object is removed by an id that was seen with the right labels, a directory because the records imply it. */
  predicate MayTake(work: Work, kind: Kind) {
    match kind
    case Docker(docker, id) =>
      exists sight :: sight in work.notes.sights && sight.Exactly? && sight.resource.docker == docker && sight.id == id
    case Entry(t) => Implied(work, t)
    case Directory(t) => Implied(work, t)
    case _ => true
  }

  predicate Implied(work: Work, t: TD.Target) {
    work.notes.records.Some? && t in TD.Targets(work.claim.project, work.notes.records.value.deployments)
  }

  /** Everything the records imply was seen to be absent, and nothing with the project's label was seen. */
  predicate LookedThrough(p: ProjectId, notes: Notes) {
    && notes.records.Some?
    && var rs := TD.Expected(p, notes.records.value.deployments, notes.records.value.runtime);
       var ts := TD.Targets(p, notes.records.value.deployments);
    && (forall i :: 0 <= i < |rs| ==> NoObject(TD.KeyOf(rs[i])) in notes.sights)
    && NoLabel(TD.Container) in notes.sights && NoLabel(TD.Network) in notes.sights && NoLabel(TD.Image) in notes.sights
    && (forall i :: 0 <= i < |ts| ==> NoDirectory(ts[i]) in notes.sights)
  }

  /**
   What lets a worker call the work of a phase done: that it looked through Docker and disk,
   a removal that was reported to succeed, or no database to remove; in the last phase that
   it looked through everything.
   */
  predicate MayFinish(work: Work) {
    var c, notes := work.claim, work.notes;
    match c.job.phase
    case RuntimeCleanup => LookedThrough(c.project, notes)
    case DatabaseQuiescing => work.point == Removed || !c.job.deleteDatabase
    case DatabaseDropDatabase => work.point == Removed || !c.job.deleteDatabase
    case DatabaseDropRole => work.point == Removed || !c.job.deleteDatabase
    case SecretCleanup => work.point == Removed
    case MetadataDelete =>
      && LookedThrough(c.project, notes) && NoPart(Secrets) in notes.sights
      && (c.job.deleteDatabase ==> NoPart(Database) in notes.sights && NoPart(Role) in notes.sights)
    case _ => false
  }

  function At(s: Sys, k: WorkerId, work: Work): Sys {
    s.(workers := s.workers[k := work])
  }

  /** Where a removal leaves the worker: a teardown goes on, the others are done if they were reported to succeed. */
  function AfterRemoval(kind: Kind, ok: bool): Point {
    if ok && PartKind(kind) then Removed else AtPhase
  }

  function Without(site: Site, kind: Kind): Site {
    match kind
    case Docker(docker, id) =>
      site.(objects := map k | k in site.objects && !(k.docker == docker && site.objects[k].id == id) :: site.objects[k])
    case Directory(t) => site.(directories := site.directories - {t})
    case _ => site
  }

  /** A removal that succeeds has its effect; one that fails may have had it. */
  function RemoveDo(s: Sys, k: WorkerId, work: Work, kind: Kind, ok: bool, gone: bool): Sys {
    var p := work.claim.project;
    At(s.(removals := s.removals + [Removal(p, kind, ok, p in H.RoutesOf(s.host.files.config))],
          present := if ok || gone then s.present - {(p, kind)} else s.present,
          site := if ok || gone then Without(s.site, kind) else s.site),
       k, work.(point := AfterRemoval(kind, ok)))
  }

  predicate DatabasePhase(phase: D.Phase) {
    phase in {D.DatabaseQuiescing, D.DatabaseDropDatabase, D.DatabaseDropRole}
  }

  /** The worker's own check that its authorization covers the database that is there. */
  predicate AuthorizationMismatch(s: Sys, c: D.Claim) {
    (c.project in s.resources) != c.job.deleteDatabase
  }

  /** The point a phase must reach before the worker asks for the next one. */
  function ReadyPoint(phase: D.Phase): Point {
    match phase
    case Requested => AtPhase
    case WaitingForOperations => Drained
    case RouteDisabling => RouteApplied
    case RouteRemoved => RouteApplied
    case _ => Worked
  }

  // ---------------------------------------------------------------- steps

  /** Host steps open to the API and the routing process; deletion drives the others itself. */
  predicate OpenHostStep(h: H.Step) {
    !h.MarkDeleting? && !h.DropProject? && !h.DisableDeleted?
  }

  function FleetDo(s: Sys, step: FleetStep): F.Db {
    match step
    case Create(d, p, snapshot, now) =>
      var r := F.Create(s.fleet, d, p, ProjectStatusOf(s, p), snapshot, now);
      if d in s.used || r.Failure? then s.fleet else r.value
    case ClaimDeployment(d, owner, now, duration) =>
      if F.Claimable(s.fleet, d, now) then F.ClaimJob(s.fleet, d, owner, now, duration).0 else s.fleet
    case RenewDeployment(c, now, duration) =>
      var r := F.Renew(s.fleet, c, now, duration);
      if r.Success? then r.value else s.fleet
    case Write(c, now, write) =>
      if F.Allowed(write) && F.Commit(s.fleet, c, now, write).Success? then F.Commit(s.fleet, c, now, write).value else s.fleet
    case ReconcileSucceeded(d) =>
      var r := F.ReconcileSucceeded(s.fleet, d);
      if r.Success? then r.value else s.fleet
  }

  predicate Creates(s: Sys, f: FleetStep) {
    f.Create? && f.d !in s.used && F.Create(s.fleet, f.d, f.p, ProjectStatusOf(s, f.p), f.snapshot, f.now).Success?
  }

  function UsedAfter(s: Sys, f: FleetStep): map<DeploymentId, ProjectId> {
    if Creates(s, f) then s.used[f.d := f.p] else s.used
  }

  function RecsDo(s: Sys, step: RecsStep): Q.Db {
    match step
    case Request(d, now) =>
      var r := Q.Request(s.recs, d, ProjectOf(s, d), now);
      if r.Success? then r.value else s.recs
    case Schedule(d, at) => Q.Schedule(s.recs, d, ProjectOf(s, d), at)
    case ClaimRow(d, owner, now, duration) =>
      if Q.Claimable(s.recs, d, now) then Q.ClaimRow(s.recs, d, owner, now, duration).0 else s.recs
    case RenewRow(c, now, duration) =>
      var r := Q.Renew(s.recs, c, now, duration);
      if r.Success? then r.value else s.recs
    case Finish(c, now, blocked) =>
      var r := Q.Finish(s.recs, c, now, blocked);
      if r.Success? then r.value else s.recs
    case RetryRow(c, now, at) =>
      var r := Q.Retry(s.recs, c, now, at);
      if r.Success? then r.value else s.recs
  }

  /** The request of a deletion inserts the job and marks the project in one transaction. */
  function RequestDo(s: Sys, p: ProjectId, confirmation: D.Confirmation, now: Time): Sys {
    var r := D.Request(s.deletions, p, p in s.host.db.projects, p in s.resources, confirmation, now);
    if r.Failure? || r.value == s.deletions then s
    else s.(deletions := r.value, host := H.Do(s.host, H.MarkDeleting(p)))
  }

  function Rest(s: Sys, k: WorkerId): Sys {
    s.(workers := s.workers - {k})
  }

  /** The transaction the worker gives its claim up with, whatever came of it. */
  function Release(s: Sys, k: WorkerId, r: Result<D.Db, D.DeletionError>): Sys {
    Rest(if r.Success? then s.(deletions := r.value) else s, k)
  }

  function FinalizeDo(s: Sys, p: ProjectId): Sys {
    s.(host := H.Do(s.host, H.DropProject(p)),
       recs := s.recs.(rows := s.recs.rows - F.OfProject(s.fleet, p)),
       fleet := F.RemoveProject(s.fleet, p),
       resources := s.resources - {p},
       deletions := s.deletions.(jobs := s.deletions.jobs - {p}),
       site := s.site.(runtimes := s.site.runtimes - {p}))
  }

  /** Renews the claim and asks the guard; without both the worker is not cleared. */
  function AuthorizeDo(s: Sys, k: WorkerId, work: Work, now: Time, duration: nat): Sys {
    var c := work.claim;
    var r := D.Renew(s.deletions, c, now, duration);
    var s' := if r.Failure? then s else s.(deletions := r.value);
    var cleared := r.Success? && MutationAllowed(s', c, now, c.job.phase != D.RouteDisabling);
    At(s', k, work.(point := if cleared then Cleared else AtPhase))
  }

  function AdvanceDo(s: Sys, k: WorkerId, c: D.Claim, now: Time): Sys
    requires c.job.phase != D.MetadataDelete
  {
    var r := D.Advance(s.deletions, c, now, c.job.phase, D.PHASES[D.Index(c.job.phase) + 1]);
    if r.Failure? then Rest(s, k)
    else At(s.(deletions := r.value), k, Work(c.(job := r.value.jobs[c.project]), AtPhase, NO_NOTES))
  }

  function WorkerDo(s: Sys, k: WorkerId, work: Work, action: Action): Sys {
    var c, p, phase := work.claim, work.claim.project, work.claim.job.phase;
    match action
    case Beat(now, duration) =>
      var r := D.Renew(s.deletions, c, now, duration);
      if r.Success? then s.(deletions := r.value) else s
    case CheckDrained(locksFree) =>
      if work.point == AtPhase && phase == D.WaitingForOperations && locksFree && OperationsDrained(s, p)
      then At(s, k, work.(point := Drained)) else s
    case CheckApplied =>
      if work.point == AtPhase && (phase == D.RouteDisabling || phase == D.RouteRemoved) && R.RouteGone(s.host.db, p)
      then At(s, k, work.(point := RouteApplied)) else s
    case Authorize(now, duration) =>
      if (work.point != AtPhase && work.point != Cleared) || D.Index(phase) < 2 || phase == D.RouteRemoved then s
      else if DatabasePhase(phase) && (AuthorizationMismatch(s, c) || p !in s.resources) then s
      else AuthorizeDo(s, k, work, now, duration)
    case DisableRoute(now) =>
      if work.point == Cleared && phase == D.RouteDisabling
      then At(s.(host := H.Do(s.host, H.DisableDeleted(p, now))), k, work.(point := AtPhase)) else s
    case Read(rows) =>
      if LooksIn(phase) && work.point != Worked && Listed(s.fleet, p, rows)
      then At(s, k, work.(notes := work.notes.(records := Some(Records(rows, RuntimeOf(s, p)))))) else s
    case Look(sight) =>
      if LooksIn(phase) && Sees(s, work, sight)
      then At(s, k, work.(notes := work.notes.(sights := work.notes.sights + {sight}))) else s
    case Remove(kind, ok, gone) =>
      if work.point == Cleared && RemovesIn(phase, kind) && MayTake(work, kind) then RemoveDo(s, k, work, kind, ok, gone) else s
    case FinishWork =>
      if MayFinish(work) then At(s, k, work.(point := Worked)) else s
    case AdvancePhase(now) =>
      if phase == D.MetadataDelete || work.point != ReadyPoint(phase) then s else AdvanceDo(s, k, c, now)
    case Defer(now, at) => Release(s, k, D.Defer(s.deletions, c, now, at))
    case Reschedule(now, at) => Release(s, k, D.Reschedule(s.deletions, c, now, at))
    case Fail(now, error) => Release(s, k, D.Fail(s.deletions, c, now, error))
    case Finalize(now) =>
      if phase != D.MetadataDelete || work.point != Worked then s
      else if MutationAllowed(s, c, now, true) && s.deletions.jobs[p].phase == D.MetadataDelete then Rest(FinalizeDo(s, p), k)
      else Rest(s, k)
    case Stop => Rest(s, k)
  }

  function TakeDo(s: Sys, k: WorkerId, p: ProjectId, now: Time, duration: nat): Sys {
    if k in s.workers || !D.Claimable(s.deletions, p, now) then s
    else
      var (deletions, c) := D.ClaimJob(s.deletions, p, k, now, duration);
      At(s.(deletions := deletions), k, Work(c, AtPhase, NO_NOTES))
  }

  function Do(s: Sys, step: Step): Sys {
    match step
    case Host(h) => if OpenHostStep(h) then s.(host := H.Do(s.host, h)) else s
    case Fleet(f) => s.(fleet := FleetDo(s, f), used := UsedAfter(s, f))
    case Recs(q) => s.(recs := RecsDo(s, q))
    case EnsureDatabase(p) =>
      if p in s.host.db.projects && !IsDeleting(s, p) then s.(resources := s.resources + {p}) else s
    case Appear(p, kind) => if MayAppear(s, p, kind) then s.(present := s.present + {(p, kind)}) else s
    case OnSite(change) => s.(site := SiteDo(s, change))
    case RequestDeletion(p, confirmation, now) => RequestDo(s, p, confirmation, now)
    case RetryDeletion(p, confirmation, now) =>
      var r := D.Retry(s.deletions, p, p in s.host.db.projects, p in s.resources, confirmation, now);
      if r.Success? then s.(deletions := r.value) else s
    case TakeDeletion(k, p, now, duration) => TakeDo(s, k, p, now, duration)
    case Act(k, action) => if k in s.workers then WorkerDo(s, k, s.workers[k], action) else s
  }

  function After(s: Sys, run: seq<Step>): Sys {
    if run == [] then s else Do(After(s, run[..|run| - 1]), run[|run| - 1])
  }
}
