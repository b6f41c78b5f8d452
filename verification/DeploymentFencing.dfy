/**
 Any number of deployment workers over one set of tables, each with its own clock. A
 worker that lost its lease keeps its claim and may act on it at any later time, so every
 claim ever issued may be used at every step. The log records each committed write with
 the attempt number of the claim that made it; calls records each time a worker started
 to process a deployment.
 */
module DeploymentFencing {
  import opened Wrappers
  import opened Ids
  import opened DeploymentStore

  datatype Entry = Entry(deployment: DeploymentId, attempt: nat, finishes: bool)

  datatype Call = Call(token: Token, deployment: DeploymentId, attempt: nat)

  datatype Verdict = Active | SafeToRetry | Uncertain

  /** How far the single run_once that owns a claim has come. */
  datatype Stage = Fresh | Judged(verdict: Verdict) | Called

  datatype World = World(db: Db, maxAttempts: nat, seen: set<DeploymentId>,
                         claims: map<Token, Claim>, stages: map<Token, Stage>,
                         log: seq<Entry>, calls: seq<Call>)

  datatype Step =
    | CreateStep(d: DeploymentId, p: ProjectId, project: Option<ProjectStatus>, snapshot: Snapshot, now: Time)
    | ClaimStep(d: DeploymentId, owner: WorkerId, now: Time, duration: nat)
    | RenewStep(token: Token, now: Time, duration: nat)
    | WriteStep(token: Token, now: Time, write: Write)
    | JudgeStep(token: Token, verdict: Verdict)
    | ProcessStep(token: Token)
    | ReconcileStep(d: DeploymentId)
    | RemoveStep(p: ProjectId)

  function Init(maxAttempts: nat): World {
    World(Db(map[], map[], 0), maxAttempts, {}, map[], map[], [], [])
  }

  /** A claim may start processing on its first attempt, or after a safe verdict within the limit. */
  predicate MayProcess(w: World, token: Token) {
    && token in w.claims && token in w.stages
    && (if w.claims[token].attempts > 1
        then w.stages[token] == Judged(SafeToRetry) && w.claims[token].attempts <= w.maxAttempts
        else w.stages[token] == Fresh)
  }

  function Do(w: World, s: Step): World {
    match s
    case CreateStep(d, p, project, snapshot, now) =>
      var r := Create(w.db, d, p, project, snapshot, now);
      if d in w.seen || r.Failure? then w else w.(db := r.value, seen := w.seen + {d})
    case ClaimStep(d, owner, now, duration) =>
      if !Claimable(w.db, d, now) then w
      else
        var (db, c) := ClaimJob(w.db, d, owner, now, duration);
        w.(db := db, claims := w.claims[c.token := c], stages := w.stages[c.token := Fresh],
           log := w.log + [Entry(d, c.attempts, false)])
    case RenewStep(token, now, duration) =>
      if token !in w.claims || Renew(w.db, w.claims[token], now, duration).Failure? then w
      else w.(db := Renew(w.db, w.claims[token], now, duration).value)
    case WriteStep(token, now, write) =>
      if token !in w.claims || !Allowed(write) || Commit(w.db, w.claims[token], now, write).Failure? then w
      else w.(db := Commit(w.db, w.claims[token], now, write).value,
              log := w.log + [Entry(w.claims[token].deployment, w.claims[token].attempts, Finishes(write))])
    case JudgeStep(token, verdict) =>
      if token in w.claims && token in w.stages && w.claims[token].attempts > 1 && w.stages[token] == Fresh
      then w.(stages := w.stages[token := Judged(verdict)]) else w
    case ProcessStep(token) =>
      if !MayProcess(w, token) then w
      else w.(stages := w.stages[token := Called],
              calls := w.calls + [Call(token, w.claims[token].deployment, w.claims[token].attempts)])
    case ReconcileStep(d) =>
      var r := ReconcileSucceeded(w.db, d);
      if r.Success? then w.(db := r.value) else w
    case RemoveStep(p) => w.(db := RemoveProject(w.db, p))
  }

  function After(w: World, run: seq<Step>): World {
    if run == [] then w else Do(After(w, run[..|run| - 1]), run[|run| - 1])
  }

  // ---------------------------------------------------------------- claims

  /** Claims are numbered per deployment, and only the newest can hold the lease. */
  predicate ClaimInv(w: World, t: Token) {
    && t in w.claims && w.claims[t].token == t < w.db.nextToken
    && w.claims[t].deployment in w.seen
    && 1 <= w.claims[t].attempts
    && (w.claims[t].deployment in w.db.jobs ==> w.claims[t].attempts <= w.db.jobs[w.claims[t].deployment].attempts)
  }

  predicate LeaseInv(w: World, d: DeploymentId) {
    d in w.db.jobs && w.db.jobs[d].lease.Some? ==>
      && w.db.jobs[d].lease.value.token in w.claims
      && w.claims[w.db.jobs[d].lease.value.token].deployment == d
      && w.claims[w.db.jobs[d].lease.value.token].attempts == w.db.jobs[d].attempts
  }

  predicate ClaimsInv(w: World) {
    && Inv(w.db)
    && w.db.deployments.Keys <= w.seen
    && w.stages.Keys == w.claims.Keys
    && (forall t :: t in w.claims ==> ClaimInv(w, t))
    && (forall d :: d in w.db.jobs ==> LeaseInv(w, d))
    && (forall t, u :: t in w.claims && u in w.claims && t != u && w.claims[t].deployment == w.claims[u].deployment ==>
          w.claims[t].attempts != w.claims[u].attempts)
  }

  /** A committed write always comes from the newest claim of its deployment. */
  lemma LiveClaimIsNewest(w: World, t: Token, now: Time)
    requires ClaimsInv(w) && t in w.claims && Live(w.db, w.claims[t], now)
    ensures w.claims[t].attempts == w.db.jobs[w.claims[t].deployment].attempts
    ensures forall u :: u in w.claims && w.claims[u].deployment == w.claims[t].deployment ==> w.claims[u].attempts <= w.claims[t].attempts
  {
    assert LeaseInv(w, w.claims[t].deployment);
    assert ClaimInv(w, t);
    forall u | u in w.claims && w.claims[u].deployment == w.claims[t].deployment
      ensures w.claims[u].attempts <= w.claims[t].attempts
    {
      assert ClaimInv(w, u);
    }
  }

  lemma ClaimStepKeepsClaims(w: World, s: Step)
    requires ClaimsInv(w) && s.ClaimStep?
    ensures ClaimsInv(Do(w, s))
  {
    if Claimable(w.db, s.d, s.now) {
      ClaimJobKeeps(w.db, s.d, s.owner, s.now, s.duration);
      var w' := Do(w, s);
      forall t | t in w'.claims ensures ClaimInv(w', t) {
        if t != w.db.nextToken { assert ClaimInv(w, t); }
      }
      forall d | d in w'.db.jobs ensures LeaseInv(w', d) {
        assert LeaseInv(w, d);
        assert RowInv(w.db.deployments[d], w.db.jobs[d], w.db.nextToken);
      }
      assert forall t :: t in w.claims ==> ClaimInv(w, t);
    }
  }

  lemma RowStepKeepsClaims(w: World, w': World)
    requires ClaimsInv(w) && Inv(w'.db)
    requires w'.claims == w.claims && w'.stages.Keys == w.stages.Keys && w.seen <= w'.seen
    requires w'.db.deployments.Keys <= w'.seen && w'.db.nextToken == w.db.nextToken
    requires forall d :: d in w'.db.jobs ==>
               if d in w.db.jobs
               then w'.db.jobs[d].attempts == w.db.jobs[d].attempts
                    && (w'.db.jobs[d].lease.Some? ==>
                          w.db.jobs[d].lease.Some? && w'.db.jobs[d].lease.value.token == w.db.jobs[d].lease.value.token)
               else d !in w.seen && w'.db.jobs[d].lease == None
    ensures ClaimsInv(w')
  {
    forall t | t in w'.claims ensures ClaimInv(w', t) { assert ClaimInv(w, t); }
    forall d | d in w'.db.jobs ensures LeaseInv(w', d) { if d in w.db.jobs { assert LeaseInv(w, d); } }
  }

  lemma CreateStepKeepsClaims(w: World, s: Step)
    requires ClaimsInv(w) && s.CreateStep?
    ensures ClaimsInv(Do(w, s))
  {
    if s.d !in w.seen && Create(w.db, s.d, s.p, s.project, s.snapshot, s.now).Success? {
      CreateKeeps(w.db, s.d, s.p, s.project, s.snapshot, s.now);
      RowStepKeepsClaims(w, Do(w, s));
    }
  }

  lemma RenewStepKeepsClaims(w: World, s: Step)
    requires ClaimsInv(w) && s.RenewStep?
    ensures ClaimsInv(Do(w, s))
  {
    if s.token in w.claims && Renew(w.db, w.claims[s.token], s.now, s.duration).Success? {
      RenewKeeps(w.db, w.claims[s.token], s.now, s.duration);
      RowStepKeepsClaims(w, Do(w, s));
    }
  }

  lemma WriteStepKeepsClaims(w: World, s: Step)
    requires ClaimsInv(w) && s.WriteStep?
    ensures ClaimsInv(Do(w, s))
  {
    if s.token in w.claims && Allowed(s.write) && Commit(w.db, w.claims[s.token], s.now, s.write).Success? {
      CommitKeeps(w.db, w.claims[s.token], s.now, s.write);
      RowStepKeepsClaims(w, Do(w, s));
    }
  }

  lemma ReconcileStepKeepsClaims(w: World, d: DeploymentId)
    requires ClaimsInv(w)
    ensures ClaimsInv(Do(w, ReconcileStep(d)))
  {
    if ReconcileSucceeded(w.db, d).Success? {
      ReconcileSucceededKeeps(w.db, d);
      RowStepKeepsClaims(w, Do(w, ReconcileStep(d)));
    }
  }

  lemma RemoveStepKeepsClaims(w: World, p: ProjectId)
    requires ClaimsInv(w)
    ensures ClaimsInv(Do(w, RemoveStep(p)))
  {
    RemoveProjectKeeps(w.db, p);
    RowStepKeepsClaims(w, Do(w, RemoveStep(p)));
  }

  lemma StepKeepsClaims(w: World, s: Step)
    requires ClaimsInv(w)
    ensures ClaimsInv(Do(w, s))
  {
    match s
    case CreateStep(_, _, _, _, _) => CreateStepKeepsClaims(w, s);
    case ClaimStep(_, _, _, _) => ClaimStepKeepsClaims(w, s);
    case RenewStep(_, _, _) => RenewStepKeepsClaims(w, s);
    case WriteStep(_, _, _) => WriteStepKeepsClaims(w, s);
    case JudgeStep(_, _) => RowStepKeepsClaims(w, Do(w, s));
    case ProcessStep(_) => RowStepKeepsClaims(w, Do(w, s));
    case ReconcileStep(d) => ReconcileStepKeepsClaims(w, d);
    case RemoveStep(p) => RemoveStepKeepsClaims(w, p);
  }

  // ---------------------------------------------------------------- the log of committed writes

  /** Attempt numbers never go back within a deployment, and nothing follows a finishing write. */
  predicate Ordered(log: seq<Entry>) {
    forall i, j :: 0 <= i < j < |log| && log[i].deployment == log[j].deployment ==>
      log[i].attempt <= log[j].attempt && !log[i].finishes
  }

  predicate EntryInv(w: World, e: Entry) {
    && e.deployment in w.seen
    && (e.deployment in w.db.jobs && e.deployment in w.db.deployments ==>
          && e.attempt <= w.db.jobs[e.deployment].attempts
          && (e.finishes ==> Terminal(w.db.deployments[e.deployment].status)))
  }

  predicate FinishLogged(w: World, d: DeploymentId) {
    exists i :: 0 <= i < |w.log| && w.log[i].deployment == d && w.log[i].finishes
  }

  predicate LogInv(w: World) {
    && Ordered(w.log)
    && (forall i :: 0 <= i < |w.log| ==> EntryInv(w, w.log[i]))
    && (forall d :: d in w.db.deployments && Terminal(w.db.deployments[d].status) ==> FinishLogged(w, d))
  }

  /** Appending a write of the newest claim of a deployment that is not over. */
  lemma AppendKeepsLog(w: World, w': World, e: Entry)
    requires LogInv(w) && w'.log == w.log + [e] && w.seen <= w'.seen
    requires e.deployment in w.db.jobs && e.deployment in w.db.deployments && e.deployment in w.seen
    requires !Terminal(w.db.deployments[e.deployment].status)
    requires w.db.jobs[e.deployment].attempts <= e.attempt
    requires w'.db.deployments.Keys == w.db.deployments.Keys && w'.db.jobs.Keys == w.db.jobs.Keys
    requires forall d :: d in w.db.jobs ==> if d == e.deployment then w'.db.jobs[d].attempts == e.attempt else w'.db.jobs[d] == w.db.jobs[d]
    requires forall d :: d in w.db.deployments && d != e.deployment ==> w'.db.deployments[d] == w.db.deployments[d]
    requires Terminal(w'.db.deployments[e.deployment].status) <==> e.finishes
    ensures LogInv(w')
  {
    forall i | 0 <= i < |w.log| && w.log[i].deployment == e.deployment
      ensures w.log[i].attempt <= e.attempt && !w.log[i].finishes
    {
      assert EntryInv(w, w.log[i]);
    }
    forall i | 0 <= i < |w'.log| ensures EntryInv(w', w'.log[i]) {
      if i < |w.log| { assert EntryInv(w, w.log[i]); }
    }
    forall d | d in w'.db.deployments && Terminal(w'.db.deployments[d].status) ensures FinishLogged(w', d) {
      if d == e.deployment {
        assert w'.log[|w.log|] == e;
      } else {
        assert FinishLogged(w, d);
        var i :| 0 <= i < |w.log| && w.log[i].deployment == d && w.log[i].finishes;
        assert w'.log[i] == w.log[i];
      }
    }
  }

  /** A step that writes nothing to the log and ends no deployment. */
  lemma QuietKeepsLog(w: World, w': World)
    requires LogInv(w) && w'.log == w.log && w.seen <= w'.seen
    requires forall d :: d in w'.db.jobs && d in w'.db.deployments ==>
               if d in w.db.jobs && d in w.db.deployments
               then w'.db.jobs[d].attempts == w.db.jobs[d].attempts
                    && Terminal(w'.db.deployments[d].status) == Terminal(w.db.deployments[d].status)
               else d !in w.seen && !Terminal(w'.db.deployments[d].status)
    requires w'.db.jobs.Keys == w'.db.deployments.Keys
    ensures LogInv(w')
  {
    forall i | 0 <= i < |w'.log| ensures EntryInv(w', w'.log[i]) {
      assert EntryInv(w, w.log[i]);
    }
    forall d | d in w'.db.deployments && Terminal(w'.db.deployments[d].status) ensures FinishLogged(w', d) {
      assert FinishLogged(w, d);
    }
  }

  lemma WriteStepKeepsLog(w: World, s: Step)
    requires ClaimsInv(w) && LogInv(w) && s.WriteStep?
    ensures LogInv(Do(w, s))
  {
    if s.token in w.claims && Allowed(s.write) && Commit(w.db, w.claims[s.token], s.now, s.write).Success? {
      var c := w.claims[s.token];
      LiveClaimIsNewest(w, s.token, s.now);
      assert RowInv(w.db.deployments[c.deployment], w.db.jobs[c.deployment], w.db.nextToken);
      AppendKeepsLog(w, Do(w, s), Entry(c.deployment, c.attempts, Finishes(s.write)));
    }
  }

  lemma ClaimStepKeepsLog(w: World, s: Step)
    requires ClaimsInv(w) && LogInv(w) && s.ClaimStep?
    ensures LogInv(Do(w, s))
  {
    if Claimable(w.db, s.d, s.now) {
      AppendKeepsLog(w, Do(w, s), Entry(s.d, w.db.jobs[s.d].attempts + 1, false));
    }
  }

  lemma TableStepKeepsLog(w: World, s: Step)
    requires ClaimsInv(w) && LogInv(w) && (s.CreateStep? || s.RenewStep? || s.ReconcileStep?)
    ensures LogInv(Do(w, s))
  {
    if Do(w, s) != w {
      QuietKeepsLog(w, Do(w, s));
    }
  }

  lemma RemoveStepKeepsLog(w: World, p: ProjectId)
    requires ClaimsInv(w) && LogInv(w)
    ensures LogInv(Do(w, RemoveStep(p)))
  {
    QuietKeepsLog(w, Do(w, RemoveStep(p)));
  }

  lemma OtherStepKeepsLog(w: World, s: Step)
    requires ClaimsInv(w) && LogInv(w) && !s.WriteStep? && !s.ClaimStep?
    ensures LogInv(Do(w, s))
  {
    if s.RemoveStep? {
      RemoveStepKeepsLog(w, s.p);
    } else if s.JudgeStep? || s.ProcessStep? {
      QuietKeepsLog(w, Do(w, s));
    } else {
      TableStepKeepsLog(w, s);
    }
  }

  // ---------------------------------------------------------------- calls of process

  predicate CallInv(w: World, c: Call) {
    && c.token in w.claims && c.token in w.stages && w.stages[c.token] == Called
    && w.claims[c.token].deployment == c.deployment && w.claims[c.token].attempts == c.attempt
    && 1 <= c.attempt <= w.maxAttempts
  }

  predicate CallsInv(w: World) {
    && 1 <= w.maxAttempts
    && (forall i :: 0 <= i < |w.calls| ==> CallInv(w, w.calls[i]))
    && (forall i, j :: 0 <= i < j < |w.calls| ==> w.calls[i].token != w.calls[j].token)
  }

  lemma ProcessStepKeepsCalls(w: World, token: Token)
    requires ClaimsInv(w) && CallsInv(w)
    ensures CallsInv(Do(w, ProcessStep(token)))
  {
    if MayProcess(w, token) {
      var w' := Do(w, ProcessStep(token));
      assert ClaimInv(w, token);
      forall i | 0 <= i < |w'.calls| ensures CallInv(w', w'.calls[i]) {
        if i < |w.calls| { assert CallInv(w, w.calls[i]); }
      }
    }
  }

  lemma OtherStepKeepsCalls(w: World, s: Step)
    requires ClaimsInv(w) && CallsInv(w) && !s.ProcessStep?
    ensures CallsInv(Do(w, s))
  {
    var w' := Do(w, s);
    assert w'.calls == w.calls;
    forall i | 0 <= i < |w'.calls| ensures CallInv(w', w'.calls[i]) {
      assert CallInv(w, w.calls[i]);
      assert ClaimInv(w, w.calls[i].token);
    }
  }

  // ---------------------------------------------------------------- every run

  predicate WorldInv(w: World) {
    ClaimsInv(w) && LogInv(w) && CallsInv(w)
  }

  lemma StepKeeps(w: World, s: Step)
    requires WorldInv(w)
    ensures WorldInv(Do(w, s))
  {
    StepKeepsClaims(w, s);
    if s.WriteStep? { WriteStepKeepsLog(w, s); }
    else if s.ClaimStep? { ClaimStepKeepsLog(w, s); }
    else { OtherStepKeepsLog(w, s); }
    if s.ProcessStep? { ProcessStepKeepsCalls(w, s.token); } else { OtherStepKeepsCalls(w, s); }
  }

  lemma {:induction false} Reachable(maxAttempts: nat, run: seq<Step>)
    requires 1 <= maxAttempts
    ensures WorldInv(After(Init(maxAttempts), run))
    ensures After(Init(maxAttempts), run).maxAttempts == maxAttempts
    decreases |run|
  {
    if run == [] {
      assert WorldInv(Init(maxAttempts));
    } else {
      Reachable(maxAttempts, run[..|run| - 1]);
      StepKeeps(After(Init(maxAttempts), run[..|run| - 1]), run[|run| - 1]);
    }
  }

  /**
   Over every run, with any number of workers and any clocks: the committed writes of one
   deployment come in nondecreasing claim number; a finishing write is the last one; and a
   deployment is over exactly when one was committed.
   */
  lemma WritesAreFenced(maxAttempts: nat, run: seq<Step>, i: nat, j: nat)
    requires 1 <= maxAttempts
    requires i < j < |After(Init(maxAttempts), run).log|
    requires var log := After(Init(maxAttempts), run).log; log[i].deployment == log[j].deployment
    ensures var log := After(Init(maxAttempts), run).log; log[i].attempt <= log[j].attempt && !log[i].finishes
  {
    Reachable(maxAttempts, run);
  }

  lemma TerminalIffFinished(maxAttempts: nat, run: seq<Step>, d: DeploymentId)
    requires 1 <= maxAttempts && d in After(Init(maxAttempts), run).db.deployments
    ensures var w := After(Init(maxAttempts), run);
            Terminal(w.db.deployments[d].status) <==> FinishLogged(w, d)
  {
    Reachable(maxAttempts, run);
    var w := After(Init(maxAttempts), run);
    if FinishLogged(w, d) {
      var i :| 0 <= i < |w.log| && w.log[i].deployment == d && w.log[i].finishes;
      assert EntryInv(w, w.log[i]);
    }
  }

  /** In every reachable state status and job agree: waiting, being worked on under a lease, or over. */
  lemma StatusMatchesJob(maxAttempts: nat, run: seq<Step>, d: DeploymentId)
    requires 1 <= maxAttempts && d in After(Init(maxAttempts), run).db.deployments
    ensures var db := After(Init(maxAttempts), run).db;
            && d in db.jobs
            && (db.deployments[d].status == Queued <==> db.jobs[d].state == JobPending)
            && (Processing(db.deployments[d].status) <==> db.jobs[d].state == JobClaimed)
            && (Terminal(db.deployments[d].status) <==> db.jobs[d].state == JobDone)
  {
    Reachable(maxAttempts, run);
    var db := After(Init(maxAttempts), run).db;
    assert RowInv(db.deployments[d], db.jobs[d], db.nextToken);
  }

  // ---------------------------------------------------------------- the attempt limit

  /** The attempt numbers of the process calls for d, in call order. */
  function CallsOf(calls: seq<Call>, d: DeploymentId): seq<nat>
  {
    if calls == [] then []
    else
      var rest := CallsOf(calls[..|calls| - 1], d);
      var last := calls[|calls| - 1];
      if last.deployment == d then rest + [last.attempt] else rest
  }

  predicate Distinct(s: seq<nat>) {
    forall i, j :: 0 <= i < j < |s| ==> s[i] != s[j]
  }

  lemma {:induction false} CallsOfAreCalls(calls: seq<Call>, d: DeploymentId, k: nat)
    requires k < |CallsOf(calls, d)|
    ensures exists i :: 0 <= i < |calls| && calls[i].deployment == d && calls[i].attempt == CallsOf(calls, d)[k]
    decreases |calls|
  {
    var rest := calls[..|calls| - 1];
    if k < |CallsOf(rest, d)| {
      CallsOfAreCalls(rest, d, k);
      var i :| 0 <= i < |rest| && rest[i].deployment == d && rest[i].attempt == CallsOf(rest, d)[k];
      assert calls[i] == rest[i];
    } else {
      assert calls[|calls| - 1].deployment == d;
    }
  }

  lemma {:induction false} CallsOfDistinct(calls: seq<Call>, d: DeploymentId)
    requires forall i, j :: 0 <= i < j < |calls| && calls[i].deployment == calls[j].deployment ==> calls[i].attempt != calls[j].attempt
    ensures Distinct(CallsOf(calls, d))
    decreases |calls|
  {
    if calls != [] {
      var rest := calls[..|calls| - 1];
      CallsOfDistinct(rest, d);
      forall k | 0 <= k < |CallsOf(rest, d)| && calls[|rest|].deployment == d
        ensures CallsOf(rest, d)[k] != calls[|rest|].attempt
      {
        CallsOfAreCalls(rest, d, k);
        var i :| 0 <= i < |rest| && rest[i].deployment == d && rest[i].attempt == CallsOf(rest, d)[k];
        assert calls[i] == rest[i];
      }
    }
  }

  /** Distinct numbers between 1 and n are at most n. */
  lemma {:induction false} Pigeonhole(s: seq<nat>, n: nat)
    requires Distinct(s) && forall i :: 0 <= i < |s| ==> 1 <= s[i] <= n
    ensures |s| <= n
    decreases n
  {
    assert s == [] || 1 <= s[0] <= n;
    if n > 0 {
      if n in s {
        var k :| 0 <= k < |s| && s[k] == n;
        Pigeonhole(s[..k] + s[k + 1..], n - 1);
      } else {
        Pigeonhole(s, n - 1);
      }
    }
  }

  /** process is called at most maxAttempts times for one deployment, whatever crashes and retries. */
  lemma ProcessCallsAreBounded(maxAttempts: nat, run: seq<Step>, d: DeploymentId)
    requires 1 <= maxAttempts
    ensures |CallsOf(After(Init(maxAttempts), run).calls, d)| <= maxAttempts
  {
    Reachable(maxAttempts, run);
    var w := After(Init(maxAttempts), run);
    forall i, j | 0 <= i < j < |w.calls| && w.calls[i].deployment == w.calls[j].deployment
      ensures w.calls[i].attempt != w.calls[j].attempt
    {
      assert CallInv(w, w.calls[i]) && CallInv(w, w.calls[j]);
    }
    CallsOfDistinct(w.calls, d);
    var s := CallsOf(w.calls, d);
    forall k | 0 <= k < |s| ensures 1 <= s[k] <= maxAttempts {
      CallsOfAreCalls(w.calls, d, k);
      var i :| 0 <= i < |w.calls| && w.calls[i].deployment == d && w.calls[i].attempt == s[k];
      assert CallInv(w, w.calls[i]);
    }
    Pigeonhole(s, maxAttempts);
  }
}
