/** From what was asked for to what is applied: over every run of the routing host nothing else ever is. */
module RoutingRequests {
  import opened Wrappers
  import opened Ids
  import opened RouteStore
  import opened RoutingHost
  import opened RoutingSafety
  import Effects = RouteEffects
  import Reports = RoutingReports
  import T = RoutingTheorems

  /** What the project asks for now is on record under the revision it has now. */
  predicate OnRecord(w: World, p: ProjectId, h: Hostname, desired: Desired) {
    && p in w.db.routes && w.db.routes[p].hostname == h && w.db.routes[p].desired == desired
    && (p, w.db.routes[p].revision) in w.history && w.history[(p, w.db.routes[p].revision)] == (h, desired)
  }

  lemma RequestIsOnRecord(w: World, w': World, p: ProjectId, h: Hostname, desired: Desired, now: Time)
    requires HistoryInv(w') && Effects.AsksFor(w.db, w'.db, p, h, desired, now)
    ensures OnRecord(w', p, h, desired)
  {
  }

  /**
   After a hostname was enabled the project asks for just that, and in every continuation
   its revision stands for it.
   */
  lemma EnabledIsOnRecord(maxAttempts: nat, run: seq<Step>, p: ProjectId, h: Hostname, now: Time, more: seq<Step>)
    requires SetEnabled(After(Init(maxAttempts), run).db, p, h, now).Success?
    ensures var w := Do(After(Init(maxAttempts), run), EnableRoute(p, h, now));
            && OnRecord(w, p, h, Enabled)
            && var key := (p, w.db.routes[p].revision);
               key in After(w, more).history && After(w, more).history[key] == (h, Enabled)
  {
    var before := After(Init(maxAttempts), run);
    var w := Do(before, EnableRoute(p, h, now));
    Reachable(maxAttempts, run);
    StepKeeps(before, EnableRoute(p, h, now));
    Effects.EnableAsks(before.db, p, h, now);
    RequestIsOnRecord(before, w, p, h, Enabled, now);
    T.HistoryIsWriteOnce(w, more);
  }

  /** The same of switching off, by a user or by the project's deletion: the hostname stays the one asked for last. */
  lemma DisabledIsOnRecord(maxAttempts: nat, run: seq<Step>, p: ProjectId, now: Time, more: seq<Step>, deletes: bool)
    requires var db := After(Init(maxAttempts), run).db;
             p in db.routes && (if deletes then DisableForDeletion(db, p, now) else Disable(db, p, now)).Success?
    ensures var before := After(Init(maxAttempts), run);
            var w := Do(before, if deletes then DisableDeleted(p, now) else DisableRoute(p, now));
            && OnRecord(w, p, before.db.routes[p].hostname, Disabled)
            && var key := (p, w.db.routes[p].revision);
               key in After(w, more).history && After(w, more).history[key] == (before.db.routes[p].hostname, Disabled)
  {
    var before := After(Init(maxAttempts), run);
    var s := if deletes then DisableDeleted(p, now) else DisableRoute(p, now);
    Reachable(maxAttempts, run);
    StepKeeps(before, s);
    Effects.DisableAsks(before.db, p, now);
    RequestIsOnRecord(before, Do(before, s), p, before.db.routes[p].hostname, Disabled, now);
    T.HistoryIsWriteOnce(Do(before, s), more);
  }

  // ---------------------------------------------------------------- a deleting project asks for nothing more

  /** The project asks for no hostname. */
  predicate AskedOff(w: World, p: ProjectId) {
    p in w.db.routes ==> w.db.routes[p].desired == Disabled
  }

  /** The project is being deleted or gone. */
  predicate Going(w: World, p: ProjectId) {
    p in w.seen && (p in w.db.projects ==> w.db.projects[p] == Deleting)
  }

  lemma RequestsKeepOff(w: World, w': World, p: ProjectId, q: ProjectId)
    requires AskedOff(w, p) && q != p && Effects.OnlyRowsOf(w.db, w'.db, q)
    ensures AskedOff(w', p)
  {
  }

  lemma ApiKeepsOff(w: World, s: Step, p: ProjectId)
    requires WorldInv(w) && ApiStep(s) && Going(w, p) && AskedOff(w, p)
    ensures AskedOff(ApiDo(w, s), p)
  {
    match s
    case EnableRoute(q, h, now) =>
      Effects.EnableAsks(w.db, q, h, now);
      if SetEnabled(w.db, q, h, now).Success? { RequestsKeepOff(w, ApiDo(w, s), p, q); }
    case DisableRoute(q, now) =>
      Effects.DisableAsks(w.db, q, now);
      if Disable(w.db, q, now).Success? && q != p { RequestsKeepOff(w, ApiDo(w, s), p, q); }
    case DisableDeleted(q, now) =>
      Effects.DisableAsks(w.db, q, now);
      if DisableForDeletion(w.db, q, now).Success? && q in w.db.routes && q != p { RequestsKeepOff(w, ApiDo(w, s), p, q); }
    case _ =>
  }

  lemma WorkerKeepsRequests(w: World, s: Step)
    ensures SameRequests(w.db, WorkerDo(w, s).db)
  {
    if s.TakeJob? { TakingKeepsRequests(w, s); } else { Reports.WorkerGoesOn(w, s); }
  }

  lemma TakingKeepsRequests(w: World, s: Step)
    requires s.TakeJob?
    ensures SameRequests(w.db, WorkerDo(w, s).db)
  {
    if w.worker == Idle(false) && Claimable(w.db, s.p, s.now) {
      Effects.ClaimHoldsUntil(w.db, s.p, s.owner, s.now, s.duration, s.now);
    }
  }

  /** Nobody can ask for a hostname again for a project that is on its way out. */
  lemma StepKeepsOff(w: World, s: Step, p: ProjectId)
    requires WorldInv(w) && Going(w, p) && AskedOff(w, p)
    ensures AskedOff(Do(w, s), p)
  {
    if ApiStep(s) { ApiKeepsOff(w, s, p); } else if !s.Crash? { WorkerKeepsRequests(w, s); }
  }

  /** The deletion's own request leaves the route switched off and on its way there, if there is a route. */
  lemma DeletionAsksOff(w: World, p: ProjectId, now: Time)
    requires WorldInv(w) && Going(w, p)
    ensures var w' := Do(w, DisableDeleted(p, now));
            && AskedOff(w', p)
            && (p in w'.db.routes ==> Effects.UnderWay(w'.db, p, w'.db.routes[p].hostname, Disabled))
  {
    Effects.DisableAsks(w.db, p, now);
  }

  // ---------------------------------------------------------------- what is applied was asked for

  /** Every applied hostname is the one its revision stood for, and was wanted then. */
  predicate AppliedIsOnRecord(w: World) {
    forall p :: p in Applied(w.db) ==>
      && Applied(w.db)[p].revision.Some?
      && (p, Applied(w.db)[p].revision.value) in w.history
      && w.history[(p, Applied(w.db)[p].revision.value)] == (Applied(w.db)[p].hostname, Enabled)
  }

  lemma SameAppliedStaysOnRecord(w: World, w': World)
    requires AppliedIsOnRecord(w) && Applied(w'.db) == Applied(w.db) && HistoryGrows(w, w')
    ensures AppliedIsOnRecord(w')
  {
  }

  lemma CompletedIsOnRecord(w: World, w': World, c: Claim, now: Time)
    requires AppliedIsOnRecord(w) && HistoryInv(w) && w'.history == w.history
    requires Complete(w.db, c, now) == Success(w'.db)
    ensures AppliedIsOnRecord(w')
  {
    Effects.CompletionEnds(w.db, c, now, now);
    forall p | p in Applied(w'.db) && p != c.project ensures p in Applied(w.db) && Applied(w'.db)[p] == Applied(w.db)[p] {
    }
  }

  lemma StepKeepsAppliedOnRecord(w: World, s: Step)
    requires WorldInv(w) && AppliedIsOnRecord(w)
    ensures AppliedIsOnRecord(Do(w, s))
  {
    T.StepAdvances(w, s);
    if ApiStep(s) {
      T.ApiIsGrowing(w, s);
      SameAppliedStaysOnRecord(w, Do(w, s));
    } else if s.Finalize? {
      T.FinalizeTables(w, s);
      if T.SameTables(w, WorkerDo(w, s)) {
        SameAppliedStaysOnRecord(w, Do(w, s));
      } else {
        CompletedIsOnRecord(w, Do(w, s), w.worker.work.mode.claim, s.now);
      }
    } else if !s.Crash? {
      T.WorkerIsCalm(w, s);
      SameAppliedStaysOnRecord(w, Do(w, s));
    }
  }

  lemma {:induction false} AppliedIsReachable(maxAttempts: nat, run: seq<Step>)
    ensures AppliedIsOnRecord(After(Init(maxAttempts), run))
    decreases |run|
  {
    if run != [] {
      Reachable(maxAttempts, run[..|run| - 1]);
      AppliedIsReachable(maxAttempts, run[..|run| - 1]);
      StepKeepsAppliedOnRecord(After(Init(maxAttempts), run[..|run| - 1]), run[|run| - 1]);
    }
  }

  /** In every reachable state what a project is served under is what it asked for under the revision that is applied. */
  lemma AppliedWasAskedFor(maxAttempts: nat, run: seq<Step>, p: ProjectId)
    requires var db := After(Init(maxAttempts), run).db; p in db.routes && db.routes[p].appliedHostname.Some?
    ensures var w := After(Init(maxAttempts), run);
            && w.db.routes[p].appliedRevision.Some?
            && (p, w.db.routes[p].appliedRevision.value) in w.history
            && w.history[(p, w.db.routes[p].appliedRevision.value)] == (w.db.routes[p].appliedHostname.value, Enabled)
  {
    AppliedIsReachable(maxAttempts, run);
    assert p in Applied(After(Init(maxAttempts), run).db);
  }
}
