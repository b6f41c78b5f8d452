/**
 What ROUTE_DISABLING is for: the project's route is switched off, and stays so whatever
 anybody does until the routing worker has taken it out of the file.
 */
module DeletionRoute {
  import opened Ids
  import opened DeletionSystem
  import opened DeletionSafety
  import D = DeletionStore
  import H = RoutingHost
  import Requests = RoutingRequests
  import R = RouteStore
  import T = DeletionTheorems

  /** The project asks for no hostname any more. */
  predicate RouteOff(s: Sys, p: ProjectId) {
    p in s.host.db.routes ==> s.host.db.routes[p].desired == R.Disabled
  }

  /** Switched off, and waiting for the routing worker, in its hands, or done. */
  predicate RouteGoesOff(s: Sys, p: ProjectId) {
    p in s.host.db.routes ==>
      && s.host.db.routes[p].desired == R.Disabled
      && s.host.db.routes[p].status in {R.Pending, R.Applying, R.Inactive}
  }

  lemma DisableIs(s: Sys, k: WorkerId, now: Time)
    requires k in s.workers && s.workers[k].point == Cleared && s.workers[k].claim.job.phase == D.RouteDisabling
    ensures var s' := WorkerDo(s, k, s.workers[k], DisableRoute(now));
            && s'.host == H.Do(s.host, H.DisableDeleted(s.workers[k].claim.project, now))
            && k in s'.workers && s'.workers[k] == s.workers[k].(point := AtPhase)
  {
  }

  /** A cleared worker in ROUTE_DISABLING switches the route off. */
  lemma DisablingTurnsOff(s: Sys, k: WorkerId, now: Time)
    requires SysInv(s) && k in s.workers && s.workers[k].point == Cleared && s.workers[k].claim.job.phase == D.RouteDisabling
    ensures var s' := WorkerDo(s, k, s.workers[k], DisableRoute(now));
            && k in s'.workers && s'.workers[k] == s.workers[k].(point := AtPhase)
            && RouteGoesOff(s', s.workers[k].claim.project)
  {
    DisableIs(s, k, now);
    assert WorkInv(s, s.workers[k]);
    Requests.DeletionAsksOff(s.host, s.workers[k].claim.project, now);
  }

  lemma HostStepKeepsOff(s: Sys, h: H.Step, p: ProjectId)
    requires SysInv(s) && T.Doomed(s, p) && RouteOff(s, p)
    ensures RouteOff(s.(host := H.Do(s.host, h)), p)
  {
    Requests.StepKeepsOff(s.host, h, p);
  }

  lemma OtherActsKeepRoutes(s: Sys, k: WorkerId, action: Action)
    requires k in s.workers && !action.DisableRoute? && !action.Finalize?
    ensures WorkerDo(s, k, s.workers[k], action).host == s.host
  {
  }

  lemma ActKeepsOff(s: Sys, k: WorkerId, action: Action, p: ProjectId)
    requires SysInv(s) && k in s.workers && T.Doomed(s, p) && RouteOff(s, p)
    ensures RouteOff(WorkerDo(s, k, s.workers[k], action), p)
  {
    var q := s.workers[k].claim.project;
    if action.DisableRoute? {
      HostStepKeepsOff(s, H.DisableDeleted(q, action.now), p);
      DisableCases(s, k, action.now);
    } else if action.Finalize? {
      HostStepKeepsOff(s, H.DropProject(q), p);
      T.FinalizeCases(s, k, action.now);
    } else {
      OtherActsKeepRoutes(s, k, action);
    }
  }

  lemma DisableCases(s: Sys, k: WorkerId, now: Time)
    requires k in s.workers
    ensures var s' := WorkerDo(s, k, s.workers[k], DisableRoute(now));
            s'.host == s.host || s'.host == H.Do(s.host, H.DisableDeleted(s.workers[k].claim.project, now))
  {
  }

  lemma RequestKeepsOff(s: Sys, p: ProjectId, confirmation: D.Confirmation, now: Time, q: ProjectId)
    requires RouteOff(s, q)
    ensures RouteOff(RequestDo(s, p, confirmation, now), q)
  {
  }

  /** No step of anybody switches it on again. */
  lemma StepKeepsRouteOff(s: Sys, step: Step, p: ProjectId)
    requires SysInv(s) && T.Doomed(s, p) && RouteOff(s, p)
    ensures RouteOff(Do(s, step), p)
  {
    match step
    case Host(h) => HostStepKeepsOff(s, h, p);
    case Act(k, action) => if k in s.workers { ActKeepsOff(s, k, action, p); }
    case RequestDeletion(q, confirmation, now) => RequestKeepsOff(s, q, confirmation, now, p);
    case _ => T.HostStands(s, step);
  }

  lemma {:induction false} RunKeepsRouteOff(s: Sys, run: seq<Step>, p: ProjectId)
    requires SysInv(s) && T.Doomed(s, p) && RouteOff(s, p)
    ensures RouteOff(After(s, run), p) && T.Doomed(After(s, run), p)
    decreases |run|
  {
    if run != [] {
      var before := After(s, run[..|run| - 1]);
      RunKeeps(s, run[..|run| - 1]);
      RunKeepsRouteOff(s, run[..|run| - 1], p);
      StepKeepsRouteOff(before, run[|run| - 1], p);
      T.StepKeepsDoomed(before, run[|run| - 1], p);
    }
  }

  lemma WorkIsDoomed(s: Sys, work: Work)
    requires SysInv(s) && WorkInv(s, work)
    ensures T.Doomed(s, work.claim.project)
  {
  }

  lemma OffFromThenOn(s: Sys, k: WorkerId, now: Time, more: seq<Step>)
    requires SysInv(s) && k in s.workers && WorkInv(s, s.workers[k])
    requires s.workers[k].point == Cleared && s.workers[k].claim.job.phase == D.RouteDisabling
    ensures var p, s' := s.workers[k].claim.project, WorkerDo(s, k, s.workers[k], DisableRoute(now));
            RouteGoesOff(s', p) && RouteOff(After(s', more), p)
  {
    var p, s' := s.workers[k].claim.project, WorkerDo(s, k, s.workers[k], DisableRoute(now));
    WorkIsDoomed(s, s.workers[k]);
    DisablingTurnsOff(s, k, now);
    ActKeeps(s, k, DisableRoute(now));
    T.ActKeepsDoomed(s, k, DisableRoute(now), p);
    RunKeepsRouteOff(s', more, p);
  }

  /** In every run: what a cleared worker in ROUTE_DISABLING has switched off stays off in every continuation. */
  lemma OffStaysOff(maxAttempts: nat, run: seq<Step>, k: WorkerId, now: Time, more: seq<Step>)
    requires var s := After(Init(maxAttempts), run);
             k in s.workers && s.workers[k].point == Cleared && s.workers[k].claim.job.phase == D.RouteDisabling
    ensures var s := After(Init(maxAttempts), run);
            var p, s' := s.workers[k].claim.project, WorkerDo(s, k, s.workers[k], DisableRoute(now));
            RouteGoesOff(s', p) && RouteOff(After(s', more), p)
  {
    Reachable(maxAttempts, run);
    OffFromThenOn(After(Init(maxAttempts), run), k, now, more);
  }
}
