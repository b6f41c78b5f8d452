/**
 The running system as one deletion worker sees it, and the actions through which the
 worker and its teardown take part in it. Between any two of them everyone else may take
 any number of steps.
 */
module DeletionSession {
  import opened Wrappers
  import opened Ids
  import opened DeletionSystem
  import Actions = DeletionActions
  import D = DeletionStore

  predicate TakenBy(step: Step, k: WorkerId) {
    (step.TakeDeletion? && step.k == k) || (step.Act? && step.k == k)
  }

  function MemoryOf(s: Sys, k: WorkerId): Option<Work> {
    if k in s.workers then Some(s.workers[k]) else None
  }

  lemma OtherWorkersKeepMemory(s: Sys, j: WorkerId, action: Action, k: WorkerId)
    requires j in s.workers && j != k
    ensures MemoryOf(WorkerDo(s, j, s.workers[j], action), k) == MemoryOf(s, k)
  {
  }

  /** Nobody else touches what a worker remembers. */
  lemma OthersKeepMemory(s: Sys, step: Step, k: WorkerId)
    requires !TakenBy(step, k)
    ensures MemoryOf(Do(s, step), k) == MemoryOf(s, k)
  {
    if step.Act? && step.k in s.workers { OtherWorkersKeepMemory(s, step.k, step.action, k); }
  }

  /** The states a run from the empty system goes through. */
  predicate IsRun(maxAttempts: nat, states: seq<Sys>, run: seq<Step>) {
    |states| == |run| + 1 && forall i :: 0 <= i < |states| ==> GoesThrough(maxAttempts, states, run, i)
  }

  predicate GoesThrough(maxAttempts: nat, states: seq<Sys>, run: seq<Step>, i: nat)
    requires i < |states| == |run| + 1
  {
    states[i] == if i == 0 then Init(maxAttempts) else Do(states[i - 1], run[i - 1])
  }

  lemma {:induction false} RunIsAfter(maxAttempts: nat, states: seq<Sys>, run: seq<Step>, m: nat, n: nat)
    requires IsRun(maxAttempts, states, run) && m <= n <= |run|
    ensures states[n] == After(states[m], run[m..n])
    decreases n
  {
    if m < n {
      RunIsAfter(maxAttempts, states, run, m, n - 1);
      assert GoesThrough(maxAttempts, states, run, n);
      assert run[m..n][..n - m - 1] == run[m..n - 1];
    }
  }

  lemma RunFromInit(maxAttempts: nat, states: seq<Sys>, run: seq<Step>, n: nat)
    requires IsRun(maxAttempts, states, run) && n <= |run|
    ensures states[n] == After(Init(maxAttempts), run[..n])
  {
    assert GoesThrough(maxAttempts, states, run, 0);
    RunIsAfter(maxAttempts, states, run, 0, n);
    assert run[0..n] == run[..n];
  }

  lemma AuthorizeIs(s: Sys, k: WorkerId, now: Time, duration: nat)
    requires k in s.workers && s.workers[k].point in {AtPhase, Cleared}
    ensures var s' := WorkerDo(s, k, s.workers[k], Authorize(now, duration));
            && k in s'.workers && s'.workers[k].point in {AtPhase, Cleared}
            && s'.workers[k] == s.workers[k].(point := s'.workers[k].point)
  {
  }

  /** Clearing means that the claim was live and is prolonged, and that the guard holds right now. */
  lemma AuthorizedMayAct(s: Sys, k: WorkerId, now: Time, duration: nat)
    requires k in s.workers && AuthorizesAnew(s.workers[k])
    ensures var s' := WorkerDo(s, k, s.workers[k], Authorize(now, duration));
            k in s'.workers && s'.workers[k].point == Cleared ==>
              && Actions.HeldUntil(s', s'.workers[k].claim, now + duration) && Actions.MayAct(s', s'.workers[k])
  {
    if Actions.AsksToAct(s, s.workers[k]) {
      ClearedMayAct(s, k, now, duration);
    } else {
      IdleAuthorization(s, k, now, duration);
    }
  }

  /** The worker is not cleared, or it is in a phase in which it authorizes again and again. */
  predicate AuthorizesAnew(work: Work) {
    work.point == AtPhase || (work.point == Cleared && LooksIn(work.claim.job.phase))
  }

  lemma IdleAuthorization(s: Sys, k: WorkerId, now: Time, duration: nat)
    requires k in s.workers && AuthorizesAnew(s.workers[k]) && !Actions.AsksToAct(s, s.workers[k])
    ensures s.workers[k].point == AtPhase && WorkerDo(s, k, s.workers[k], Authorize(now, duration)) == s
  {
  }

  lemma ClearedMayAct(s: Sys, k: WorkerId, now: Time, duration: nat)
    requires k in s.workers && Actions.AsksToAct(s, s.workers[k])
    ensures var s' := AuthorizeDo(s, k, s.workers[k], now, duration);
            && WorkerDo(s, k, s.workers[k], Authorize(now, duration)) == s'
            && (s'.workers[k].point == Cleared ==>
                  Actions.HeldUntil(s', s'.workers[k].claim, now + duration) && Actions.MayAct(s', s'.workers[k]))
  {
    var work := s.workers[k];
    Actions.AuthorizeIs(s, k, now, duration);
    if D.Renew(s.deletions, work.claim, now, duration).Success? {
      var s1 := s.(deletions := D.Renew(s.deletions, work.claim, now, duration).value);
      Actions.RenewedIsHeld(s, work.claim, now, duration);
      Actions.GuardIs(s1, work, now);
    }
  }

  class Session {
    const me: WorkerId
    ghost const routeAttempts: nat
    var sys: Sys
    ghost var trace: seq<Step>
    ghost var states: seq<Sys>
    ghost var mine: seq<Action>
    ghost var attempts: nat

    constructor (me: WorkerId, routeAttempts: nat)
      ensures Valid() && trace == [] && mine == [] && attempts == 0 && Memory() == None && this.me == me
    {
      this.me, this.routeAttempts := me, routeAttempts;
      sys, trace, states, mine, attempts := Init(routeAttempts), [], [Init(routeAttempts)], [], 0;
      new;
      assert GoesThrough(routeAttempts, states, trace, 0);
    }

    /** The system is where the recorded run has taken it. */
    ghost predicate Valid()
      reads this
    {
      IsRun(routeAttempts, states, trace) && states[|trace|..] == [sys]
    }

    lemma Recorded()
      requires Valid()
      ensures sys == After(Init(routeAttempts), trace)
    {
      RunFromInit(routeAttempts, states, trace, |trace|);
      assert trace[..|trace|] == trace && states[|trace|] == states[|trace|..][0];
    }

    lemma RecordedNow()
      requires Valid()
      ensures states[|trace|] == sys
    {
      assert states[|trace|] == states[|trace|..][0];
    }

    lemma RecordedAt(n: nat)
      requires Valid() && n <= |trace|
      ensures states[n] == After(Init(routeAttempts), trace[..n])
    {
      RunFromInit(routeAttempts, states, trace, n);
    }

    lemma RecordedSince(n: nat)
      requires Valid() && n <= |trace|
      ensures sys == After(states[n], trace[n..])
    {
      RecordedNow();
      RunIsAfter(routeAttempts, states, trace, n, |trace|);
      assert trace[n..|trace|] == trace[n..];
    }

    /** What has happened since: the record has only grown. */
    twostate predicate Continues()
      reads this
    {
      old(trace) <= trace && old(states) <= states
    }

    function Memory(): Option<Work>
      reads this
    {
      MemoryOf(sys, me)
    }

    predicate InPhase(phase: D.Phase, point: Point)
      reads this
    {
      Memory().Some? && Memory().value.claim.job.phase == phase && Memory().value.point == point
    }

    method Take(step: Step)
      requires Valid()
      modifies this`sys, this`trace, this`states
      ensures Valid() && Continues() && sys == Do(old(sys), step) && trace == old(trace) + [step]
      ensures states == old(states) + [sys] && states[|old(trace)|] == old(sys)
    {
      assert states[|trace|..][0] == sys;
      sys := Do(sys, step);
      ghost var before, run := states, trace;
      trace, states := trace + [step], states + [sys];
      forall i | 0 <= i < |states| ensures GoesThrough(routeAttempts, states, trace, i) {
        if i < |before| { assert GoesThrough(routeAttempts, before, run, i); }
      }
    }

    /** Everyone else takes some steps. */
    method Others()
      requires Valid()
      modifies this`sys, this`trace, this`states
      ensures Valid() && Continues() && Memory() == old(Memory())
    {
      var steps: int := *;
      while steps > 0
        invariant Valid() && Continues() && Memory() == old(Memory())
      {
        var step: Step := *;
        if !TakenBy(step, me) {
          OthersKeepMemory(sys, step, me);
          Take(step);
        }
        steps := steps - 1;
      }
    }

    /** An action of this worker. */
    method Act(action: Action)
      requires Valid() && Memory().Some?
      modifies this
      ensures Valid() && Continues() && trace == old(trace) + [Step.Act(me, action)] && mine == old(mine) + [action]
      ensures attempts == old(attempts) + if action.Remove? then 1 else 0
      ensures sys == WorkerDo(old(sys), me, old(sys).workers[me], action) && states[|old(trace)|] == old(sys)
    {
      mine := mine + [action];
      attempts := attempts + if action.Remove? then 1 else 0;
      Take(Step.Act(me, action));
    }

    /** One action, after whatever the others did in the meantime. */
    method Perform(action: Action) returns (ghost before: Sys)
      requires Valid() && Memory().Some?
      modifies this
      ensures Valid() && Continues() && old(trace) < trace && trace[|trace| - 1] == Step.Act(me, action) && mine == old(mine) + [action]
      ensures attempts == old(attempts) + if action.Remove? then 1 else 0
      ensures MemoryOf(before, me) == old(Memory()) && sys == WorkerDo(before, me, before.workers[me], action)
      ensures states[|trace| - 1] == before
    {
      Others();
      before := sys;
      Act(action);
    }

    /** Renews the claim; false when that fails. */
    method Beat() returns (ok: bool)
      requires Valid() && Memory().Some?
      modifies this
      ensures Valid() && Continues() && |mine| == |old(mine)| + 1 && old(mine) <= mine && mine[|old(mine)|].Beat?
      ensures attempts == old(attempts) && Memory() == old(Memory())
      ensures ok ==> Actions.HeldUntil(sys, Memory().value.claim, mine[|old(mine)|].now + mine[|old(mine)|].duration)
    {
      var now: Time, duration: nat := *, *;
      Others();
      ok := D.Renew(sys.deletions, sys.workers[me].claim, now, duration).Success?;
      Actions.BeatProlongs(sys, me, now, duration);
      Act(Action.Beat(now, duration));
    }

    /** A heartbeat and the guard; only with both the worker is cleared. */
    method Authorize() returns (ok: bool)
      requires Valid() && Memory().Some? && Memory().value.point in {AtPhase, Cleared}
      modifies this
      ensures Valid() && Continues() && old(trace) < trace
      ensures |mine| == |old(mine)| + 1 && old(mine) <= mine && mine[|old(mine)|].Authorize?
      ensures attempts == old(attempts)
      ensures Memory() == Some(old(Memory()).value.(point := if ok then Cleared else AtPhase))
      ensures ok && AuthorizesAnew(old(Memory()).value) ==>
        && Actions.HeldUntil(sys, Memory().value.claim, mine[|old(mine)|].now + mine[|old(mine)|].duration)
        && Actions.MayAct(sys, Memory().value)
    {
      var now: Time, duration: nat := *, *;
      ghost var before := Perform(Action.Authorize(now, duration));
      AuthorizeIs(before, me, now, duration);
      if AuthorizesAnew(before.workers[me]) { AuthorizedMayAct(before, me, now, duration); }
      ok := sys.workers[me].point == Cleared;
    }

    /** Notes down what is to be seen right now. */
    method Note(sight: Sight)
      requires Valid() && Memory().Some? && LooksIn(Memory().value.claim.job.phase) && Sees(sys, Memory().value, sight)
      modifies this
      ensures Valid() && Continues() && attempts == old(attempts) && mine == old(mine) + [Look(sight)]
      ensures var work := old(Memory()).value;
              sys == At(old(sys), me, work.(notes := work.notes.(sights := work.notes.sights + {sight})))
    {
      Act(Look(sight));
    }

    /** Carries out one removal, which may fail, and may have had its effect even then. */
    method Remove(kind: Kind, ok: bool, gone: bool)
      requires Valid() && Memory().Some? && Memory().value.point == Cleared
      requires RemovesIn(Memory().value.claim.job.phase, kind) && MayTake(Memory().value, kind)
      modifies this
      ensures Valid() && Continues() && attempts == old(attempts) + 1 && mine == old(mine) + [Action.Remove(kind, ok, gone)]
      ensures sys == RemoveDo(old(sys), me, old(Memory()).value, kind, ok, gone)
    {
      Act(Action.Remove(kind, ok, gone));
    }
  }
}
