/**
 The event log of all deployments and a cursor-driven subscription to one of them. Ids are
 given out when an event is inserted and events become visible when their transaction
 commits, so ids of different deployments may become visible out of order. Events of one
 deployment do not, because of the rows their transactions lock: the job row while the
 deployment is not over, the deployment row once it is.
 */
module EventStream {
  import opened Wrappers
  import opened Ids

  type EventId = nat
  type TransactionId = nat

  datatype Event = Event(id: EventId, deployment: DeploymentId)

  datatype Lock = JobRow | DeploymentRow

  /** An open transaction: the row it locked, the events it inserted, and whether it ends the deployment. */
  datatype Transaction = Transaction(deployment: DeploymentId, lock: Lock, ids: seq<EventId>, ends: bool)

  /** committed lists events as they became visible; over has the deployments whose status is terminal. */
  datatype Log = Log(committed: seq<Event>, open: map<TransactionId, Transaction>, over: set<DeploymentId>, nextId: EventId)

  datatype Step =
    | Begin(t: TransactionId, d: DeploymentId, lock: Lock)
    | Insert(t: TransactionId)
    | End(t: TransactionId)
    | Commit(t: TransactionId)
    | Abort(t: TransactionId)

  function Tagged(ids: seq<EventId>, d: DeploymentId): seq<Event> {
    seq(|ids|, i requires 0 <= i < |ids| => Event(ids[i], d))
  }

  predicate Held(l: Log, d: DeploymentId, lock: Lock) {
    exists t :: t in l.open && l.open[t].deployment == d && l.open[t].lock == lock
  }

  /**
   A transaction gets the job row if nobody else has it and the job is not done, which it is
   once the deployment is over; it gets the deployment row if nobody has that and it is over.
   */
  predicate MayLock(l: Log, d: DeploymentId, lock: Lock) {
    !Held(l, d, lock) && (d in l.over <==> lock == DeploymentRow)
  }

  function Do(l: Log, s: Step): Log {
    match s
    case Begin(t, d, lock) =>
      if t in l.open || !MayLock(l, d, lock) then l else l.(open := l.open[t := Transaction(d, lock, [], false)])
    case Insert(t) =>
      if t !in l.open then l
      else l.(open := l.open[t := l.open[t].(ids := l.open[t].ids + [l.nextId])], nextId := l.nextId + 1)
    case End(t) => if t !in l.open then l else l.(open := l.open[t := l.open[t].(ends := true)])
    case Commit(t) =>
      if t !in l.open then l
      else l.(committed := l.committed + Tagged(l.open[t].ids, l.open[t].deployment), open := l.open - {t},
              over := if l.open[t].ends then l.over + {l.open[t].deployment} else l.over)
    case Abort(t) => l.(open := l.open - {t})
  }

  // ---------------------------------------------------------------- reading the log

  /** The events of one deployment in the order in which they became visible. */
  function Of(events: seq<Event>, d: DeploymentId): seq<EventId> {
    if events == [] then []
    else
      var last := events[|events| - 1];
      Of(events[..|events| - 1], d) + (if last.deployment == d then [last.id] else [])
  }

  function Beyond(ids: seq<EventId>, after: EventId): seq<EventId> {
    if ids == [] then [] else (if ids[0] > after then [ids[0]] else []) + Beyond(ids[1..], after)
  }

  function Visible(l: Log, d: DeploymentId, after: EventId): seq<EventId> {
    Beyond(Of(l.committed, d), after)
  }

  function InsertId(id: EventId, ids: seq<EventId>): seq<EventId> {
    if ids == [] || id <= ids[0] then [id] + ids else [ids[0]] + InsertId(id, ids[1..])
  }

  function OrderById(ids: seq<EventId>): seq<EventId> {
    if ids == [] then [] else InsertId(ids[0], OrderById(ids[1..]))
  }

  /** The query behind a batch. */
  function ListEventsAfter(l: Log, d: DeploymentId, after: EventId, limit: nat): seq<EventId> {
    var ids := OrderById(Visible(l, d, after));
    if |ids| <= limit then ids else ids[..limit]
  }

  // ---------------------------------------------------------------- what the row locks buy

  predicate Increasing(ids: seq<EventId>) {
    forall i, j :: 0 <= i < j < |ids| ==> ids[i] < ids[j]
  }

  predicate Below(ids: seq<EventId>, bound: EventId) {
    forall i :: 0 <= i < |ids| ==> ids[i] < bound
  }

  predicate Ascending(ids: seq<EventId>, bound: EventId) {
    Increasing(ids) && Below(ids, bound)
  }

  /** Of any deployment at most one transaction is open, whichever rows they lock. */
  predicate Alone(l: Log) {
    && (forall t :: t in l.open ==> (l.open[t].deployment in l.over <==> l.open[t].lock == DeploymentRow))
    && (forall t, u :: t in l.open && u in l.open && l.open[t].deployment == l.open[u].deployment ==> t == u)
  }

  /** What is visible and what the open transaction is about to add form one increasing sequence. */
  predicate Serialized(l: Log, t: TransactionId)
    requires t in l.open
  {
    Ascending(Of(l.committed, l.open[t].deployment) + l.open[t].ids, l.nextId)
  }

  ghost predicate Inv(l: Log) {
    && Alone(l)
    && (forall d: DeploymentId :: Ascending(Of(l.committed, d), l.nextId))
    && (forall t :: t in l.open ==> Serialized(l, t))
  }

  lemma {:induction false} OfConcat(a: seq<Event>, b: seq<Event>, d: DeploymentId)
    ensures Of(a + b, d) == Of(a, d) + Of(b, d)
    decreases |b|
  {
    if b == [] {
      assert a + b == a;
    } else {
      var n := |b| - 1;
      assert (a + b)[..|a + b| - 1] == a + b[..n];
      OfConcat(a, b[..n], d);
    }
  }

  lemma {:induction false} OfTagged(ids: seq<EventId>, d: DeploymentId, e: DeploymentId)
    ensures Of(Tagged(ids, d), e) == if d == e then ids else []
    decreases |ids|
  {
    if ids != [] {
      var n := |ids| - 1;
      assert Tagged(ids, d)[..n] == Tagged(ids[..n], d);
      OfTagged(ids[..n], d, e);
      assert ids == ids[..n] + [ids[n]];
    }
  }

  /** An inserted event comes last in its transaction, with an id beyond all that is visible of any deployment. */
  lemma InsertIsLast(l: Log, t: TransactionId, d: DeploymentId)
    requires Inv(l) && t in l.open
    ensures var l' := Do(l, Insert(t));
            && t in l'.open && |l'.open[t].ids| == |l.open[t].ids| + 1 && l.open[t].ids <= l'.open[t].ids
            && Below(Of(l'.committed, d), l'.open[t].ids[|l.open[t].ids|])
  {
    assert Ascending(Of(l.committed, d), l.nextId);
  }

  /** What a transaction inserted becomes visible when it commits, all of it and in its order. */
  lemma CommitAppends(l: Log, t: TransactionId, d: DeploymentId)
    requires t in l.open
    ensures Of(Do(l, Commit(t)).committed, d)
         == Of(l.committed, d) + (if l.open[t].deployment == d then l.open[t].ids else [])
  {
    OfConcat(l.committed, Tagged(l.open[t].ids, l.open[t].deployment), d);
    OfTagged(l.open[t].ids, l.open[t].deployment, d);
  }

  /** The row locks keep every deployment to one open transaction. */
  lemma LocksExclude(l: Log, s: Step)
    requires Alone(l)
    ensures Alone(Do(l, s))
  {
    match s
    case Begin(t, d, lock) =>
      assert MayLock(l, d, lock) ==> forall u :: u in l.open ==> l.open[u].deployment != d;
    case Insert(_) =>
    case End(_) =>
    case Commit(_) =>
    case Abort(_) =>
  }

  lemma InsertSerializes(l: Log, t: TransactionId, u: TransactionId)
    requires t in l.open && u in l.open && Serialized(l, u)
    ensures Serialized(Do(l, Insert(t)), u)
  {
    var before := Of(l.committed, l.open[u].deployment) + l.open[u].ids;
    if t == u {
      assert Of(l.committed, l.open[u].deployment) + Do(l, Insert(t)).open[u].ids == before + [l.nextId];
    }
  }

  lemma StepSerializes(l: Log, s: Step, u: TransactionId)
    requires Inv(l) && u in Do(l, s).open
    ensures Serialized(Do(l, s), u)
  {
    match s
    case Begin(t, d, _) => if t == u && t !in l.open { assert Of(l.committed, d) + [] == Of(l.committed, d); }
    case Insert(t) => if t in l.open { InsertSerializes(l, t, u); }
    case End(_) => assert Serialized(l, u);
    case Commit(t) =>
      if t in l.open {
        CommitAppends(l, t, l.open[u].deployment);
        assert Of(l.committed, l.open[u].deployment) + [] == Of(l.committed, l.open[u].deployment);
        assert Serialized(l, u);
      }
    case Abort(_) => assert Serialized(l, u);
  }

  lemma StepAscends(l: Log, s: Step, d: DeploymentId)
    requires Inv(l)
    ensures Ascending(Of(Do(l, s).committed, d), Do(l, s).nextId)
  {
    assert Ascending(Of(l.committed, d), l.nextId);
    if s.Commit? && s.t in l.open {
      CommitAppends(l, s.t, d);
      assert Serialized(l, s.t);
      assert Of(l.committed, d) + [] == Of(l.committed, d);
    }
  }

  lemma StepKeeps(l: Log, s: Step)
    requires Inv(l)
    ensures Inv(Do(l, s))
  {
    LocksExclude(l, s);
    forall d: DeploymentId ensures Ascending(Of(Do(l, s).committed, d), Do(l, s).nextId) { StepAscends(l, s, d); }
    forall u | u in Do(l, s).open ensures Serialized(Do(l, s), u) { StepSerializes(l, s, u); }
  }

  /** What a reader was shown of a deployment stays the beginning of what later readers are shown. */
  lemma VisibleGrows(l: Log, s: Step, d: DeploymentId, after: EventId)
    ensures Visible(l, d, after) <= Visible(Do(l, s), d, after)
  {
    if s.Commit? && s.t in l.open {
      CommitAppends(l, s.t, d);
      BeyondConcat(Of(l.committed, d), if d == l.open[s.t].deployment then l.open[s.t].ids else [], after);
    }
  }

  // ---------------------------------------------------------------- cursors

  lemma {:induction false} BeyondConcat(a: seq<EventId>, b: seq<EventId>, after: EventId)
    ensures Beyond(a + b, after) == Beyond(a, after) + Beyond(b, after)
  {
    if a == [] {
      assert a + b == b;
    } else {
      assert (a + b)[1..] == a[1..] + b;
      BeyondConcat(a[1..], b, after);
    }
  }

  lemma {:induction false} BeyondKeepsAll(ids: seq<EventId>, after: EventId)
    requires forall i :: 0 <= i < |ids| ==> ids[i] > after
    ensures Beyond(ids, after) == ids
  {
    if ids != [] { BeyondKeepsAll(ids[1..], after); }
  }

  lemma {:induction false} BeyondIncreases(ids: seq<EventId>, after: EventId)
    requires Increasing(ids)
    ensures Increasing(Beyond(ids, after)) && forall id :: id in Beyond(ids, after) ==> id in ids && id > after
  {
    if ids != [] {
      BeyondIncreases(ids[1..], after);
      var rest := Beyond(ids[1..], after);
      forall j | 0 <= j < |rest| ensures ids[0] < rest[j] { assert rest[j] in ids[1..]; }
    }
  }

  lemma {:induction false} BeyondOwnMember(ids: seq<EventId>, k: nat)
    requires Increasing(ids) && k < |ids|
    ensures Beyond(ids, ids[k]) == ids[k + 1..]
  {
    if k == 0 {
      BeyondKeepsAll(ids[1..], ids[0]);
    } else {
      BeyondOwnMember(ids[1..], k - 1);
      assert ids[1..][k - 1] == ids[k] && ids[1..][k..] == ids[k + 1..];
    }
  }

  lemma CutWithin(ids: seq<EventId>, seen: seq<EventId>)
    requires Increasing(ids) && seen != [] && seen <= ids
    ensures ids == seen + Beyond(ids, seen[|seen| - 1])
  {
    BeyondOwnMember(ids, |seen| - 1);
  }

  lemma SkipFirst(ids: seq<EventId>, after: EventId)
    requires Increasing(ids) && ids != [] && ids[0] <= after
    ensures Increasing(ids[1..]) && Beyond(ids, after) == Beyond(ids[1..], after)
  {
  }

  lemma LastSeenIsLater(ids: seq<EventId>, after: EventId, seen: seq<EventId>)
    requires Increasing(ids) && seen != [] && seen <= Beyond(ids, after)
    ensures seen[|seen| - 1] > after
  {
    BeyondIncreases(ids, after);
    assert seen[|seen| - 1] in Beyond(ids, after);
  }

  /** A cursor on the last event seen cuts the sequence cleanly: nothing is skipped, nothing comes twice. */
  lemma {:induction false} CursorCuts(ids: seq<EventId>, after: EventId, seen: seq<EventId>)
    requires Increasing(ids) && seen != [] && seen <= Beyond(ids, after)
    ensures Beyond(ids, after) == seen + Beyond(ids, seen[|seen| - 1])
    decreases |ids|
  {
    if ids[0] <= after {
      LastSeenIsLater(ids, after, seen);
      SkipFirst(ids, after);
      SkipFirst(ids, seen[|seen| - 1]);
      CursorCuts(ids[1..], after, seen);
    } else {
      BeyondKeepsAll(ids, after);
      CutWithin(ids, seen);
    }
  }

  lemma OwnEventsIncrease(l: Log, d: DeploymentId, after: EventId)
    requires Inv(l)
    ensures Increasing(Of(l.committed, d)) && Increasing(Visible(l, d, after))
  {
    BeyondIncreases(Of(l.committed, d), after);
  }

  /** The query's order is the order of visibility, so a batch is the beginning of what is visible. */
  lemma BatchIsPrefix(l: Log, d: DeploymentId, after: EventId, limit: nat)
    requires Inv(l)
    ensures ListEventsAfter(l, d, after, limit) <= Visible(l, d, after)
    ensures limit > 0 && ListEventsAfter(l, d, after, limit) == [] ==> Visible(l, d, after) == []
  {
    OwnEventsIncrease(l, d, after);
    SortedStays(Visible(l, d, after));
  }

  lemma {:induction false} SortedStays(ids: seq<EventId>)
    requires Increasing(ids)
    ensures OrderById(ids) == ids
  {
    if ids != [] {
      SortedStays(ids[1..]);
      assert ids == [ids[0]] + ids[1..];
    }
  }

  // ---------------------------------------------------------------- the subscription

  const BATCH := 100

  datatype Received = Delivered(id: EventId) | Idle | Finished | Closed

  class Subscription {
    const deployment: DeploymentId
    const start: EventId
    var log: Log
    var cursor: EventId
    var buffer: seq<EventId>
    var closed: bool
    ghost var delivered: seq<EventId>

    constructor (deployment: DeploymentId, start: EventId, log: Log)
      requires Inv(log)
      ensures Valid() && delivered == [] && this.deployment == deployment && this.start == start && this.log == log
    {
      this.deployment, this.start, this.log := deployment, start, log;
      cursor, buffer, closed, delivered := start, [], false, [];
    }

    /** What was delivered and what is buffered is the beginning of the deployment's events after the start. */
    ghost predicate Valid()
      reads this
    {
      && Inv(log)
      && cursor == (if delivered == [] then start else delivered[|delivered| - 1])
      && delivered + buffer <= Visible(log, deployment, start)
    }

    /** What the subscriber may see now: the deployment's events after the start. */
    ghost function Seeable(): seq<EventId>
      reads this
    {
      Visible(log, deployment, start)
    }

    /** Anyone inserts, commits and aborts events. */
    method Others()
      requires Valid()
      modifies this`log
      ensures Valid() && old(Seeable()) <= Seeable()
    {
      var steps: int := *;
      while steps > 0
        invariant Valid() && old(Seeable()) <= Seeable()
      {
        var step: Step := *;
        StepKeeps(log, step);
        VisibleGrows(log, step, deployment, start);
        log := Do(log, step);
        steps := steps - 1;
      }
    }

    /** Reads the next batch. */
    method Fetch()
      requires Valid() && buffer == []
      modifies this`buffer
      ensures Valid()
      ensures buffer == [] ==> delivered == Visible(log, deployment, start)
    {
      BatchIsPrefix(log, deployment, cursor, BATCH);
      OwnEventsIncrease(log, deployment, start);
      assert delivered + buffer == delivered;
      if delivered != [] { CursorCuts(Of(log.committed, deployment), start, delivered); }
      assert Visible(log, deployment, start) == delivered + Visible(log, deployment, cursor);
      buffer := ListEventsAfter(log, deployment, cursor, BATCH);
    }

    method NextEvent() returns (event: Option<EventId>)
      requires Valid()
      modifies this`log, this`cursor, this`buffer, this`delivered
      ensures Valid()
      ensures match event
              case Some(id) => delivered == old(delivered) + [id]
              case None => delivered == old(delivered) == Seeable()
      ensures old(Seeable()) <= Seeable()
    {
      Others();
      if buffer == [] { Fetch(); }
      if buffer == [] { return None; }
      var id := buffer[0];
      assert delivered + buffer == delivered + [id] + buffer[1..];
      buffer := buffer[1..];
      cursor := id;
      delivered := delivered + [id];
      event := Some(id);
    }

    /**
     Delivers the next event, in increasing id order, without gaps or repeats, whatever is
     inserted meanwhile. When it delivers nothing, everything that was visible when it was
     called has been delivered, and exactly what was visible at some moment since; Finished
     says that the deployment was over at a later moment, and so not that its last event was
     among them.
     */
    method Receive() returns (r: Received, ghost saw: seq<EventId>)
      requires Valid()
      modifies this`log, this`cursor, this`buffer, this`delivered
      ensures Valid() && Increasing(delivered)
      ensures delivered == old(delivered) + (if r.Delivered? then [r.id] else [])
      ensures r == Closed <==> closed
      ensures old(Seeable()) <= saw <= Seeable()
      ensures r == Idle || r == Finished ==> delivered == saw && old(Seeable()) <= delivered
    {
      DeliveredIncreases();
      saw := Seeable();
      if closed { return Closed, saw; }
      var event := NextEvent();
      saw := Seeable();
      DeliveredIncreases();
      if event.Some? { return Delivered(event.value), saw; }
      Others();
      var terminal: bool := *;
      if terminal { return Finished, saw; }
      event := NextEvent();
      saw := Seeable();
      DeliveredIncreases();
      if event.Some? { return Delivered(event.value), saw; }
      Others();
      terminal := *;
      r := if terminal then Finished else Idle;
    }

    lemma DeliveredIncreases()
      requires Valid()
      ensures Increasing(delivered)
    {
      OwnEventsIncrease(log, deployment, start);
      assert delivered <= Visible(log, deployment, start);
    }

    method Close()
      modifies this`closed
      ensures closed
    {
      closed := true;
    }
  }
}
