/**
 What a teardown may do to the objects that are there: the record it must leave of its looks,
 guards and removals, what has to be in order for it to succeed, which names go with which
 removal, and how often it can fail before nothing is left to remove.
 */
module TeardownOutcome {
  import opened Wrappers
  import opened Ids
  import opened Teardown
  import opened UuidText

  datatype Event = Observed(resource: Resource, id: string) | Guarded | Removed(resource: Resource, id: string)

  // ---------------------------------------------------------------- what the labels say

  /** Names of one kind that share an id are names of one object, so they share its labels. */
  predicate SameIdSameLabels(m: map<Key, Object>) {
    forall a, b :: a in m && b in m && a.docker == b.docker && m[a].id == m[b].id ==> m[a].labels == m[b].labels
  }

  /** The names a removal by id takes away. */
  predicate Shares(m: map<Key, Object>, k: Key, docker: DockerKind, id: string) {
    k in m && k.docker == docker && m[k].id == id
  }

  /** r was seen under its exact name and labels. */
  predicate Seen(start: map<Key, Object>, p: ProjectId, r: Resource, id: string) {
    KeyOf(r) in start && start[KeyOf(r)].id == id && Exact(start[KeyOf(r)], p, r)
  }

  // ---------------------------------------------------------------- what the record of a run must show

  predicate SeenBefore(log: seq<Event>, n: int, e: Event) {
    exists i :: 0 <= i < n && i < |log| && log[i] == e
  }

  predicate GuardedAt(log: seq<Event>, i: nat)
    requires i < |log| && log[i].Removed?
  {
    && i >= 2 && log[i - 2] == Guarded && log[i - 1] == Observed(log[i].resource, log[i].id)
    && SeenBefore(log, i - 2, log[i - 1])
  }

  /** Every removal directly follows a passed guard and a second look, which found the id of the first. */
  predicate WellGuarded(log: seq<Event>) {
    forall i :: 0 <= i < |log| && log[i].Removed? ==> GuardedAt(log, i)
  }

  /** Gateways, then services, then networks, then images. */
  predicate Ordered(log: seq<Event>) {
    forall i, j :: 0 <= i < j < |log| && log[i].Removed? && log[j].Removed? ==>
      Rank(log[i].resource.kind) <= Rank(log[j].resource.kind)
  }

  predicate RankedBelow(log: seq<Event>, rank: nat) {
    forall i :: 0 <= i < |log| && log[i].Removed? ==> Rank(log[i].resource.kind) <= rank
  }

  predicate Orderly(log: seq<Event>) {
    WellGuarded(log) && Ordered(log)
  }

  lemma LogRemoval(log: seq<Event>, r: Resource, id: string)
    requires Orderly(log) && RankedBelow(log, Rank(r.kind)) && SeenBefore(log, |log|, Observed(r, id))
    ensures var log' := log + [Guarded] + [Observed(r, id)] + [Removed(r, id)];
            Orderly(log') && RankedBelow(log', Rank(r.kind))
  {
    var log' := log + [Guarded] + [Observed(r, id)] + [Removed(r, id)];
    forall i | 0 <= i < |log'| && log'[i].Removed? ensures GuardedAt(log', i) {
      if i < |log| {
        assert GuardedAt(log, i);
        var j :| 0 <= j < i - 2 && log[j] == log[i - 1];
        assert log'[j] == log'[i - 1];
      } else {
        var j :| 0 <= j < |log| && log[j] == Observed(r, id);
        assert log'[j] == log'[i - 1];
      }
    }
  }

  /** Looks and guards alone keep a record orderly. */
  lemma LogOther(log: seq<Event>, e: Event)
    requires Orderly(log) && !e.Removed?
    ensures Orderly(log + [e])
    ensures forall rank: nat :: RankedBelow(log, rank) ==> RankedBelow(log + [e], rank)
    ensures forall x :: SeenBefore(log, |log|, x) || x == e ==> SeenBefore(log + [e], |log + [e]|, x)
  {
    var log' := log + [e];
    forall x | SeenBefore(log, |log|, x) || x == e ensures SeenBefore(log', |log'|, x) {
      if x == e {
        assert log'[|log|] == x;
      } else {
        var j :| 0 <= j < |log| && log[j] == x;
        assert log'[j] == x;
      }
    }
    forall i | 0 <= i < |log'| && log'[i].Removed? ensures GuardedAt(log', i) {
      assert GuardedAt(log, i);
      var j :| 0 <= j < i - 2 && log[j] == log[i - 1];
      assert log'[j] == log'[i - 1];
    }
  }

  // ---------------------------------------------------------------- what the world looks like

  predicate Shrunk(m: map<Key, Object>, m': map<Key, Object>) {
    forall k :: k in m' ==> k in m && m'[k] == m[k]
  }

  /** Something is gone. */
  predicate Lost(m: map<Key, Object>, m': map<Key, Object>) {
    exists k :: k in m && k !in m'
  }

  predicate Labelled(m: map<Key, Object>, k: Key, p: ProjectId) {
    k in m && m[k].labels.project == Some(p)
  }

  predicate IsExpected(rs: seq<Resource>, k: Key) {
    exists r :: r in rs && KeyOf(r) == k
  }

  /** Objects of this kind that carry the project's label are expected, or there must be none. */
  ghost predicate NoStray(m: map<Key, Object>, p: ProjectId, rs: seq<Resource>, requireEmpty: bool, docker: DockerKind) {
    forall k :: Labelled(m, k, p) && k.docker == docker ==> !requireEmpty && IsExpected(rs, k)
  }

  ghost predicate Stray(m: map<Key, Object>, p: ProjectId, rs: seq<Resource>, requireEmpty: bool) {
    exists k :: Labelled(m, k, p) && (requireEmpty || !IsExpected(rs, k))
  }

  /** A wrongly labelled object stands under an expected name. */
  predicate Mislabelled(m: map<Key, Object>, p: ProjectId, rs: seq<Resource>) {
    exists r :: r in rs && KeyOf(r) in m && !Exact(m[KeyOf(r)], p, r)
  }

  /** Two expected names lead to one object, which a removal by id takes away under both. */
  predicate SharedId(m: map<Key, Object>, rs: seq<Resource>) {
    exists a, b :: a in rs && b in rs && Twins(m, a, b)
  }

  predicate Twins(m: map<Key, Object>, a: Resource, b: Resource) {
    && KeyOf(a) != KeyOf(b) && KeyOf(a) in m && KeyOf(b) in m
    && a.docker == b.docker && m[KeyOf(a)].id == m[KeyOf(b)].id
  }

  /** Records, names and labels are in order, so removing begins. */
  ghost predicate Ready(m: map<Key, Object>, p: ProjectId, deployments: seq<Deployment>, runtime: Option<Runtime>) {
    && Consistent(p, deployments, runtime)
    && !Mislabelled(m, p, Expected(p, deployments, runtime))
    && !Stray(m, p, Expected(p, deployments, runtime), false)
  }

  /** What a teardown that nothing interferes with needs to succeed. */
  ghost predicate Removable(m: map<Key, Object>, p: ProjectId, deployments: seq<Deployment>, runtime: Option<Runtime>) {
    && Ready(m, p, deployments, runtime)
    && !SharedId(m, Expected(p, deployments, runtime))
  }

  predicate AllAbsent(m: map<Key, Object>, rs: seq<Resource>) {
    forall i :: 0 <= i < |rs| ==> KeyOf(rs[i]) !in m
  }

  predicate NothingLabelled(m: map<Key, Object>, p: ProjectId) {
    forall k :: k in m ==> m[k].labels.project != Some(p)
  }

  lemma NoStrayAtAll(m: map<Key, Object>, p: ProjectId, rs: seq<Resource>, requireEmpty: bool)
    requires forall docker :: NoStray(m, p, rs, requireEmpty, docker)
    ensures !Stray(m, p, rs, requireEmpty)
  {
    forall k | Labelled(m, k, p) ensures !requireEmpty && IsExpected(rs, k) {
      assert NoStray(m, p, rs, requireEmpty, k.docker);
    }
  }

  lemma NoStrayMeansNothingLabelled(m: map<Key, Object>, p: ProjectId, rs: seq<Resource>)
    requires forall docker :: NoStray(m, p, rs, true, docker)
    ensures NothingLabelled(m, p)
  {
    forall k | k in m ensures m[k].labels.project != Some(p) {
      assert NoStray(m, p, rs, true, k.docker);
      assert !(Labelled(m, k, p) && k.docker == k.docker);
    }
  }

  /** A kind of which nothing stray is listed, or from which something stray can be picked. */
  lemma ListedIsNoStray(m: map<Key, Object>, p: ProjectId, rs: seq<Resource>, requireEmpty: bool, docker: DockerKind,
                        observed: set<Key>, expected: set<Key>)
    requires forall k :: k in observed <==> Labelled(m, k, p) && k.docker == docker
    requires forall k :: k in expected <==> IsExpected(rs, k)
    ensures (requireEmpty && observed != {}) || !(observed <= expected) ==> Stray(m, p, rs, requireEmpty)
    ensures !((requireEmpty && observed != {}) || !(observed <= expected)) ==> NoStray(m, p, rs, requireEmpty, docker)
  {
    if (requireEmpty && observed != {}) || !(observed <= expected) {
      var k :| k in observed && (requireEmpty || k !in expected);
      assert Labelled(m, k, p);
    }
  }

  lemma KeysAreExpected(rs: seq<Resource>, expected: set<Key>)
    requires expected == set i | 0 <= i < |rs| :: KeyOf(rs[i])
    ensures forall k :: k in expected <==> IsExpected(rs, k)
  {
    forall k | IsExpected(rs, k) ensures k in expected {
      var r :| r in rs && KeyOf(r) == k;
      var i :| 0 <= i < |rs| && rs[i] == r;
    }
  }

  // ---------------------------------------------------------------- removals by id, one after the other

  /** With every expected name gone, and none but expected ones labelled before, no label is left. */
  lemma RemovedIsClean(m: map<Key, Object>, now: map<Key, Object>, p: ProjectId, rs: seq<Resource>, queue: seq<Resource>)
    requires Shrunk(m, now) && AllAbsent(now, queue) && !Stray(m, p, rs, false)
    requires forall r :: r in queue <==> r in rs
    ensures AllAbsent(now, rs) && NothingLabelled(now, p)
  {
    forall i | 0 <= i < |rs| ensures KeyOf(rs[i]) !in now {
      assert rs[i] in queue;
    }
    forall k | k in now ensures now[k].labels.project != Some(p) {
      assert Labelled(m, k, p) ==> IsExpected(rs, k);
    }
  }

  lemma KeepWaiting(queue: seq<Resource>, i: nat)
    requires i < |queue|
    ensures forall j :: 0 <= j < |queue[..i + 1]| ==> queue[..i + 1][j] == queue[j]
    ensures queue[..i + 1] == queue[..i] + [queue[i]]
  {
  }

  /** The two names lead to the same object. */
  predicate Same(m: map<Key, Object>, k: Key, r: Resource) {
    k in m && KeyOf(r) in m && k.docker == r.docker && m[k].id == m[KeyOf(r)].id
  }

  /** One of the first i resources leads to the same object as k. */
  predicate SameAsOneOf(m: map<Key, Object>, k: Key, queue: seq<Resource>, i: nat)
    requires i <= |queue|
  {
    i > 0 && (Same(m, k, queue[i - 1]) || SameAsOneOf(m, k, queue, i - 1))
  }

  predicate TwinOfOneOf(m: map<Key, Object>, r: Resource, queue: seq<Resource>, i: nat)
    requires i <= |queue|
  {
    i > 0 && (Twins(m, queue[i - 1], r) || TwinOfOneOf(m, r, queue, i - 1))
  }

  predicate NoTwins(m: map<Key, Object>, queue: seq<Resource>, i: nat)
    requires i <= |queue|
  {
    i > 0 ==> NoTwins(m, queue, i - 1) && !TwinOfOneOf(m, queue[i - 1], queue, i - 1)
  }

  lemma {:induction false} TwinIsSame(m: map<Key, Object>, queue: seq<Resource>, n: nat, i: nat)
    requires i <= n < |queue| && DistinctKeys(queue) && KeyOf(queue[n]) in m
    ensures TwinOfOneOf(m, queue[n], queue, i) <==> SameAsOneOf(m, KeyOf(queue[n]), queue, i)
  {
    if i > 0 { TwinIsSame(m, queue, n, i - 1); }
  }

  lemma {:induction false} TwinAt(m: map<Key, Object>, r: Resource, queue: seq<Resource>, i: nat) returns (j: nat)
    requires i <= |queue| && TwinOfOneOf(m, r, queue, i)
    ensures j < i && Twins(m, queue[j], r)
  {
    if Twins(m, queue[i - 1], r) { j := i - 1; } else { j := TwinAt(m, r, queue, i - 1); }
  }

  lemma {:induction false} TwinCounts(m: map<Key, Object>, r: Resource, queue: seq<Resource>, i: nat, j: nat)
    requires j < i <= |queue| && Twins(m, queue[j], r)
    ensures TwinOfOneOf(m, r, queue, i)
  {
    if j < i - 1 { TwinCounts(m, r, queue, i - 1, j); }
  }

  lemma {:induction false} NoTwinsMeansApart(m: map<Key, Object>, queue: seq<Resource>, i: nat, j: nat, n: nat)
    requires j < n < i <= |queue| && NoTwins(m, queue, i)
    ensures !Twins(m, queue[j], queue[n]) && !Twins(m, queue[n], queue[j])
  {
    if n < i - 1 {
      NoTwinsMeansApart(m, queue, i - 1, j, n);
    } else if Twins(m, queue[j], queue[n]) {
      TwinCounts(m, queue[n], queue, n, j);
    }
  }

  /** After i removals exactly the objects of the first i resources are gone, each for one of them. */
  predicate Tracks(m: map<Key, Object>, now: map<Key, Object>, queue: seq<Resource>, i: nat)
    requires i <= |queue|
  {
    && Shrunk(m, now)
    && (forall k :: k in m ==> (k in now <==> !SameAsOneOf(m, k, queue, i)))
    && NoTwins(m, queue, i)
  }

  lemma {:induction false} NobodyLeadsNowhere(m: map<Key, Object>, r: Resource, queue: seq<Resource>, i: nat)
    requires i <= |queue| && KeyOf(r) !in m
    ensures !TwinOfOneOf(m, r, queue, i)
  {
    if i > 0 { NobodyLeadsNowhere(m, r, queue, i - 1); }
  }

  lemma SkipTracks(m: map<Key, Object>, now: map<Key, Object>, queue: seq<Resource>, i: nat)
    requires i < |queue| && Tracks(m, now, queue, i) && KeyOf(queue[i]) !in m
    ensures Tracks(m, now, queue, i + 1)
  {
    NobodyLeadsNowhere(m, queue[i], queue, i);
  }

  lemma RemovalTracks(m: map<Key, Object>, now: map<Key, Object>, now': map<Key, Object>, queue: seq<Resource>, i: nat)
    requires i < |queue| && DistinctKeys(queue) && Tracks(m, now, queue, i) && KeyOf(queue[i]) in now && Shrunk(now, now')
    requires forall k :: k in now ==> (k in now' <==> !Same(m, k, queue[i]))
    ensures Tracks(m, now', queue, i + 1)
  {
    TwinIsSame(m, queue, i, i);
  }

  lemma GoneTooSoon(m: map<Key, Object>, now: map<Key, Object>, queue: seq<Resource>, i: nat)
    requires i < |queue| && DistinctKeys(queue) && Tracks(m, now, queue, i) && KeyOf(queue[i]) in m && KeyOf(queue[i]) !in now
    ensures SharedId(m, queue)
  {
    TwinIsSame(m, queue, i, i);
    var j := TwinAt(m, queue[i], queue, i);
    assert queue[j] in queue && queue[i] in queue;
  }

  lemma TracksApart(m: map<Key, Object>, now: map<Key, Object>, queue: seq<Resource>)
    requires Tracks(m, now, queue, |queue|)
    ensures !SharedId(m, queue)
  {
    if SharedId(m, queue) {
      var a, b :| a in queue && b in queue && Twins(m, a, b);
      var j :| 0 <= j < |queue| && queue[j] == a;
      var n :| 0 <= n < |queue| && queue[n] == b;
      if j < n { NoTwinsMeansApart(m, queue, |queue|, j, n); } else { NoTwinsMeansApart(m, queue, |queue|, n, j); }
    }
  }

  lemma RemovalSeen(log: seq<Event>, r: Resource, id: string)
    ensures var log' := log + [Guarded] + [Observed(r, id)] + [Removed(r, id)];
            forall x :: SeenBefore(log, |log|, x) ==> SeenBefore(log', |log'|, x)
  {
    var log' := log + [Guarded] + [Observed(r, id)] + [Removed(r, id)];
    forall x | SeenBefore(log, |log|, x) ensures SeenBefore(log', |log'|, x) {
      var j :| 0 <= j < |log| && log[j] == x;
      assert log'[j] == x;
    }
  }

  /** An untroubled try that failed took nothing but objects away, and at least one if removing began. */
  ghost predicate Failed(m: map<Key, Object>, m': map<Key, Object>, p: ProjectId, deployments: seq<Deployment>, runtime: Option<Runtime>) {
    && Shrunk(m, m') && !Removable(m, p, deployments, runtime)
    && (Ready(m, p, deployments, runtime) ==> Lost(m, m'))
  }

  lemma LossCounts(m: map<Key, Object>, m': map<Key, Object>)
    requires Shrunk(m, m') && Lost(m, m')
    ensures |m'| < |m|
  {
    var k :| k in m && k !in m';
    assert m'.Keys <= m.Keys - {k};
    Subset(m'.Keys, m.Keys - {k});
    assert |m'| == |m'.Keys| && |m| == |m.Keys|;
  }

  lemma Subset(a: set<Key>, b: set<Key>)
    requires a <= b
    ensures |a| <= |b|
  {
    assert b == a + (b - a);
  }

  /** What is in order stays so when objects only go. */
  lemma StaysReady(m: map<Key, Object>, m': map<Key, Object>, p: ProjectId, deployments: seq<Deployment>, runtime: Option<Runtime>)
    requires Ready(m, p, deployments, runtime) && Shrunk(m, m')
    ensures Ready(m', p, deployments, runtime)
  {
    var rs := Expected(p, deployments, runtime);
    forall k | Labelled(m', k, p) ensures IsExpected(rs, k) { assert Labelled(m, k, p); }
    forall r | r in rs && KeyOf(r) in m' ensures Exact(m'[KeyOf(r)], p, r) { assert KeyOf(r) in m; }
  }

  /**
   Asked again, a teardown that stopped halfway goes on: with records, names and labels in
   order, no more untroubled tries can fail than there were objects.
   */
  lemma {:induction false} TriesAreBounded(worlds: seq<map<Key, Object>>, p: ProjectId, deployments: seq<Deployment>, runtime: Option<Runtime>)
    requires worlds != [] && Ready(worlds[0], p, deployments, runtime)
    requires forall i :: 0 <= i < |worlds| - 1 ==> Failed(worlds[i], worlds[i + 1], p, deployments, runtime)
    ensures |worlds| - 1 <= |worlds[0]|
  {
    if |worlds| > 1 {
      assert Failed(worlds[0], worlds[1], p, deployments, runtime);
      LossCounts(worlds[0], worlds[1]);
      StaysReady(worlds[0], worlds[1], p, deployments, runtime);
      var later := worlds[1..];
      forall i | 0 <= i < |later| - 1 ensures Failed(later[i], later[i + 1], p, deployments, runtime) {
        assert Failed(worlds[i + 1], worlds[i + 2], p, deployments, runtime);
      }
      TriesAreBounded(later, p, deployments, runtime);
    }
  }

  /** Two services whose builds gave the same image make a teardown that removes by id stop halfway. */
  lemma EqualImagesBlockTeardown(m: map<Key, Object>, p: ProjectId, deployments: seq<Deployment>, runtime: Option<Runtime>,
                                 i: nat, j: nat, k: nat)
    requires i < |deployments| && deployments[i].services.Some?
    requires j < |deployments[i].services.value| && k < |deployments[i].services.value|
    requires var services, d := deployments[i].services.value, deployments[i].id;
             var a, b := Key(Image, ImageName(p, services[j], d)), Key(Image, ImageName(p, services[k], d));
             services[j] != services[k] && a in m && b in m && m[a].id == m[b].id
    ensures !Removable(m, p, deployments, runtime)
  {
    var services, d := deployments[i].services.value, deployments[i].id;
    var a := Resource(Image, ImageLabel, ImageName(p, services[j], d), Some(d));
    var b := Resource(Image, ImageLabel, ImageName(p, services[k], d), Some(d));
    assert OfDeployment(a, p, deployments[i]) && OfDeployment(b, p, deployments[i]);
    ExpectedCoversProject(p, deployments, runtime, a);
    ExpectedCoversProject(p, deployments, runtime, b);
    var tag := "g" + Hex(d)[..12] + "-";
    assert (tag + services[j])[|tag|..] == services[j] && (tag + services[k])[|tag|..] == services[k];
    assert ImageName(p, services[j], d)[|Repository(p)|..] == tag + services[j];
    assert ImageName(p, services[k], d)[|Repository(p)|..] == tag + services[k];
    assert Twins(m, a, b);
  }
}
