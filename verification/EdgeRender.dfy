/** Rendering of public-routes.conf: one section per route, in the order of the hostnames. */
module EdgeRender {
  import opened ConfigLines
  import opened Ids
  import opened UuidText
  import opened Wrappers
  import EdgeHostname
  import Utf8

  const MAX_ROUTES := 1000
  const MAX_CONFIG_BYTES := 1_048_576

  /** Which gateway a project's hostname leads to. */
  datatype Target = Target(project: ProjectId, hostname: string, alias: string)

  datatype RenderError = LimitExceeded | SnapshotInvalid | TooLarge

  predicate AliasCharacter(c: char) {
    'a' <= c <= 'z' || 'A' <= c <= 'Z' || '0' <= c <= '9' || c in "_.-"
  }

  predicate ValidAlias(a: string) {
    && 1 <= |a| <= 128
    && ('a' <= a[0] <= 'z' || 'A' <= a[0] <= 'Z' || '0' <= a[0] <= '9')
    && forall i :: 0 <= i < |a| ==> AliasCharacter(a[i])
  }

  // ---------------------------------------------------------------- ordering

  /** The order of strings by their characters. */
  predicate Less(a: string, b: string) {
    b != "" && (a == "" || a[0] < b[0] || (a[0] == b[0] && Less(a[1..], b[1..])))
  }

  lemma {:induction false} LessIsTotal(a: string, b: string)
    ensures a == b || Less(a, b) || Less(b, a)
    ensures !(Less(a, b) && Less(b, a)) && !Less(a, a)
    decreases |a|
  {
    if a != "" && b != "" {
      LessIsTotal(a[1..], b[1..]);
      LessIsTotal(a[1..], a[1..]);
      assert a == [a[0]] + a[1..] && b == [b[0]] + b[1..];
    } else if a != "" {
      LessIsTotal(a[1..], a[1..]);
    }
  }

  lemma {:induction false} LessIsTransitive(a: string, b: string, c: string)
    requires Less(a, b) && Less(b, c)
    ensures Less(a, c)
    decreases |a|
  {
    if a != "" && a[0] == b[0] == c[0] { LessIsTransitive(a[1..], b[1..], c[1..]); }
  }

  function Insert(t: Target, ts: seq<Target>): (r: seq<Target>)
    ensures multiset(r) == multiset{t} + multiset(ts)
    ensures forall x :: x in r <==> x == t || x in ts
  {
    if ts == [] || !Less(ts[0].hostname, t.hostname) then [t] + ts
    else
      assert ts == [ts[0]] + ts[1..];
      [ts[0]] + Insert(t, ts[1..])
  }

  function ByHostname(ts: seq<Target>): (r: seq<Target>)
    ensures multiset(r) == multiset(ts) && |r| == |ts|
    ensures forall x :: x in r <==> x in ts
  {
    if ts == [] then []
    else
      var r := Insert(ts[0], ByHostname(ts[1..]));
      assert ts == [ts[0]] + ts[1..];
      assert |multiset(r)| == |multiset(ts)|;
      r
  }

  predicate DistinctHostnames(ts: seq<Target>) {
    forall i, j :: 0 <= i < j < |ts| ==> ts[i].hostname != ts[j].hostname
  }

  predicate Ascending(ts: seq<Target>) {
    forall i, j :: 0 <= i < j < |ts| ==> Less(ts[i].hostname, ts[j].hostname)
  }

  lemma {:induction false} InsertAscends(t: Target, ts: seq<Target>)
    requires Ascending(ts) && forall x :: x in ts ==> x.hostname != t.hostname
    ensures Ascending(Insert(t, ts))
  {
    if ts != [] {
      LessIsTotal(ts[0].hostname, t.hostname);
      if Less(ts[0].hostname, t.hostname) {
        InsertAscends(t, ts[1..]);
        var rest := Insert(t, ts[1..]);
        forall k | 0 <= k < |rest| ensures Less(ts[0].hostname, rest[k].hostname) {
          assert rest[k] == t || rest[k] in ts[1..];
        }
      } else {
        forall k | 0 <= k < |ts| ensures Less(t.hostname, ts[k].hostname) {
          if k > 0 { LessIsTransitive(t.hostname, ts[0].hostname, ts[k].hostname); }
        }
      }
    }
  }

  lemma {:induction false} SortingAscends(ts: seq<Target>)
    requires DistinctHostnames(ts)
    ensures Ascending(ByHostname(ts))
  {
    if ts != [] {
      SortingAscends(ts[1..]);
      InsertAscends(ts[0], ByHostname(ts[1..]));
    }
  }

  /** Two ascending listings of the same targets are the same listing. */
  lemma {:induction false} AscendingIsUnique(a: seq<Target>, b: seq<Target>)
    requires Ascending(a) && Ascending(b) && multiset(a) == multiset(b)
    ensures a == b
    decreases |a|
  {
    assert |multiset(a)| == |multiset(b)|;
    if a != [] {
      FirstIsShared(a, b);
      assert a == [a[0]] + a[1..] && b == [b[0]] + b[1..];
      assert multiset(a[1..]) == multiset(a) - multiset{a[0]};
      assert multiset(b[1..]) == multiset(b) - multiset{b[0]};
      AscendingIsUnique(a[1..], b[1..]);
    }
  }

  lemma FirstIsShared(a: seq<Target>, b: seq<Target>)
    requires Ascending(a) && Ascending(b) && multiset(a) == multiset(b) && a != [] && b != []
    ensures a[0] == b[0]
  {
    assert a[0] in multiset(b) && b[0] in multiset(a);
    var i :| 0 <= i < |b| && b[i] == a[0];
    var j :| 0 <= j < |a| && a[j] == b[0];
    LessIsTotal(a[0].hostname, b[0].hostname);
  }

  // ---------------------------------------------------------------- text

  const HEADER := "# Generated by Heimdall " + "Routing Worker. Do not edit.\n"

  /** The first twelve digits of the project's id. */
  function Digits(t: Target): (digits: string)
    ensures |digits| == 12
  {
    Hex(t.project)[..12]
  }

  function Upstream(t: Target): string {
    "hm_edge_p" + Digits(t)
  }

  const DOCKER_DNS := "127.0.0.11"

  function UpstreamLines(t: Target): seq<string> {
    ["upstream " + Upstream(t) + " {",
     "    zone " + Upstream(t) + " 64k;",
     "    resolver " + DOCKER_DNS + " valid=10s ipv6=off;",
     "    server " + t.alias + ":8080 resolve;",
     "}",
     ""]
  }

  function ServerLines(t: Target): seq<string> {
    ["server {",
     "    listen 80;",
     "    server_name " + t.hostname + ";",
     "",
     "    location / {",
     "        proxy_pass http://" + Upstream(t) + ";",
     "        proxy_http_version 1.1;",
     HeaderLine("Connection", "\"\""),
     HeaderLine("Host", "$host"),
     HeaderLine("X-Forwarded-For", "$remote_addr"),
     HeaderLine("X-Forwarded-Host", "$host"),
     HeaderLine("X-Forwarded-Proto", "$scheme"),
     "    }",
     "}",
     ""]
  }

  function Section(t: Target): string {
    Join(UpstreamLines(t) + ServerLines(t))
  }

  function Sections(ts: seq<Target>): seq<string> {
    seq(|ts|, i requires 0 <= i < |ts| => Section(ts[i]))
  }

  function Text(ts: seq<Target>): string {
    Join([HEADER] + Sections(ts))
  }

  // ---------------------------------------------------------------- rendering

  predicate Acceptable(ts: seq<Target>) {
    && (forall i :: 0 <= i < |ts| ==> EdgeHostname.Valid(ts[i].hostname) && ValidAlias(ts[i].alias))
    && DistinctHostnames(ts)
  }

  function Rendered(ts: seq<Target>): Result<string, RenderError> {
    if |ts| > MAX_ROUTES then Failure(LimitExceeded)
    else if !Acceptable(ts) then Failure(SnapshotInvalid)
    else if |Utf8.EncodeAll(Text(ByHostname(ts)))| > MAX_CONFIG_BYTES then Failure(TooLarge)
    else Success(Text(ByHostname(ts)))
  }

  predicate Checked(ts: seq<Target>, i: nat)
    requires i <= |ts|
  {
    && (forall j :: 0 <= j < i ==> EdgeHostname.Valid(ts[j].hostname) && ValidAlias(ts[j].alias))
    && (forall j, k :: 0 <= j < k < i ==> ts[j].hostname != ts[k].hostname)
  }

  predicate Passes(t: Target) {
    EdgeHostname.Valid(t.hostname) && ValidAlias(t.alias)
  }

  function HostnamesOf(ts: seq<Target>, i: nat): set<string>
    requires i <= |ts|
  {
    set j | 0 <= j < i :: ts[j].hostname
  }

  lemma CheckStep(ts: seq<Target>, i: nat)
    requires i < |ts| && Checked(ts, i)
    ensures Checked(ts, i + 1) <==> Passes(ts[i]) && ts[i].hostname !in HostnamesOf(ts, i)
    ensures HostnamesOf(ts, i + 1) == HostnamesOf(ts, i) + {ts[i].hostname}
    ensures !Checked(ts, i + 1) ==> !Acceptable(ts)
  {
  }

  /** One section after the other, checking each target on the way. */
  method RenderSections(sorted: seq<Target>) returns (r: Option<seq<string>>)
    ensures r == if Acceptable(sorted) then Some(Sections(sorted)) else None
  {
    var hostnames: set<string> := {};
    var sections: seq<string> := [];
    for i := 0 to |sorted|
      invariant hostnames == HostnamesOf(sorted, i) && Checked(sorted, i)
      invariant sections == Sections(sorted[..i])
    {
      var route := sorted[i];
      CheckStep(sorted, i);
      if !Passes(route) || route.hostname in hostnames { return None; }
      hostnames := hostnames + {route.hostname};
      SectionsStep(sorted, i);
      sections := sections + [Section(route)];
    }
    assert sorted[..|sorted|] == sorted;
    r := Some(sections);
  }

  lemma SectionsStep(ts: seq<Target>, i: nat)
    requires i < |ts|
    ensures Sections(ts[..i + 1]) == Sections(ts[..i]) + [Section(ts[i])]
  {
  }

  /** Refuses too many routes, invalid or repeated names and too long a file, and nothing else. */
  method RenderEdgeRoutes(routes: seq<Target>) returns (r: Result<string, RenderError>)
    ensures r == Rendered(routes)
  {
    if |routes| > MAX_ROUTES { return Failure(LimitExceeded); }
    SortingAcceptable(routes);
    var sections := RenderSections(ByHostname(routes));
    if sections == None { return Failure(SnapshotInvalid); }
    var text := Join([HEADER] + sections.value);
    if |Utf8.EncodeAll(text)| > MAX_CONFIG_BYTES { return Failure(TooLarge); }
    r := Success(text);
  }

  lemma {:induction false} InsertKeepsDistinct(t: Target, ts: seq<Target>)
    ensures DistinctHostnames(Insert(t, ts)) <==> DistinctHostnames(ts) && forall x :: x in ts ==> x.hostname != t.hostname
    decreases |ts|
  {
    if ts != [] && Less(ts[0].hostname, t.hostname) {
      InsertKeepsDistinct(t, ts[1..]);
      HeadDistinct(ts[0], ts[1..]);
      HeadDistinct(ts[0], Insert(t, ts[1..]));
      assert ts == [ts[0]] + ts[1..];
      assert Insert(t, ts) == [ts[0]] + Insert(t, ts[1..]);
      assert ts[0].hostname != t.hostname by { LessIsTotal(ts[0].hostname, t.hostname); }
    } else {
      HeadDistinct(t, ts);
    }
  }

  lemma HeadDistinct(t: Target, ts: seq<Target>)
    ensures DistinctHostnames([t] + ts) <==> DistinctHostnames(ts) && forall x :: x in ts ==> x.hostname != t.hostname
  {
    var all := [t] + ts;
    if DistinctHostnames(all) {
      forall i, j | 0 <= i < j < |ts| ensures ts[i].hostname != ts[j].hostname { assert all[i + 1].hostname != all[j + 1].hostname; }
      forall x | x in ts ensures x.hostname != t.hostname {
        var i :| 0 <= i < |ts| && ts[i] == x;
        assert all[0].hostname != all[i + 1].hostname;
      }
    }
  }

  lemma {:induction false} SortingDistinct(ts: seq<Target>)
    ensures DistinctHostnames(ByHostname(ts)) <==> DistinctHostnames(ts)
  {
    if ts != [] {
      SortingDistinct(ts[1..]);
      InsertKeepsDistinct(ts[0], ByHostname(ts[1..]));
      HeadDistinct(ts[0], ts[1..]);
      assert ts == [ts[0]] + ts[1..];
    }
  }

  lemma SortingAcceptable(ts: seq<Target>)
    ensures Acceptable(ByHostname(ts)) <==> Acceptable(ts)
  {
    SortingDistinct(ts);
    var sorted := ByHostname(ts);
    if Acceptable(sorted) {
      forall i | 0 <= i < |ts| ensures EdgeHostname.Valid(ts[i].hostname) && ValidAlias(ts[i].alias) { assert ts[i] in sorted; }
    }
    if Acceptable(ts) {
      forall i | 0 <= i < |sorted| ensures EdgeHostname.Valid(sorted[i].hostname) && ValidAlias(sorted[i].alias) {
        assert sorted[i] in ts;
      }
    }
  }

  lemma SameMultisetSorts(a: seq<Target>, b: seq<Target>)
    requires multiset(a) == multiset(b) && DistinctHostnames(a) && DistinctHostnames(b)
    ensures ByHostname(a) == ByHostname(b)
  {
    SortingAscends(a);
    SortingAscends(b);
    AscendingIsUnique(ByHostname(a), ByHostname(b));
  }

  lemma {:induction false} TwoPlaces(ts: seq<Target>, x: Target) returns (i: nat, j: nat)
    requires multiset(ts)[x] >= 2
    ensures i < j < |ts| && ts[i] == x && ts[j] == x
    decreases |ts|
  {
    assert ts == [ts[0]] + ts[1..];
    if ts[0] == x {
      assert x in multiset(ts[1..]);
      var k :| 0 <= k < |ts[1..]| && ts[1..][k] == x;
      i, j := 0, k + 1;
    } else {
      i, j := TwoPlaces(ts[1..], x);
      i, j := i + 1, j + 1;
    }
  }

  lemma CountedTwice(ts: seq<Target>, i: nat, j: nat)
    requires i < j < |ts| && ts[i] == ts[j]
    ensures multiset(ts)[ts[i]] >= 2
  {
    assert ts == ts[..i] + [ts[i]] + ts[i + 1..j] + [ts[j]] + ts[j + 1..];
  }

  lemma DistinctByContent(a: seq<Target>, b: seq<Target>)
    requires multiset(a) == multiset(b) && DistinctHostnames(a)
    ensures DistinctHostnames(b)
  {
    forall i, j | 0 <= i < j < |b| ensures b[i].hostname != b[j].hostname {
      assert b[i] in multiset(a) && b[j] in multiset(a);
      if b[i] == b[j] {
        CountedTwice(b, i, j);
        var k, l := TwoPlaces(a, b[i]);
      } else {
        var k :| 0 <= k < |a| && a[k] == b[i];
        var l :| 0 <= l < |a| && a[l] == b[j];
        assert k < l || l < k;
      }
    }
  }

  lemma AcceptableByContent(a: seq<Target>, b: seq<Target>)
    requires multiset(a) == multiset(b) && Acceptable(a)
    ensures Acceptable(b)
  {
    DistinctByContent(a, b);
    forall i | 0 <= i < |b| ensures EdgeHostname.Valid(b[i].hostname) && ValidAlias(b[i].alias) {
      assert b[i] in multiset(a);
    }
  }

  /** The order in which the routes are listed makes no difference to the file, nor to a refusal. */
  lemma ListingOrderDoesNotMatter(a: seq<Target>, b: seq<Target>)
    requires multiset(a) == multiset(b)
    ensures Rendered(a) == Rendered(b)
  {
    assert |multiset(a)| == |multiset(b)|;
    if Acceptable(a) {
      AcceptableByContent(a, b);
      SameMultisetSorts(a, b);
    } else if Acceptable(b) {
      AcceptableByContent(b, a);
    }
  }
}
