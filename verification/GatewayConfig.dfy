/** Compilation of a deployment's routes to nginx locations, and what nginx makes of them. */
module GatewayConfig {
  import opened ConfigLines
  import opened Ids
  import opened UuidText
  import opened Wrappers
  import Json

  datatype Service = Service(name: string, port: nat)
  datatype Route = Route(path: string, service: string)
  datatype Runtime = Runtime(services: seq<Service>, routes: seq<Route>)

  /** How a location matches: by its prefix, exactly, or by its prefix with regular expressions skipped. */
  datatype Modifier = Prefix | Exactly | PrefixOnly
  datatype Location = Location(modifier: Modifier, uri: string, alias: string, port: nat)

  // ---------------------------------------------------------------- valid runtimes

  predicate PathCharacter(c: char) {
    'A' <= c <= 'Z' || 'a' <= c <= 'z' || '0' <= c <= '9' || c in "._~-"
  }

  /** An allowed character, or a slash that does not follow another. */
  predicate InPath(path: string, i: nat)
    requires 0 < i < |path|
  {
    PathCharacter(path[i]) || (path[i] == '/' && path[i - 1] != '/')
  }

  /** "/" or segments of allowed characters, each led by a slash. */
  predicate ValidPath(path: string) {
    && |path| >= 1 && path[0] == '/'
    && (forall i :: 0 < i < |path| ==> InPath(path, i))
    && (|path| > 1 ==> path[|path| - 1] != '/')
  }

  /** A lower-case letter, then up to 31 of these, digits and hyphens. */
  predicate ValidName(name: string) {
    && 1 <= |name| <= 32 && 'a' <= name[0] <= 'z'
    && forall i :: 0 <= i < |name| ==> 'a' <= name[i] <= 'z' || '0' <= name[i] <= '9' || name[i] == '-'
  }

  predicate Valid(runtime: Runtime) {
    && (forall i :: 0 <= i < |runtime.services| ==> ValidName(runtime.services[i].name) && 1 <= runtime.services[i].port <= 65535)
    && (forall i, j :: 0 <= i < j < |runtime.services| ==> runtime.services[i].name != runtime.services[j].name)
    && (forall i :: 0 <= i < |runtime.routes| ==> ValidPath(runtime.routes[i].path) && Known(runtime, runtime.routes[i].service))
    && DistinctPaths(runtime.routes)
    && (exists i :: 0 <= i < |runtime.routes| && runtime.routes[i].path == "/")
  }

  predicate Known(runtime: Runtime, name: string) {
    exists i :: 0 <= i < |runtime.services| && runtime.services[i].name == name
  }

  predicate DistinctPaths(routes: seq<Route>) {
    forall i, j :: 0 <= i < j < |routes| ==> routes[i].path != routes[j].path
  }

  // ---------------------------------------------------------------- what a request should reach

  /** The route covers its own path and everything below it; the root covers all. */
  predicate Covers(route: string, path: string) {
    route == "/" || path == route || route + "/" <= path
  }

  /** The longest route that covers the path. */
  predicate IsBest(routes: seq<Route>, path: string, r: Route) {
    && r in routes && Covers(r.path, path)
    && forall q :: q in routes && Covers(q.path, path) ==> |q.path| <= |r.path|
  }

  // ---------------------------------------------------------------- what nginx does

  predicate Matches(l: Location, path: string) {
    if l.modifier == Exactly then path == l.uri else l.uri <= path
  }

  /** nginx takes the exact location if there is one, and otherwise the longest matching prefix. */
  predicate Selected(locations: seq<Location>, path: string, l: Location) {
    && l in locations && Matches(l, path)
    && (l.modifier != Exactly ==> forall m :: m in locations && Matches(m, path) ==> m.modifier != Exactly && |m.uri| <= |l.uri|)
  }

  // ---------------------------------------------------------------- the compilation

  function Insert(r: Route, routes: seq<Route>): (s: seq<Route>)
    ensures multiset(s) == multiset{r} + multiset(routes)
    ensures forall x :: x in s <==> x == r || x in routes
  {
    if routes == [] || |routes[0].path| <= |r.path| then [r] + routes
    else
      assert routes == [routes[0]] + routes[1..];
      [routes[0]] + Insert(r, routes[1..])
  }

  /** Longest path first; routes of one length keep their order. */
  function ByLength(routes: seq<Route>): (s: seq<Route>)
    ensures multiset(s) == multiset(routes)
  {
    if routes == [] then []
    else
      assert routes == [routes[0]] + routes[1..];
      Insert(routes[0], ByLength(routes[1..]))
  }

  predicate Descending(routes: seq<Route>) {
    forall i, j :: 0 <= i < j < |routes| ==> |routes[i].path| >= |routes[j].path|
  }

  lemma {:induction false} InsertKeepsOrder(r: Route, routes: seq<Route>)
    requires Descending(routes)
    ensures Descending(Insert(r, routes))
  {
    if routes != [] && |routes[0].path| > |r.path| {
      InsertKeepsOrder(r, routes[1..]);
      var rest := Insert(r, routes[1..]);
      forall k | 0 <= k < |rest| ensures |routes[0].path| >= |rest[k].path| {
        assert rest[k] == r || rest[k] in routes[1..];
      }
    }
  }

  lemma {:induction false} ByLengthSorts(routes: seq<Route>)
    ensures Descending(ByLength(routes))
  {
    if routes != [] {
      ByLengthSorts(routes[1..]);
      InsertKeepsOrder(routes[0], ByLength(routes[1..]));
    }
  }

  lemma SameRoutes(routes: seq<Route>, r: Route)
    ensures r in ByLength(routes) <==> r in routes
  {
    assert r in ByLength(routes) <==> r in multiset(ByLength(routes));
  }

  function FindService(services: seq<Service>, name: string): (r: Option<Service>)
    ensures r.Some? ==> r.value in services && r.value.name == name
    ensures r == None ==> forall i :: 0 <= i < |services| ==> services[i].name != name
  {
    if services == [] then None
    else if services[0].name == name then Some(services[0])
    else FindService(services[1..], name)
  }

  function Alias(service: Service, generation: string): string {
    service.name + "-g-" + generation
  }

  function LocationsOf(route: Route, service: Service, generation: string): seq<Location> {
    if route.path == "/" then [Location(Prefix, "/", Alias(service, generation), service.port)]
    else [Location(Exactly, route.path, Alias(service, generation), service.port),
          Location(PrefixOnly, route.path + "/", Alias(service, generation), service.port)]
  }

  function Locations(services: seq<Service>, routes: seq<Route>, generation: string): seq<Location>
    requires forall i :: 0 <= i < |routes| ==> FindService(services, routes[i].service).Some?
  {
    if routes == [] then []
    else Locations(services, routes[..|routes| - 1], generation)
         + LocationsOf(routes[|routes| - 1], FindService(services, routes[|routes| - 1].service).value, generation)
  }

  function HeadText(l: Location): string {
    match l.modifier case Prefix => l.uri case Exactly => "= " + l.uri case PrefixOnly => "^~ " + l.uri
  }

  function LocationText(l: Location): string {
    Join(["    location " + HeadText(l) + " {",
          "        proxy_pass http://" + l.alias + ":" + Json.Decimal(l.port) + ";",
          HeaderLine("Host", "$host"),
          HeaderLine("X-Forwarded-For", "$proxy_add_x_forwarded_for"),
          HeaderLine("X-Forwarded-Proto", "$scheme"),
          "    }"])
  }

  function LocationTexts(ls: seq<Location>): seq<string> {
    seq(|ls|, i requires 0 <= i < |ls| => LocationText(ls[i]))
  }

  const ID_HEADER := "X-Heimdall-Deployment-Id"

  /** The line by which the gateway knows a configuration again. */
  function Marker(deployment: DeploymentId): string {
    "# deployment: " + Dashed(deployment)
  }

  function ConfigText(deployment: DeploymentId, ls: seq<Location>): string {
    Join([Marker(deployment),
          "server {",
          "    listen 8080;",
          "    server_name _;",
          "    proxy_hide_header " + ID_HEADER + ";",
          "    add_header " + ID_HEADER + " \"" + Dashed(deployment) + "\" always;"]
         + LocationTexts(ls) + ["}", ""])
  }

  /** What a gateway without a deployment serves. */
  const DEFAULT_TEXT :=
    "server { listen 8080; add_header " + ID_HEADER + " \"none\" always; " + "location / { return 503; } }\n"

  /** The locations of the longest routes come first. */
  method RenderNginxConfig(deployment: DeploymentId, runtime: Runtime) returns (text: string, locations: seq<Location>)
    requires Valid(runtime)
    ensures AllKnown(runtime) && locations == Locations(runtime.services, ByLength(runtime.routes), Hex(deployment)[..12])
    ensures text == ConfigText(deployment, locations)
  {
    var generation := Hex(deployment)[..12];
    EveryServiceIsFound(runtime);
    locations := RenderLocations(runtime.services, ByLength(runtime.routes), generation);
    text := ConfigText(deployment, locations);
  }

  method RenderLocations(services: seq<Service>, routes: seq<Route>, generation: string) returns (locations: seq<Location>)
    requires forall j :: 0 <= j < |routes| ==> FindService(services, routes[j].service).Some?
    ensures locations == Locations(services, routes, generation)
  {
    locations := [];
    for i := 0 to |routes|
      invariant locations == Locations(services, routes[..i], generation)
    {
      var service := FindService(services, routes[i].service).value;
      var alias := service.name + "-g-" + generation;
      assert routes[..i + 1][..i] == routes[..i];
      if routes[i].path == "/" {
        locations := locations + [Location(Prefix, "/", alias, service.port)];
      } else {
        locations := locations + [Location(Exactly, routes[i].path, alias, service.port),
                                  Location(PrefixOnly, routes[i].path + "/", alias, service.port)];
      }
    }
    assert routes[..|routes|] == routes;
  }

  predicate AllKnown(runtime: Runtime) {
    forall i :: 0 <= i < |ByLength(runtime.routes)| ==> FindService(runtime.services, ByLength(runtime.routes)[i].service).Some?
  }

  lemma EveryServiceIsFound(runtime: Runtime)
    requires Valid(runtime)
    ensures AllKnown(runtime)
  {
    var routes := ByLength(runtime.routes);
    forall i | 0 <= i < |routes| ensures FindService(runtime.services, routes[i].service).Some? {
      SameRoutes(runtime.routes, routes[i]);
      var j :| 0 <= j < |runtime.routes| && runtime.routes[j] == routes[i];
      assert Known(runtime, runtime.routes[j].service);
    }
  }

  // ---------------------------------------------------------------- the compilation preserves meaning

  predicate From(l: Location, route: Route, services: seq<Service>, generation: string) {
    var s := FindService(services, route.service);
    s.Some? && l in LocationsOf(route, s.value, generation)
  }

  predicate FromSome(l: Location, routes: seq<Route>, services: seq<Service>, generation: string) {
    exists i :: 0 <= i < |routes| && From(l, routes[i], services, generation)
  }

  lemma {:induction false} LocationsComeFromRoutes(services: seq<Service>, routes: seq<Route>, generation: string, l: Location)
    requires forall i :: 0 <= i < |routes| ==> FindService(services, routes[i].service).Some?
    ensures l in Locations(services, routes, generation) <==> FromSome(l, routes, services, generation)
    decreases |routes|
  {
    if routes != [] {
      var n := |routes| - 1;
      LocationsComeFromRoutes(services, routes[..n], generation, l);
      OneRouteMore(l, routes, services, generation);
    }
  }

  lemma OneRouteMore(l: Location, routes: seq<Route>, services: seq<Service>, generation: string)
    requires routes != []
    ensures FromSome(l, routes, services, generation) <==>
              FromSome(l, routes[..|routes| - 1], services, generation) || From(l, routes[|routes| - 1], services, generation)
  {
    var n := |routes| - 1;
    if FromSome(l, routes[..n], services, generation) {
      var i :| 0 <= i < n && From(l, routes[..n][i], services, generation);
      assert routes[i] == routes[..n][i];
    }
    if FromSome(l, routes, services, generation) {
      var i :| 0 <= i < |routes| && From(l, routes[i], services, generation);
      if i < n { assert routes[..n][i] == routes[i]; }
    }
  }

  /** The routes nginx is told about are the ones the runtime lists. */
  lemma RenderedFrom(runtime: Runtime, generation: string, l: Location)
    requires Valid(runtime) && AllKnown(runtime)
    ensures l in Locations(runtime.services, ByLength(runtime.routes), generation)
            <==> exists r :: r in runtime.routes && From(l, r, runtime.services, generation)
  {
    var routes := ByLength(runtime.routes);
    LocationsComeFromRoutes(runtime.services, routes, generation, l);
    if FromSome(l, routes, runtime.services, generation) {
      var i :| 0 <= i < |routes| && From(l, routes[i], runtime.services, generation);
      assert routes[i] in routes;
    }
    forall r ensures r in ByLength(runtime.routes) <==> r in runtime.routes { SameRoutes(runtime.routes, r); }
  }

  /** The location by which nginx reaches a route that covers the path. */
  function Entrance(route: Route, service: Service, generation: string, path: string): Location {
    var ls := LocationsOf(route, service, generation);
    if route.path == "/" || path == route.path then ls[0] else ls[1]
  }

  lemma EntranceMatches(route: Route, service: Service, generation: string, path: string)
    requires ValidPath(route.path) && |path| >= 1 && path[0] == '/' && Covers(route.path, path)
    ensures Entrance(route, service, generation, path) in LocationsOf(route, service, generation)
    ensures Matches(Entrance(route, service, generation, path), path)
  {
  }

  lemma OnlyCoveringRoutesMatch(route: Route, service: Service, generation: string, path: string, l: Location)
    requires ValidPath(route.path) && l in LocationsOf(route, service, generation) && Matches(l, path)
    ensures Covers(route.path, path)
    ensures l.modifier == Exactly ==> path == route.path && route.path != "/"
    ensures l.modifier != Exactly ==> |l.uri| == (if route.path == "/" then 1 else |route.path| + 1)
  {
  }

  /** Two covering routes of one length are the same path. */
  lemma CoversOfOneLength(a: string, b: string, path: string)
    requires ValidPath(a) && ValidPath(b) && |path| >= 1 && path[0] == '/'
    requires Covers(a, path) && Covers(b, path) && |a| == |b|
    ensures a == b
  {
    assert a <= path && b <= path;
  }

  lemma SamePathSameRoute(routes: seq<Route>, a: Route, b: Route)
    requires DistinctPaths(routes) && a in routes && b in routes && a.path == b.path
    ensures a == b
  {
  }

  /** What nginx selects is reached through the best route, and belongs to no other. */
  lemma SelectedIsBest(runtime: Runtime, generation: string, path: string, l: Location, r: Route)
    requires Valid(runtime) && AllKnown(runtime) && |path| >= 1 && path[0] == '/'
    requires Selected(Locations(runtime.services, ByLength(runtime.routes), generation), path, l)
    requires r in runtime.routes && From(l, r, runtime.services, generation)
    ensures IsBest(runtime.routes, path, r)
  {
    var service := FindService(runtime.services, r.service).value;
    OnlyCoveringRoutesMatch(r, service, generation, path, l);
    forall q | q in runtime.routes && Covers(q.path, path) ensures |q.path| <= |r.path| {
      LongerRouteWouldWin(runtime, generation, path, l, r, q);
    }
  }

  lemma LongerRouteWouldWin(runtime: Runtime, generation: string, path: string, l: Location, r: Route, q: Route)
    requires Valid(runtime) && AllKnown(runtime) && |path| >= 1 && path[0] == '/'
    requires Selected(Locations(runtime.services, ByLength(runtime.routes), generation), path, l)
    requires r in runtime.routes && From(l, r, runtime.services, generation)
    requires q in runtime.routes && Covers(q.path, path)
    ensures |q.path| <= |r.path|
  {
    var service := FindService(runtime.services, r.service).value;
    OnlyCoveringRoutesMatch(r, service, generation, path, l);
    if l.modifier != Exactly {
      RoutedServiceIsFound(runtime, q);
      var s := FindService(runtime.services, q.service).value;
      var m := Entrance(q, s, generation, path);
      EntranceMatches(q, s, generation, path);
      assert From(m, q, runtime.services, generation);
      RenderedFrom(runtime, generation, m);
      OnlyCoveringRoutesMatch(q, s, generation, path, m);
    }
  }

  lemma RoutedServiceIsFound(runtime: Runtime, q: Route)
    requires AllKnown(runtime) && q in runtime.routes
    ensures FindService(runtime.services, q.service).Some?
  {
    SameRoutes(runtime.routes, q);
    var j :| 0 <= j < |ByLength(runtime.routes)| && ByLength(runtime.routes)[j] == q;
  }

  /** Whatever nginx may select goes to the service of the best route, under that service's alias and port. */
  lemma SelectionReachesBestRoute(runtime: Runtime, generation: string, path: string, l: Location, best: Route)
    requires Valid(runtime) && AllKnown(runtime) && |path| >= 1 && path[0] == '/'
    requires IsBest(runtime.routes, path, best)
    ensures Selected(Locations(runtime.services, ByLength(runtime.routes), generation), path, l)
            <==> FindService(runtime.services, best.service).Some?
                 && l == Entrance(best, FindService(runtime.services, best.service).value, generation, path)
  {
    var locations := Locations(runtime.services, ByLength(runtime.routes), generation);
    RoutedServiceIsFound(runtime, best);
    var service := FindService(runtime.services, best.service).value;
    if Selected(locations, path, l) {
      RenderedFrom(runtime, generation, l);
      var r :| r in runtime.routes && From(l, r, runtime.services, generation);
      SelectedIsBest(runtime, generation, path, l, r);
      BestIsUnique(runtime, path, r, best);
      SelectedIsEntrance(locations, runtime, generation, path, l, best);
    }
    if l == Entrance(best, service, generation, path) {
      EntranceIsSelected(runtime, generation, path, l, best);
    }
  }

  lemma BestIsUnique(runtime: Runtime, path: string, a: Route, b: Route)
    requires Valid(runtime) && |path| >= 1 && path[0] == '/'
    requires IsBest(runtime.routes, path, a) && IsBest(runtime.routes, path, b)
    ensures a == b
  {
    CoversOfOneLength(a.path, b.path, path);
    SamePathSameRoute(runtime.routes, a, b);
  }

  /** Of a route's own locations the matching one is the entrance, unless an exact one was passed over. */
  lemma MatchingIsEntrance(route: Route, service: Service, generation: string, path: string, l: Location)
    requires ValidPath(route.path) && |path| >= 1 && path[0] == '/'
    requires l in LocationsOf(route, service, generation) && Matches(l, path)
    requires Entrance(route, service, generation, path).modifier == Exactly ==> l.modifier == Exactly
    ensures l == Entrance(route, service, generation, path)
  {
    OnlyCoveringRoutesMatch(route, service, generation, path, l);
  }

  lemma SelectedIsEntrance(locations: seq<Location>, runtime: Runtime, generation: string, path: string, l: Location, best: Route)
    requires Valid(runtime) && AllKnown(runtime) && |path| >= 1 && path[0] == '/'
    requires locations == Locations(runtime.services, ByLength(runtime.routes), generation) && Selected(locations, path, l)
    requires best in runtime.routes && From(l, best, runtime.services, generation)
    ensures l == Entrance(best, FindService(runtime.services, best.service).value, generation, path)
  {
    var service := FindService(runtime.services, best.service).value;
    RoutesArePaths(runtime, best);
    OnlyCoveringRoutesMatch(best, service, generation, path, l);
    var m := Entrance(best, service, generation, path);
    EntranceMatches(best, service, generation, path);
    assert From(m, best, runtime.services, generation);
    RenderedFrom(runtime, generation, m);
    MatchingIsEntrance(best, service, generation, path, l);
  }

  lemma EntranceIsSelected(runtime: Runtime, generation: string, path: string, l: Location, best: Route)
    requires Valid(runtime) && AllKnown(runtime) && |path| >= 1 && path[0] == '/' && IsBest(runtime.routes, path, best)
    requires FindService(runtime.services, best.service).Some?
    requires l == Entrance(best, FindService(runtime.services, best.service).value, generation, path)
    ensures Selected(Locations(runtime.services, ByLength(runtime.routes), generation), path, l)
  {
    var locations := Locations(runtime.services, ByLength(runtime.routes), generation);
    var service := FindService(runtime.services, best.service).value;
    EntranceMatches(best, service, generation, path);
    assert From(l, best, runtime.services, generation);
    RenderedFrom(runtime, generation, l);
    if l.modifier != Exactly {
      forall m | m in locations && Matches(m, path) ensures m.modifier != Exactly && |m.uri| <= |l.uri| {
        NoBetterLocation(runtime, generation, path, l, best, m);
      }
    }
  }

  lemma NoBetterLocation(runtime: Runtime, generation: string, path: string, l: Location, best: Route, m: Location)
    requires Valid(runtime) && AllKnown(runtime) && |path| >= 1 && path[0] == '/' && IsBest(runtime.routes, path, best)
    requires From(l, best, runtime.services, generation) && Matches(l, path) && l.modifier != Exactly
    requires l == Entrance(best, FindService(runtime.services, best.service).value, generation, path)
    requires m in Locations(runtime.services, ByLength(runtime.routes), generation) && Matches(m, path)
    ensures m.modifier != Exactly && |m.uri| <= |l.uri|
  {
    RenderedFrom(runtime, generation, m);
    var r :| r in runtime.routes && From(m, r, runtime.services, generation);
    var s, t := FindService(runtime.services, best.service).value, FindService(runtime.services, r.service).value;
    RoutesArePaths(runtime, best);
    RoutesArePaths(runtime, r);
    OnlyCoveringRoutesMatch(r, t, generation, path, m);
    if m.modifier == Exactly { ExactRouteIsBest(runtime, path, r, best); }
    NoLongerPrefix(path, best, s, r, t, generation, l, m);
  }

  lemma RoutesArePaths(runtime: Runtime, r: Route)
    requires Valid(runtime) && r in runtime.routes
    ensures ValidPath(r.path)
  {
  }

  lemma NoLongerPrefix(path: string, best: Route, s: Service, r: Route, t: Service, generation: string, l: Location, m: Location)
    requires ValidPath(best.path) && ValidPath(r.path) && |r.path| <= |best.path|
    requires m in LocationsOf(r, t, generation) && Matches(m, path)
    requires l in LocationsOf(best, s, generation) && Matches(l, path) && l.modifier != Exactly
    requires l == Entrance(best, s, generation, path)
    requires m.modifier == Exactly ==> r == best
    ensures m.modifier != Exactly && |m.uri| <= |l.uri|
  {
    OnlyCoveringRoutesMatch(r, t, generation, path, m);
    OnlyCoveringRoutesMatch(best, s, generation, path, l);
  }

  lemma ExactRouteIsBest(runtime: Runtime, path: string, r: Route, best: Route)
    requires Valid(runtime) && |path| >= 1 && path[0] == '/'
    requires r in runtime.routes && path == r.path && IsBest(runtime.routes, path, best)
    ensures r == best
  {
    assert |best.path| <= |path|;
    BestIsUnique(runtime, path, r, best);
  }

  /** Every request is served: some route covers it, since the root does. */
  lemma {:induction false} SomeRouteIsBest(routes: seq<Route>, path: string, root: Route) returns (best: Route)
    requires root in routes && root.path == "/"
    ensures IsBest(routes, path, best)
    decreases |routes|
  {
    best := root;
    var i := 0;
    while i < |routes|
      invariant i <= |routes| && best in routes && Covers(best.path, path)
      invariant forall j :: 0 <= j < i && Covers(routes[j].path, path) ==> |routes[j].path| <= |best.path|
    {
      if Covers(routes[i].path, path) && |routes[i].path| > |best.path| { best := routes[i]; }
      i := i + 1;
    }
  }

  /** For every valid runtime and request path nginx has exactly one choice, and it is the best route's service. */
  lemma RoutingPreservesMeaning(runtime: Runtime, generation: string, path: string) returns (best: Route, chosen: Location)
    requires Valid(runtime) && |path| >= 1 && path[0] == '/'
    ensures AllKnown(runtime) && IsBest(runtime.routes, path, best)
    ensures forall l :: Selected(Locations(runtime.services, ByLength(runtime.routes), generation), path, l) <==> l == chosen
    ensures exists s :: s in runtime.services && s.name == best.service
              && chosen.alias == Alias(s, generation) && chosen.port == s.port
  {
    EveryServiceIsFound(runtime);
    var i :| 0 <= i < |runtime.routes| && runtime.routes[i].path == "/";
    best := SomeRouteIsBest(runtime.routes, path, runtime.routes[i]);
    RoutedServiceIsFound(runtime, best);
    var service := FindService(runtime.services, best.service).value;
    chosen := Entrance(best, service, generation, path);
    forall l ensures Selected(Locations(runtime.services, ByLength(runtime.routes), generation), path, l) <==> l == chosen {
      SelectionReachesBestRoute(runtime, generation, path, l, best);
    }
    assert service in runtime.services && service.name == best.service;
  }

  predicate DistinctLocations(ls: seq<Location>) {
    forall i, j :: 0 <= i < j < |ls| ==> ls[i].uri != ls[j].uri
  }

  lemma ConcatDistinct(a: seq<Location>, b: seq<Location>)
    requires DistinctLocations(a) && DistinctLocations(b)
    requires forall l, m :: l in a && m in b ==> l.uri != m.uri
    ensures DistinctLocations(a + b)
  {
    forall i, j | 0 <= i < j < |a + b| ensures (a + b)[i].uri != (a + b)[j].uri {
      if i < |a| <= j { assert (a + b)[i] in a && (a + b)[j] in b; }
    }
  }

  lemma EarlierUriDiffers(services: seq<Service>, routes: seq<Route>, n: nat, generation: string, l: Location, m: Location)
    requires n < |routes| && forall i :: 0 <= i < |routes| ==> FindService(services, routes[i].service).Some?
    requires DistinctPaths(routes) && forall i :: 0 <= i < |routes| ==> ValidPath(routes[i].path)
    requires l in Locations(services, routes[..n], generation) && From(m, routes[n], services, generation)
    ensures l.uri != m.uri
  {
    LocationsComeFromRoutes(services, routes[..n], generation, l);
    var k :| 0 <= k < n && From(l, routes[..n][k], services, generation);
    UrisDiffer(routes[k], routes[n], services, generation, l, m);
  }

  /** No two locations have the same text to match, so nginx accepts them side by side. */
  lemma {:induction false} LocationsAreDistinct(services: seq<Service>, routes: seq<Route>, generation: string)
    requires forall i :: 0 <= i < |routes| ==> FindService(services, routes[i].service).Some?
    requires DistinctPaths(routes) && forall i :: 0 <= i < |routes| ==> ValidPath(routes[i].path)
    ensures DistinctLocations(Locations(services, routes, generation))
    decreases |routes|
  {
    if routes != [] {
      var n := |routes| - 1;
      LocationsAreDistinct(services, routes[..n], generation);
      var before := Locations(services, routes[..n], generation);
      var own := LocationsOf(routes[n], FindService(services, routes[n].service).value, generation);
      forall l, m | l in before && m in own ensures l.uri != m.uri {
        EarlierUriDiffers(services, routes, n, generation, l, m);
      }
      ConcatDistinct(before, own);
    }
  }

  lemma UrisDiffer(a: Route, b: Route, services: seq<Service>, generation: string, l: Location, m: Location)
    requires ValidPath(a.path) && ValidPath(b.path) && a.path != b.path
    requires From(l, a, services, generation) && From(m, b, services, generation)
    ensures l.uri != m.uri
  {
    assert (a.path + "/")[..|a.path|] == a.path && (b.path + "/")[..|b.path|] == b.path;
    assert (a.path + "/")[|a.path|] == '/' && (b.path + "/")[|b.path|] == '/';
  }

  /** All of the above for the locations that are actually rendered. */
  lemma RenderedLocationsAreDistinct(runtime: Runtime, generation: string)
    requires Valid(runtime)
    ensures AllKnown(runtime) && DistinctLocations(Locations(runtime.services, ByLength(runtime.routes), generation))
  {
    EveryServiceIsFound(runtime);
    var routes := ByLength(runtime.routes);
    forall i | 0 <= i < |routes| ensures ValidPath(routes[i].path) { SameRoutes(runtime.routes, routes[i]); }
    SortedPathsStayDistinct(runtime.routes);
    LocationsAreDistinct(runtime.services, routes, generation);
  }

  lemma {:induction false} InsertKeepsDistinct(r: Route, routes: seq<Route>)
    requires DistinctPaths(routes) && forall i :: 0 <= i < |routes| ==> routes[i].path != r.path
    ensures DistinctPaths(Insert(r, routes))
  {
    if routes != [] && |routes[0].path| > |r.path| {
      InsertKeepsDistinct(r, routes[1..]);
      var rest := Insert(r, routes[1..]);
      forall k | 0 <= k < |rest| ensures routes[0].path != rest[k].path {
        assert rest[k] == r || rest[k] in routes[1..];
      }
    }
  }

  lemma {:induction false} SortedPathsStayDistinct(routes: seq<Route>)
    requires DistinctPaths(routes)
    ensures DistinctPaths(ByLength(routes))
  {
    if routes != [] {
      SortedPathsStayDistinct(routes[1..]);
      var rest := ByLength(routes[1..]);
      forall k | 0 <= k < |rest| ensures rest[k].path != routes[0].path {
        SameRoutes(routes[1..], rest[k]);
      }
      InsertKeepsDistinct(routes[0], rest);
    }
  }
}
