/**
 The text of a gateway's configuration, read the way nginx reads it: which locations it
 has, where they lead, and which deployment it says it is.
 */
module GatewayText {
  import opened ConfigLines
  import opened Ids
  import opened UuidText
  import opened Wrappers
  import opened GatewayConfig
  import opened NginxText
  import Json

  // ---------------------------------------------------------------- what a reader finds

  /** The place of the first c, or the length if there is none. */
  function Find(s: string, c: char): nat {
    LengthUntil(s, c)
  }

  const SCHEME := "http://"

  /** Host and port behind the scheme. */
  function Upstream(url: string): Option<(string, nat)> {
    if !(SCHEME <= url) then None
    else
      var address := url[|SCHEME|..];
      var n := Find(address, ':');
      if n >= |address| - 1 || Json.DigitCount(address[n + 1..]) < |address| - n - 1 then None
      else
        Json.CountedAreDigits(address[n + 1..]);
        Some((address[..n], Json.FromDecimal(address[n + 1..])))
  }

  /** Where the directives of a location pass a request on to. */
  function PassedTo(ds: seq<Directive>): Option<(string, nat)> {
    if ds == [] then None
    else if ds[0].Simple? && |ds[0].words| == 2 && ds[0].words[0] == "proxy_pass" then Upstream(ds[0].words[1])
    else PassedTo(ds[1..])
  }

  /** A location as nginx documents it: an optional modifier, the text to match, and where to. */
  function LocationIn(d: Directive): Option<Location> {
    if !d.Block? || |d.words| < 2 || d.words[0] != "location" || PassedTo(d.inside) == None then None
    else
      var to := PassedTo(d.inside).value;
      if |d.words| == 2 then Some(Location(Prefix, d.words[1], to.0, to.1))
      else if |d.words| == 3 && d.words[1] == "=" then Some(Location(Exactly, d.words[2], to.0, to.1))
      else if |d.words| == 3 && d.words[1] == "^~" then Some(Location(PrefixOnly, d.words[2], to.0, to.1))
      else None
  }

  /** All blocks of a server, which must be locations that can be read. */
  function LocationsIn(ds: seq<Directive>): Option<seq<Location>> {
    if ds == [] then Some([])
    else if ds[0].Simple? then LocationsIn(ds[1..])
    else
      var l, more := LocationIn(ds[0]), LocationsIn(ds[1..]);
      if l == None || more == None then None else Some([l.value] + more.value)
  }

  /** The locations of a file with one server. */
  function ReadLocations(text: string): Option<seq<Location>> {
    var ds := Read(text);
    if ds.Some? && |ds.value| == 1 && ds.value[0].Block? && ds.value[0].words == ["server"] then LocationsIn(ds.value[0].inside) else None
  }

  // ---------------------------------------------------------------- one location

  /** What can be written without quotes and read back. */
  predicate Writable(l: Location) {
    Plain(l.uri) && Plain(l.alias) && ':' !in l.alias
  }

  function Head(l: Location): seq<string> {
    match l.modifier
    case Prefix => ["location", l.uri]
    case Exactly => ["location", "=", l.uri]
    case PrefixOnly => ["location", "^~", l.uri]
  }

  function Url(l: Location): string {
    SCHEME + (l.alias + ([':'] + Json.Decimal(l.port)))
  }

  function Inside(l: Location): seq<Directive> {
    [Simple(["proxy_pass", Url(l)]),
     Simple([SET_HEADER, "Host", "$host"]),
     Simple([SET_HEADER, "X-Forwarded-For", "$proxy_add_x_forwarded_for"]),
     Simple([SET_HEADER, "X-Forwarded-Proto", "$scheme"])]
  }

  lemma AddressIsRead(host: string, port: nat, address: string)
    requires ':' !in host && address == host + ([':'] + Json.Decimal(port))
    ensures Find(address, ':') == |host| && address[..|host|] == host && address[|host| + 1..] == Json.Decimal(port)
    ensures var digits := Json.Decimal(port);
            && Json.DigitCount(digits) == |digits| && (forall i :: 0 <= i < |digits| ==> Json.Digit(digits[i]))
            && Json.FromDecimal(digits) == port
  {
    var digits := Json.Decimal(port);
    LengthUntilOf(host, ':', digits);
    Json.DecimalDigits(port);
    Json.DigitsCounted(digits, "");
    assert digits + "" == digits;
  }

  lemma UrlIsRead(host: string, port: nat, url: string)
    requires ':' !in host && url == SCHEME + (host + ([':'] + Json.Decimal(port)))
    ensures Upstream(url) == Some((host, port))
  {
    var address := host + ([':'] + Json.Decimal(port));
    assert url[|SCHEME|..] == address && SCHEME <= url;
    AddressIsRead(host, port, address);
  }

  lemma UrlIsPlain(host: string, port: nat, url: string)
    requires Plain(host) && url == SCHEME + (host + ([':'] + Json.Decimal(port)))
    ensures Plain(url)
  {
    NumberIsUnbroken(port);
    PlainBefore(host, [':'] + Json.Decimal(port));
    SchemeIsPlain();
    PlainBefore(SCHEME, host + ([':'] + Json.Decimal(port)));
  }

  lemma NumberIsUnbroken(port: nat)
    ensures Unbroken([':'] + Json.Decimal(port))
  {
    var digits := Json.Decimal(port);
    Json.DecimalDigits(port);
    forall i | 0 <= i < |digits| ensures !EndsWord(digits[i]) { assert Json.Digit(digits[i]); }
    BothUnbroken([':'], digits);
  }

  lemma SchemeIsPlain()
    ensures Plain(SCHEME)
  {
  }

  lemma LocationIsRead(l: Location)
    requires Writable(l)
    ensures LocationIn(Block(Head(l), Inside(l))) == Some(l)
  {
    UrlIsRead(l.alias, l.port, Url(l));
    assert PassedTo(Inside(l)) == Upstream(Url(l));
  }

  lemma HeadIsSpaced(l: Location)
    ensures Spaced(Head(l)) == "location" + [' '] + HeadText(l)
  {
    match l.modifier
    case Prefix => TwoSpaced("location", l.uri);
    case Exactly => ThreeSpaced("location", "=", l.uri);
    case PrefixOnly => ThreeSpaced("location", "^~", l.uri);
  }

  lemma HeadIsPlain(l: Location)
    requires Writable(l)
    ensures AllPlain(Head(l))
  {
    assert Plain("location") && Plain("=") && Plain("^~");
  }

  lemma HeadIsLine(indent: string, a: string, b: string)
    ensures (indent + (a + [' '])) + b + ([' '] + ['{']) == indent + ((a + [' '] + b) + [' ']) + ['{']
  {
  }

  lemma HeadYields(l: Location)
    requires Writable(l)
    ensures Yields(("    location " + HeadText(l) + " {") + ['\n'], AsLexemes(Head(l)) + [Open])
  {
    HeadIsSpaced(l);
    HeadIsPlain(l);
    HeadIsLine("    ", "location", HeadText(l));
    assert "    location " == "    " + ("location" + [' ']) && " {" == [' '] + ['{'];
    OpeningYields("    location " + HeadText(l) + " {", "    ", Head(l));
  }

  lemma PassYields(url: string, line: string)
    requires Plain(url) && line == "        proxy_pass " + url + ";"
    ensures Yields(line + ['\n'], Flat([Simple(["proxy_pass", url])]))
  {
    var ws := ["proxy_pass", url];
    TwoSpaced("proxy_pass", url);
    assert line == "        " + (Spaced(ws) + [';']);
    LineYields(line, "        ", ws);
  }

  /** The lines inside the braces. */
  function Body(l: Location): seq<string> {
    ["        proxy_pass http://" + l.alias + ":" + Json.Decimal(l.port) + ";",
     HeaderLine("Host", "$host"),
     HeaderLine("X-Forwarded-For", "$proxy_add_x_forwarded_for"),
     HeaderLine("X-Forwarded-Proto", "$scheme")]
  }

  lemma ValuesArePlain()
    ensures Plain("Host") && Plain("$host")
    ensures Plain("X-Forwarded-For") && Plain("$proxy_add_x_forwarded_for")
    ensures Plain("X-Forwarded-Proto") && Plain("$scheme")
  {
  }

  lemma PassLineYields(l: Location)
    requires Writable(l)
    ensures Yields(("        proxy_pass http://" + l.alias + ":" + Json.Decimal(l.port) + ";") + ['\n'],
                   Flat([Simple(["proxy_pass", Url(l)])]))
  {
    UrlIsPlain(l.alias, l.port, Url(l));
    PassIsLine("        proxy_pass ", l.alias, Json.Decimal(l.port));
    assert "        proxy_pass http://" == "        proxy_pass " + SCHEME && ":" == [':'] && ";" == [';'];
    PassYields(Url(l), "        proxy_pass " + Url(l) + ";");
  }

  lemma PassIsLine(pass: string, host: string, digits: string)
    ensures (pass + SCHEME) + host + [':'] + digits + [';'] == pass + (SCHEME + (host + ([':'] + digits))) + [';']
  {
  }

  lemma BodyYields(l: Location)
    requires Writable(l)
    ensures Yields(Lines(Body(l)), Flat(Inside(l)))
  {
    PassLineYields(l);
    ValuesArePlain();
    HeaderYields("Host", "$host");
    HeaderYields("X-Forwarded-For", "$proxy_add_x_forwarded_for");
    HeaderYields("X-Forwarded-Proto", "$scheme");
    ManyYield(Body(l), Inside(l));
  }

  lemma LocationTextIsLines(l: Location)
    ensures LocationText(l) + ['\n']
            == ((("    location " + HeadText(l) + " {") + ['\n']) + Lines(Body(l))) + ("    }" + ['\n'])
  {
    var head := "    location " + HeadText(l) + " {";
    var ls := [head] + Body(l) + ["    }"];
    JoinedLines(ls);
    LinesAppend([head] + Body(l), ["    }"]);
    LinesAppend([head], Body(l));
    OneLine(head);
    OneLine("    }");
    assert ls == [head, Body(l)[0], Body(l)[1], Body(l)[2], Body(l)[3], "    }"];
  }

  /** The text of a location is the location. */
  lemma LocationYields(l: Location)
    requires Writable(l)
    ensures Yields(LocationText(l) + ['\n'], Flat([Block(Head(l), Inside(l))]))
  {
    HeadYields(l);
    BodyYields(l);
    ClosingYields("    }", "    ");
    BlockYields(("    location " + HeadText(l) + " {") + ['\n'], Head(l), Lines(Body(l)), Inside(l), "    }" + ['\n']);
    LocationTextIsLines(l);
  }

  // ---------------------------------------------------------------- the whole file

  function Blocks(ls: seq<Location>): seq<Directive> {
    seq(|ls|, i requires 0 <= i < |ls| => Block(Head(ls[i]), Inside(ls[i])))
  }

  function Settings(deployment: DeploymentId): seq<Directive> {
    [Simple(["listen", "8080"]),
     Simple(["server_name", "_"]),
     Simple(["proxy_hide_header", ID_HEADER]),
     Simple(["add_header", ID_HEADER, Dashed(deployment), "always"])]
  }

  function SettingLines(deployment: DeploymentId): seq<string> {
    ["    listen 8080;",
     "    server_name _;",
     "    proxy_hide_header " + ID_HEADER + ";",
     "    add_header " + ID_HEADER + " \"" + Dashed(deployment) + "\" always;"]
  }

  lemma ListenLine()
    ensures Yields("    listen 8080;" + ['\n'], Flat([Simple(["listen", "8080"])]))
  {
    TwoWordLine("    listen 8080;", "listen", "8080");
  }

  lemma ServerNameLine()
    ensures Yields("    server_name _;" + ['\n'], Flat([Simple(["server_name", "_"])]))
  {
    TwoWordLine("    server_name _;", "server_name", "_");
  }

  lemma IdHeaderIsPlain()
    ensures Plain(ID_HEADER)
  {
  }

  lemma HiddenLine()
    ensures Yields(("    proxy_hide_header " + ID_HEADER + ";") + ['\n'], Flat([Simple(["proxy_hide_header", ID_HEADER])]))
  {
    IdHeaderIsPlain();
    assert Plain("proxy_hide_header") && "    proxy_hide_header " == "    " + ("proxy_hide_header" + [' ']) && ";" == [';'];
    TwoWordLine("    proxy_hide_header " + ID_HEADER + ";", "proxy_hide_header", ID_HEADER);
  }

  lemma AddedWords()
    ensures Plain("add_header") && Plain("always")
    ensures "    add_header " == "    " + ("add_header" + [' ']) && " \"" == [' '] + ['"']
    ensures "\" always;" == ['"'] + ([' '] + ("always" + [';']))
  {
  }

  /** A quoted word between two plain ones. */
  lemma QuotedBetween(indent: string, a: string, b: string, quoted: string, c: string)
    requires Plain(a) && Plain(b) && Plain(c) && '"' !in quoted
    requires forall i :: 0 <= i < |indent| ==> Blank(indent[i])
    ensures Yields((indent + (a + [' '] + b + [' '])) + ((['"'] + quoted + ['"']) + ([' '] + (c + [';']))),
                   AsLexemes([a, b, quoted, c]) + [End])
  {
    TwoSpaced(a, b);
    IndentedYields(indent, [a, b], ' ');
    QuotedYields(quoted);
    MarkYields(' ');
    WordYields(c, ';');
    Both([' '], [], c + [';'], [Word(c)] + [End]);
    Both(['"'] + quoted + ['"'], [Word(quoted)], [' '] + (c + [';']), [] + ([Word(c)] + [End]));
    Both(indent + (a + [' '] + b + [' ']), AsLexemes([a, b]) + [],
         (['"'] + quoted + ['"']) + ([' '] + (c + [';'])), [Word(quoted)] + ([] + ([Word(c)] + [End])));
    assert (AsLexemes([a, b]) + []) + ([Word(quoted)] + ([] + ([Word(c)] + [End]))) == AsLexemes([a, b, quoted, c]) + [End];
  }

  lemma AddedLine(deployment: DeploymentId)
    ensures Yields(("    add_header " + ID_HEADER + " \"" + Dashed(deployment) + "\" always;") + ['\n'],
                   Flat([Simple(["add_header", ID_HEADER, Dashed(deployment), "always"])]))
  {
    var id := Dashed(deployment);
    IdHeaderIsPlain();
    AddedWords();
    DashedCharacters(deployment);
    QuotedBetween("    ", "add_header", ID_HEADER, id, "always");
    AddedIsLine("    ", "add_header", ID_HEADER, id, [' '] + ("always" + [';']));
    FlatOne(Simple(["add_header", ID_HEADER, id, "always"]));
    EndOfLine("    add_header " + ID_HEADER + " \"" + id + "\" always;", AsLexemes(["add_header", ID_HEADER, id, "always"]) + [End]);
  }

  lemma AddedIsLine(indent: string, a: string, b: string, quoted: string, c: string)
    ensures (indent + (a + [' '])) + b + ([' '] + ['"']) + quoted + (['"'] + c)
            == (indent + (a + [' '] + b + [' '])) + ((['"'] + quoted + ['"']) + c)
  {
  }

  lemma SettingsYield(deployment: DeploymentId)
    ensures Yields(Lines(SettingLines(deployment)), Flat(Settings(deployment)))
  {
    ListenLine();
    ServerNameLine();
    HiddenLine();
    AddedLine(deployment);
    ManyYield(SettingLines(deployment), Settings(deployment));
  }

  predicate AllWritable(ls: seq<Location>) {
    forall i :: 0 <= i < |ls| ==> Writable(ls[i])
  }

  lemma LocationsYield(ls: seq<Location>)
    requires AllWritable(ls)
    ensures Yields(Lines(LocationTexts(ls)), Flat(Blocks(ls)))
  {
    forall i | 0 <= i < |ls| ensures Yields(LocationTexts(ls)[i] + ['\n'], Flat([Blocks(ls)[i]])) { LocationYields(ls[i]); }
    ManyYield(LocationTexts(ls), Blocks(ls));
  }

  /** What follows the marker. */
  function ServerText(deployment: DeploymentId, ls: seq<Location>): string {
    (("server {" + ['\n']) + (Lines(SettingLines(deployment)) + Lines(LocationTexts(ls)))) + ("}" + ['\n'])
  }

  lemma ConfigInLines(deployment: DeploymentId, ls: seq<Location>)
    ensures ConfigText(deployment, ls)
            == Join(([Marker(deployment)] + ["server {"]) + (SettingLines(deployment) + LocationTexts(ls)) + ["}"] + [""])
  {
    var s := SettingLines(deployment);
    assert [Marker(deployment), "server {", s[0], s[1], s[2], s[3]] + LocationTexts(ls) + ["}", ""]
           == ([Marker(deployment)] + ["server {"]) + (s + LocationTexts(ls)) + ["}"] + [""];
  }

  lemma ConfigIsMarkerAndServer(deployment: DeploymentId, ls: seq<Location>)
    ensures ConfigText(deployment, ls) == (Marker(deployment) + ['\n']) + ServerText(deployment, ls)
  {
    var head := [Marker(deployment)] + ["server {"];
    var body := SettingLines(deployment) + LocationTexts(ls);
    var all := head + body + ["}"];
    ConfigInLines(deployment, ls);
    JoinedLines(all);
    LinesAppend(head + body, ["}"]);
    LinesAppend(head, body);
    LinesAppend([Marker(deployment)], ["server {"]);
    LinesAppend(SettingLines(deployment), LocationTexts(ls));
    OneLine(Marker(deployment));
    OneLine("server {");
    OneLine("}");
    RegroupFour(Marker(deployment) + ['\n'], "server {" + ['\n'], Lines(body), "}" + ['\n']);
  }

  lemma RegroupFour(a: string, b: string, c: string, d: string)
    ensures ((a + b) + c) + d == a + ((b + c) + d)
  {
  }

  lemma ServerYields(deployment: DeploymentId, ls: seq<Location>)
    requires AllWritable(ls)
    ensures Yields(ServerText(deployment, ls), Flat([Block(["server"], Settings(deployment) + Blocks(ls))]))
  {
    assert Plain("server") && "server {" == "" + (Spaced(["server"]) + [' ']) + ['{'];
    OpeningYields("server {", "", ["server"]);
    SettingsYield(deployment);
    LocationsYield(ls);
    Both(Lines(SettingLines(deployment)), Flat(Settings(deployment)), Lines(LocationTexts(ls)), Flat(Blocks(ls)));
    FlatAppend(Settings(deployment), Blocks(ls));
    ClosingYields("}", "");
    BlockYields("server {" + ['\n'], ["server"], Lines(SettingLines(deployment)) + Lines(LocationTexts(ls)),
                Settings(deployment) + Blocks(ls), "}" + ['\n']);
  }

  lemma MarkerYields(deployment: DeploymentId)
    ensures Yields(Marker(deployment) + ['\n'], [])
  {
    var s := " deployment: " + Dashed(deployment);
    DashedCharacters(deployment);
    assert Marker(deployment) == ['#'] + s;
    CommentYields(s);
  }

  lemma ServerIsNamed(deployment: DeploymentId, ls: seq<Location>)
    ensures Named([Block(["server"], Settings(deployment) + Blocks(ls))])
  {
    forall i | 0 <= i < |ls| ensures Named(Inside(ls[i])) { NamedEach(Inside(ls[i])); }
    NamedEach(Settings(deployment) + Blocks(ls));
    NamedEach([Block(["server"], Settings(deployment) + Blocks(ls))]);
  }

  /** The file is one server with its settings and its locations. */
  lemma ConfigIsRead(deployment: DeploymentId, ls: seq<Location>)
    requires AllWritable(ls)
    ensures Read(ConfigText(deployment, ls)) == Some([Block(["server"], Settings(deployment) + Blocks(ls))])
  {
    var ds := [Block(["server"], Settings(deployment) + Blocks(ls))];
    MarkerYields(deployment);
    ServerYields(deployment, ls);
    Both(Marker(deployment) + ['\n'], [], ServerText(deployment, ls), Flat(ds));
    ConfigIsMarkerAndServer(deployment, ls);
    assert [] + Flat(ds) == Flat(ds);
    ServerIsNamed(deployment, ls);
    YieldsIsRead(ConfigText(deployment, ls), ds);
  }

  lemma {:induction false} BlocksAreRead(ls: seq<Location>)
    requires AllWritable(ls)
    ensures LocationsIn(Blocks(ls)) == Some(ls)
    decreases |ls|
  {
    if ls != [] {
      LocationIsRead(ls[0]);
      BlocksAreRead(ls[1..]);
      FirstBlock(ls);
      FirstIsRead(Block(Head(ls[0]), Inside(ls[0])), ls[0], Blocks(ls[1..]), ls[1..]);
      assert [ls[0]] + ls[1..] == ls;
    }
  }

  lemma FirstBlock(ls: seq<Location>)
    requires ls != []
    ensures Blocks(ls) == [Block(Head(ls[0]), Inside(ls[0]))] + Blocks(ls[1..])
  {
  }

  lemma FirstIsRead(d: Directive, l: Location, ds: seq<Directive>, ls: seq<Location>)
    requires d.Block? && LocationIn(d) == Some(l) && LocationsIn(ds) == Some(ls)
    ensures LocationsIn([d] + ds) == Some([l] + ls)
  {
    assert ([d] + ds)[1..] == ds;
  }

  lemma {:induction false} SettingsAreSkipped(settings: seq<Directive>, ds: seq<Directive>)
    requires forall i :: 0 <= i < |settings| ==> settings[i].Simple?
    ensures LocationsIn(settings + ds) == LocationsIn(ds)
    decreases |settings|
  {
    if settings == [] {
      assert settings + ds == ds;
    } else {
      assert (settings + ds)[1..] == settings[1..] + ds;
      SettingsAreSkipped(settings[1..], ds);
    }
  }

  /** What nginx reads from the text are the locations it was written from. */
  lemma LocationsAreRead(deployment: DeploymentId, ls: seq<Location>)
    requires AllWritable(ls)
    ensures ReadLocations(ConfigText(deployment, ls)) == Some(ls)
  {
    ConfigIsRead(deployment, ls);
    SettingsAreSkipped(Settings(deployment), Blocks(ls));
    BlocksAreRead(ls);
  }

  // ---------------------------------------------------------------- every valid runtime

  lemma PathIsPlain(path: string)
    requires ValidPath(path)
    ensures Plain(path) && Plain(path + "/")
  {
    forall i | 0 <= i < |path| ensures !EndsWord(path[i]) {
      if i > 0 { assert InPath(path, i); }
    }
  }

  lemma AliasIsPlain(service: Service, deployment: DeploymentId)
    requires ValidName(service.name)
    ensures var alias := Alias(service, Hex(deployment)[..12]); Plain(alias) && ':' !in alias
  {
    HexIsRead(deployment);
    var name, generation := service.name, Hex(deployment)[..12];
    var behind := "-g-" + generation;
    assert behind == ['-', 'g', '-'] + generation;
    forall i | 0 <= i < |behind| ensures !EndsWord(behind[i]) && behind[i] != ':' {
      if i >= 3 { assert behind[i] == Hex(deployment)[i - 3] && HexDigit(behind[i]); }
    }
    assert Plain(name) && ':' !in name;
    PlainBefore(name, behind);
    assert Alias(service, generation) == name + behind;
  }

  lemma LocationsAreWritable(deployment: DeploymentId, runtime: Runtime)
    requires Valid(runtime) && AllKnown(runtime)
    ensures AllWritable(Locations(runtime.services, ByLength(runtime.routes), Hex(deployment)[..12]))
  {
    var generation := Hex(deployment)[..12];
    var ls := Locations(runtime.services, ByLength(runtime.routes), generation);
    forall i | 0 <= i < |ls| ensures Writable(ls[i]) {
      assert ls[i] in ls;
      RenderedFrom(runtime, generation, ls[i]);
      var r :| r in runtime.routes && From(ls[i], r, runtime.services, generation);
      RoutedIsWritable(deployment, runtime, r, ls[i]);
    }
  }

  lemma RoutedIsWritable(deployment: DeploymentId, runtime: Runtime, r: Route, l: Location)
    requires Valid(runtime) && r in runtime.routes && From(l, r, runtime.services, Hex(deployment)[..12])
    ensures Writable(l)
  {
    var service := FindService(runtime.services, r.service).value;
    RoutesArePaths(runtime, r);
    PathIsPlain(r.path);
    var i :| 0 <= i < |runtime.services| && runtime.services[i] == service;
    AliasIsPlain(service, deployment);
  }

  /** For every deployment and every valid runtime nginx reads the rendered locations, and no others, from the rendered text. */
  lemma RenderedIsRead(deployment: DeploymentId, runtime: Runtime)
    requires Valid(runtime)
    ensures AllKnown(runtime)
    ensures var ls := Locations(runtime.services, ByLength(runtime.routes), Hex(deployment)[..12]);
            ReadLocations(ConfigText(deployment, ls)) == Some(ls)
  {
    EveryServiceIsFound(runtime);
    LocationsAreWritable(deployment, runtime);
    LocationsAreRead(deployment, Locations(runtime.services, ByLength(runtime.routes), Hex(deployment)[..12]));
  }

  /** What the text of the rendered configuration is. */
  function TextOf(deployment: DeploymentId, runtime: Runtime): string
    requires Valid(runtime) && AllKnown(runtime)
  {
    ConfigText(deployment, Locations(runtime.services, ByLength(runtime.routes), Hex(deployment)[..12]))
  }

  /**
   The text says what the routes mean: of the locations nginx reads from it, it has exactly one
   choice for a request, and that passes the request to the service of the longest route
   above the path, under its name in this deployment and its port.
   */
  lemma TextRoutesAsMeant(deployment: DeploymentId, runtime: Runtime, path: string)
    returns (best: Route, chosen: Location)
    requires Valid(runtime) && |path| >= 1 && path[0] == '/'
    ensures AllKnown(runtime) && IsBest(runtime.routes, path, best)
    ensures var read := ReadLocations(TextOf(deployment, runtime));
            read.Some? && forall l :: Selected(read.value, path, l) <==> l == chosen
    ensures exists s :: s in runtime.services && s.name == best.service
              && chosen.alias == s.name + "-g-" + Hex(deployment)[..12] && chosen.port == s.port
  {
    RenderedIsRead(deployment, runtime);
    best, chosen := RoutingPreservesMeaning(runtime, Hex(deployment)[..12], path);
  }

  // ---------------------------------------------------------------- the marker

  predicate Contains(text: string, part: string) {
    exists i :: 0 <= i <= |text| - |part| && PartAt(text, part, i)
  }

  predicate PartAt(text: string, part: string, i: nat)
    requires i + |part| <= |text|
  {
    text[i..i + |part|] == part
  }

  predicate Unhashed(s: string) {
    forall i :: 0 <= i < |s| ==> s[i] != '#'
  }

  lemma {:induction false} LinesUnhashed(ls: seq<string>)
    requires forall i :: 0 <= i < |ls| ==> Unhashed(ls[i])
    ensures Unhashed(Lines(ls))
    decreases |ls|
  {
    if ls != [] { LinesUnhashed(ls[1..]); }
  }

  predicate WithoutHash(l: Location) {
    Unhashed(l.uri) && Unhashed(l.alias)
  }

  lemma DecimalUnhashed(n: nat)
    ensures Unhashed(Json.Decimal(n))
  {
    Json.DecimalDigits(n);
    forall i | 0 <= i < |Json.Decimal(n)| ensures Json.Decimal(n)[i] != '#' { assert Json.Digit(Json.Decimal(n)[i]); }
  }

  lemma FirstLineUnhashed(l: Location)
    requires WithoutHash(l)
    ensures Unhashed(Body(l)[0])
  {
    DecimalUnhashed(l.port);
    assert Unhashed("        proxy_pass http://");
  }

  lemma HeaderLinesUnhashed()
    ensures Unhashed(HeaderLine("Host", "$host"))
    ensures Unhashed(HeaderLine("X-Forwarded-For", "$proxy_add_x_forwarded_for"))
    ensures Unhashed(HeaderLine("X-Forwarded-Proto", "$scheme"))
  {
    assert Unhashed("        proxy_set_header ");
    ValuesUnhashed();
  }

  lemma ValuesUnhashed()
    ensures Unhashed("Host") && Unhashed("$host")
    ensures Unhashed("X-Forwarded-For") && Unhashed("$proxy_add_x_forwarded_for")
    ensures Unhashed("X-Forwarded-Proto") && Unhashed("$scheme")
  {
  }

  lemma LocationUnhashed(l: Location)
    requires WithoutHash(l)
    ensures Unhashed(LocationText(l) + ['\n'])
  {
    FirstLineUnhashed(l);
    HeaderLinesUnhashed();
    LinesUnhashed(Body(l));
    LocationTextIsLines(l);
    assert Unhashed("    location ") && Unhashed("= ") && Unhashed("^~ ") && Unhashed(" {") && Unhashed("    }");
  }

  lemma SettingsUnhashed(deployment: DeploymentId)
    ensures Unhashed(Lines(SettingLines(deployment)))
  {
    DashedUnhashed(deployment);
    assert Unhashed(ID_HEADER);
    assert Unhashed("    proxy_hide_header ") && Unhashed("    add_header ");
    LinesUnhashed(SettingLines(deployment));
  }

  lemma ServerUnhashed(deployment: DeploymentId, ls: seq<Location>)
    requires AllWithoutHash(ls)
    ensures Unhashed(ServerText(deployment, ls))
  {
    SettingsUnhashed(deployment);
    forall i | 0 <= i < |ls| ensures Unhashed(LocationTexts(ls)[i]) {
      LocationUnhashed(ls[i]);
      assert forall j :: 0 <= j < |LocationText(ls[i])| ==> (LocationText(ls[i]) + ['\n'])[j] == LocationText(ls[i])[j];
    }
    LinesUnhashed(LocationTexts(ls));
  }

  /** A text whose only hash is its first character contains what begins with one only at its beginning. */
  lemma FoundAtStart(text: string, rest: string, part: string)
    requires text == ['#'] + rest && Unhashed(rest) && part != "" && part[0] == '#'
    ensures Contains(text, part) <==> part <= text
  {
    assert forall k :: 0 < k < |text| ==> text[k] == rest[k - 1];
    if Contains(text, part) {
      var i :| 0 <= i <= |text| - |part| && PartAt(text, part, i);
      assert text[i] == part[0];
    }
    if part <= text { assert PartAt(text, part, 0); }
  }

  lemma FoundNowhere(text: string, part: string)
    requires Unhashed(text) && part != "" && part[0] == '#'
    ensures !Contains(text, part)
  {
    forall i | 0 <= i <= |text| - |part| ensures !PartAt(text, part, i) {
      assert text[i..i + |part|][0] == text[i];
    }
  }

  const MARK := " deployment: "

  lemma MarkerBegins(deployment: DeploymentId)
    ensures Marker(deployment) == ['#'] + (MARK + Dashed(deployment)) && Unhashed(MARK)
  {
  }

  lemma DashedUnhashed(deployment: DeploymentId)
    ensures Unhashed(Dashed(deployment))
  {
    DashedCharacters(deployment);
    forall i | 0 <= i < 36 ensures Dashed(deployment)[i] != '#' { assert HexDigit(Dashed(deployment)[i]) || Dashed(deployment)[i] == '-'; }
  }

  lemma SameMarker(deployment: DeploymentId, other: DeploymentId, behind: string)
    ensures Marker(other) <= Marker(deployment) + behind <==> other == deployment
  {
    MarkerBegins(deployment);
    MarkerBegins(other);
    var own, m := Marker(deployment), Marker(other);
    if m <= own + behind {
      assert m == own;
      assert (['#'] + (MARK + Dashed(deployment)))[1 + |MARK|..] == Dashed(deployment);
      assert (['#'] + (MARK + Dashed(other)))[1 + |MARK|..] == Dashed(other);
      DashedDetermines(deployment, other);
    }
  }

  predicate AllWithoutHash(ls: seq<Location>) {
    forall i :: 0 <= i < |ls| ==> WithoutHash(ls[i])
  }

  /** A configuration contains the marker of a deployment exactly if it is that deployment's. */
  lemma MarkerIsItsOwn(deployment: DeploymentId, other: DeploymentId, ls: seq<Location>)
    requires AllWithoutHash(ls)
    ensures Contains(ConfigText(deployment, ls), Marker(other)) <==> other == deployment
  {
    var behind := ['\n'] + ServerText(deployment, ls);
    ConfigIsMarkerAndServer(deployment, ls);
    assert ConfigText(deployment, ls) == Marker(deployment) + behind;
    ServerUnhashed(deployment, ls);
    DashedUnhashed(deployment);
    MarkerBegins(deployment);
    MarkerBegins(other);
    assert Marker(deployment) + behind == ['#'] + ((MARK + Dashed(deployment)) + behind);
    FoundAtStart(ConfigText(deployment, ls), (MARK + Dashed(deployment)) + behind, Marker(other));
    SameMarker(deployment, other, behind);
  }

  lemma DefaultUnhashed()
    ensures Unhashed(DEFAULT_TEXT)
  {
    assert Unhashed("server { listen 8080; add_header ") && Unhashed(ID_HEADER) && Unhashed(" \"none\" always; ");
    assert Unhashed("location / { return 503; } }\n");
  }

  lemma DefaultIsUnmarked(deployment: DeploymentId)
    ensures !Contains(DEFAULT_TEXT, Marker(deployment))
  {
    DefaultUnhashed();
    MarkerBegins(deployment);
    FoundNowhere(DEFAULT_TEXT, Marker(deployment));
  }

  lemma PathUnhashed(path: string)
    requires ValidPath(path)
    ensures Unhashed(path)
  {
    forall j | 0 <= j < |path| ensures path[j] != '#' {
      if j > 0 { assert InPath(path, j); }
    }
  }

  lemma AliasUnhashed(service: Service, deployment: DeploymentId)
    requires ValidName(service.name)
    ensures Unhashed(Alias(service, Hex(deployment)[..12]))
  {
    HexIsRead(deployment);
    var name, generation := service.name, Hex(deployment)[..12];
    forall j | 0 <= j < |generation| ensures generation[j] != '#' { assert HexDigit(Hex(deployment)[j]); }
    assert Alias(service, generation) == name + ['-', 'g', '-'] + generation;
  }

  lemma RenderedWithoutHash(deployment: DeploymentId, runtime: Runtime)
    requires Valid(runtime) && AllKnown(runtime)
    ensures var ls := Locations(runtime.services, ByLength(runtime.routes), Hex(deployment)[..12]);
            AllWithoutHash(ls)
  {
    var generation := Hex(deployment)[..12];
    var ls := Locations(runtime.services, ByLength(runtime.routes), generation);
    forall i | 0 <= i < |ls| ensures WithoutHash(ls[i]) {
      assert ls[i] in ls;
      RenderedFrom(runtime, generation, ls[i]);
      var r :| r in runtime.routes && From(ls[i], r, runtime.services, generation);
      RoutedWithoutHash(deployment, runtime, r, ls[i]);
    }
  }

  lemma RoutedWithoutHash(deployment: DeploymentId, runtime: Runtime, r: Route, l: Location)
    requires Valid(runtime) && r in runtime.routes && From(l, r, runtime.services, Hex(deployment)[..12])
    ensures WithoutHash(l)
  {
    var service := FindService(runtime.services, r.service).value;
    RoutesArePaths(runtime, r);
    PathUnhashed(r.path);
    var i :| 0 <= i < |runtime.services| && runtime.services[i] == service;
    AliasUnhashed(service, deployment);
  }

  /**
   The gateway tells configurations apart by looking for a marker line: for every valid runtime
   it finds the one of the deployment that was rendered and of no other, and none in the default.
   */
  lemma MarkerTellsDeployment(deployment: DeploymentId, runtime: Runtime, other: DeploymentId)
    requires Valid(runtime)
    ensures AllKnown(runtime)
    ensures Contains(TextOf(deployment, runtime), Marker(other)) <==> other == deployment
    ensures !Contains(DEFAULT_TEXT, Marker(other))
  {
    EveryServiceIsFound(runtime);
    RenderedWithoutHash(deployment, runtime);
    MarkerIsItsOwn(deployment, other, Locations(runtime.services, ByLength(runtime.routes), Hex(deployment)[..12]));
    DefaultIsUnmarked(other);
  }
}
