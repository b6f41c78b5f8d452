/**
 The text of public-routes.conf, read the way nginx reads it: to which gateway it passes the
 requests for a hostname, and that this is the gateway of the project the hostname belongs to.
 */
module EdgeText {
  import opened ConfigLines
  import opened EdgeRender
  import opened NginxText
  import opened UuidText
  import opened Wrappers
  import EdgeHostname

  // ---------------------------------------------------------------- what a reader finds

  /** A server for the hostname that passes all its requests on to the named upstream. */
  predicate Serves(d: Directive, hostname: string, upstream: string) {
    && d.Block? && d.words == ["server"]
    && Simple(["listen", "80"]) in d.inside && Simple(["server_name", hostname]) in d.inside
    && exists l :: l in d.inside && PassesAll(l, upstream)
  }

  predicate PassesAll(d: Directive, upstream: string) {
    && d.Block? && d.words == ["location", "/"]
    && Simple(["proxy_pass", "http://" + upstream]) in d.inside
    && Simple([SET_HEADER, "Host", "$host"]) in d.inside
  }

  /** An upstream of that name with that server, whose address is looked up again and again. */
  predicate Holds(d: Directive, upstream: string, address: string) {
    d.Block? && d.words == ["upstream", upstream] && Simple(["server", address, "resolve"]) in d.inside
  }

  /** Among the directives some server for the hostname passes requests on to an upstream at the address. */
  ghost predicate Leads(ds: seq<Directive>, hostname: string, address: string) {
    exists s, u, upstream :: s in ds && u in ds && Serves(s, hostname, upstream) && Holds(u, upstream, address)
  }

  // ---------------------------------------------------------------- the directives of a route

  function Address(t: Target): string {
    t.alias + ":8080"
  }

  function Pool(t: Target): seq<Directive> {
    [Simple(["zone", Upstream(t), "64k"]),
     Simple(["resolver", DOCKER_DNS, "valid=10s", "ipv6=off"]),
     Simple(["server", Address(t), "resolve"])]
  }

  function Passing(t: Target): seq<Directive> {
    [Simple(["proxy_pass", "http://" + Upstream(t)]),
     Simple(["proxy_http_version", "1.1"]),
     Simple([SET_HEADER, "Connection", ""]),
     Simple([SET_HEADER, "Host", "$host"]),
     Simple([SET_HEADER, "X-Forwarded-For", "$remote_addr"]),
     Simple([SET_HEADER, "X-Forwarded-Host", "$host"]),
     Simple([SET_HEADER, "X-Forwarded-Proto", "$scheme"])]
  }

  function Serving(t: Target): seq<Directive> {
    [Simple(["listen", "80"]), Simple(["server_name", t.hostname]), Block(["location", "/"], Passing(t))]
  }

  function Pair(t: Target): seq<Directive> {
    [Block(["upstream", Upstream(t)], Pool(t)), Block(["server"], Serving(t))]
  }

  function Pairs(ts: seq<Target>): seq<Directive> {
    if ts == [] then [] else Pairs(ts[..|ts| - 1]) + Pair(ts[|ts| - 1])
  }

  // ---------------------------------------------------------------- names stand unquoted

  lemma {:induction false} LabelsArePlain(s: string, i: nat)
    requires i <= |s| && EdgeHostname.Labels(s, i)
    requires forall j :: 0 <= j < i ==> s[j] != '.'
    ensures forall j :: 0 <= j < |s| ==> HostCharacter(s[j])
    ensures s != "" && EdgeHostname.Alphanumeric(s[0])
    decreases |s|, |s| - i
  {
    if i < |s| && s[i] == '.' {
      LabelsArePlain(s[i + 1..], 0);
      assert s[0] == s[..i][0];
      forall j | 0 <= j < |s| ensures HostCharacter(s[j]) {
        if j < i { assert s[j] == s[..i][j]; } else if j > i { assert s[j] == s[i + 1..][j - i - 1]; }
      }
    } else if i < |s| {
      LabelsArePlain(s, i + 1);
    }
  }

  predicate HostCharacter(c: char) {
    EdgeHostname.Alphanumeric(c) || c == '-' || c == '.'
  }

  lemma HostnameIsPlain(hostname: string)
    requires EdgeHostname.Valid(hostname)
    ensures Plain(hostname)
  {
    LabelsArePlain(hostname, 0);
  }

  lemma AliasIsPlain(alias: string)
    requires ValidAlias(alias)
    ensures Plain(alias)
  {
  }

  lemma UpstreamIsPlain(t: Target)
    ensures Plain(Upstream(t)) && Unbroken(Upstream(t))
  {
    HexIsRead(t.project);
    assert Plain("hm_edge_p");
    forall i | 0 <= i < 12 ensures !EndsWord(Digits(t)[i]) { assert HexDigit(Hex(t.project)[i]); }
    PlainBefore("hm_edge_p", Digits(t));
  }

  // ---------------------------------------------------------------- the upstream's lines

  lemma UpstreamHead(t: Target)
    ensures Yields(("upstream " + Upstream(t) + " {") + ['\n'], AsLexemes(["upstream", Upstream(t)]) + [Open])
  {
    UpstreamIsPlain(t);
    TwoSpaced("upstream", Upstream(t));
    assert Plain("upstream") && "upstream " == "upstream" + [' '] && " {" == [' '] + ['{'];
    HeadIsLine("", "upstream", Upstream(t));
    OpeningYields("upstream " + Upstream(t) + " {", "", ["upstream", Upstream(t)]);
  }

  lemma HeadIsLine(indent: string, a: string, b: string)
    ensures indent == "" ==> ((a + [' ']) + b) + ([' '] + ['{']) == indent + ((a + [' '] + b) + [' ']) + ['{']
  {
  }

  lemma ZoneLine(t: Target)
    ensures Yields(("    zone " + Upstream(t) + " 64k;") + ['\n'], Flat([Simple(["zone", Upstream(t), "64k"])]))
  {
    UpstreamIsPlain(t);
    ThreeSpaced("zone", Upstream(t), "64k");
    assert Plain("zone") && Plain("64k") && "    zone " == "    " + ("zone" + [' ']) && " 64k;" == [' '] + ("64k" + [';']);
    ThreeIsLine("    ", "zone", Upstream(t), "64k");
    LineYields("    zone " + Upstream(t) + " 64k;", "    ", ["zone", Upstream(t), "64k"]);
  }

  lemma ThreeIsLine(indent: string, a: string, b: string, c: string)
    ensures (indent + (a + [' '])) + b + ([' '] + (c + [';'])) == indent + ((a + [' '] + (b + [' '] + c)) + [';'])
  {
  }

  const RESOLVER := ["resolver", DOCKER_DNS, "valid=10s", "ipv6=off"]

  lemma ResolverIsPlain()
    ensures AllPlain(RESOLVER)
  {
  }

  lemma ResolverIsSpaced()
    ensures "    resolver " == "    " + ("resolver" + [' '])
    ensures " valid=10s ipv6=off;" == [' '] + ("valid=10s" + [' '] + "ipv6=off") + [';']
  {
  }

  lemma FourIsLine(indent: string, a: string, b: string, c: string)
    ensures (indent + (a + [' '])) + b + ([' '] + c + [';']) == indent + ((a + [' '] + (b + [' '] + c)) + [';'])
  {
  }

  lemma ResolverLine()
    ensures Yields(("    resolver " + DOCKER_DNS + " valid=10s ipv6=off;") + ['\n'], Flat([Simple(RESOLVER)]))
  {
    var options := "valid=10s" + [' '] + "ipv6=off";
    ResolverIsPlain();
    ResolverIsSpaced();
    ThreeSpaced(DOCKER_DNS, "valid=10s", "ipv6=off");
    assert RESOLVER[1..] == [DOCKER_DNS, "valid=10s", "ipv6=off"];
    FourIsLine("    ", "resolver", DOCKER_DNS, options);
    LineYields("    resolver " + DOCKER_DNS + " valid=10s ipv6=off;", "    ", RESOLVER);
  }

  lemma ServerLine(t: Target)
    requires ValidAlias(t.alias)
    ensures Yields(("    server " + t.alias + ":8080 resolve;") + ['\n'], Flat([Simple(["server", Address(t), "resolve"])]))
  {
    AliasIsPlain(t.alias);
    assert Plain("server") && Plain("resolve") && Unbroken(":8080");
    PlainBefore(t.alias, ":8080");
    ThreeSpaced("server", Address(t), "resolve");
    assert "    server " == "    " + ("server" + [' ']) && ":8080 resolve;" == ":8080" + ([' '] + ("resolve" + [';']));
    ThreeIsLine("    ", "server", Address(t), "resolve");
    AddressIsLine("    server ", t.alias, ":8080", [' '] + ("resolve" + [';']));
    LineYields("    server " + t.alias + ":8080 resolve;", "    ", ["server", Address(t), "resolve"]);
  }

  lemma AddressIsLine(a: string, b: string, c: string, d: string)
    ensures a + b + (c + d) == a + (b + c) + d
  {
  }

  function PoolLines(t: Target): seq<string> {
    ["    zone " + Upstream(t) + " 64k;",
     "    resolver " + DOCKER_DNS + " valid=10s ipv6=off;",
     "    server " + t.alias + ":8080 resolve;"]
  }

  lemma PoolYields(t: Target)
    requires ValidAlias(t.alias)
    ensures Yields(Lines(PoolLines(t)), Flat(Pool(t)))
  {
    ZoneLine(t);
    ResolverLine();
    ServerLine(t);
    ManyYield(PoolLines(t), Pool(t));
  }

  lemma UpstreamYields(t: Target)
    requires ValidAlias(t.alias)
    ensures Yields(Lines(UpstreamLines(t)), Flat([Block(["upstream", Upstream(t)], Pool(t))]))
  {
    var head, ds := "upstream " + Upstream(t) + " {", [Block(["upstream", Upstream(t)], Pool(t))];
    UpstreamHead(t);
    PoolYields(t);
    ClosingYields("}", "");
    BlockLines(head, ["upstream", Upstream(t)], PoolLines(t), Pool(t), "}");
    BlankLine();
    MoreLines([head] + PoolLines(t) + ["}"], Flat(ds), [""], []);
    assert Flat(ds) + [] == Flat(ds);
    assert UpstreamLines(t) == [head] + PoolLines(t) + ["}"] + [""];
  }

  // ---------------------------------------------------------------- the server's lines

  lemma PassLine(t: Target)
    ensures Yields(("        proxy_pass http://" + Upstream(t) + ";") + ['\n'],
                   Flat([Simple(["proxy_pass", "http://" + Upstream(t)])]))
  {
    var url := "http://" + Upstream(t);
    UpstreamIsPlain(t);
    assert Plain("proxy_pass") && Plain("http://");
    PlainBefore("http://", Upstream(t));
    TwoSpaced("proxy_pass", url);
    assert "        proxy_pass http://" == ("        " + ("proxy_pass" + [' '])) + "http://";
    PassIsLine("        ", "proxy_pass", "http://", Upstream(t));
    LineYields("        proxy_pass http://" + Upstream(t) + ";", "        ", ["proxy_pass", url]);
  }

  lemma PassIsLine(indent: string, a: string, b: string, c: string)
    ensures ((indent + (a + [' '])) + b) + c + [';'] == indent + ((a + [' '] + (b + c)) + [';'])
  {
  }

  lemma VersionLine()
    ensures Yields("        proxy_http_version 1.1;" + ['\n'], Flat([Simple(["proxy_http_version", "1.1"])]))
  {
    TwoSpaced("proxy_http_version", "1.1");
    assert Plain("proxy_http_version") && Plain("1.1");
    assert "        proxy_http_version 1.1;" == "        " + (("proxy_http_version" + [' '] + "1.1") + [';']);
    LineYields("        proxy_http_version 1.1;", "        ", ["proxy_http_version", "1.1"]);
  }

  lemma ConnectionIsPlain()
    ensures Plain("Connection") && "\"\"" == ['"'] + "" + ['"']
  {
  }

  /** The connection header is set to nothing, in quotes. */
  lemma ConnectionLine()
    ensures Yields(HeaderLine("Connection", "\"\"") + ['\n'], Flat([Simple([SET_HEADER, "Connection", ""])]))
  {
    ConnectionIsPlain();
    HeaderIsPlain();
    TwoSpaced(SET_HEADER, "Connection");
    IndentedYields("        ", [SET_HEADER, "Connection"], ' ');
    QuotedYields("");
    MarkYields(';');
    var front := "        " + (Spaced([SET_HEADER, "Connection"]) + [' ']);
    Both(front, AsLexemes([SET_HEADER, "Connection"]) + Mark(' '), "\"\"", [Word("")]);
    Both(front + "\"\"", AsLexemes([SET_HEADER, "Connection"]) + Mark(' ') + [Word("")], [';'], [End]);
    EmptyIsLine("        ", SET_HEADER, "Connection", "\"\"");
    EndOfLine(HeaderLine("Connection", "\"\""), AsLexemes([SET_HEADER, "Connection"]) + Mark(' ') + [Word("")] + [End]);
    FlatOne(Simple([SET_HEADER, "Connection", ""]));
    assert AsLexemes([SET_HEADER, "Connection"]) + Mark(' ') + [Word("")] == AsLexemes([SET_HEADER, "Connection", ""]);
  }

  lemma EmptyIsLine(indent: string, a: string, b: string, c: string)
    ensures (indent + (a + [' '])) + b + [' '] + c + [';'] == indent + ((a + [' '] + b) + [' ']) + c + [';']
  {
  }

  lemma ValuesArePlain()
    ensures Plain("Host") && Plain("$host") && Plain("X-Forwarded-For") && Plain("$remote_addr")
    ensures Plain("X-Forwarded-Host") && Plain("X-Forwarded-Proto") && Plain("$scheme")
  {
  }

  lemma HeaderLinesYield()
    ensures Yields(HeaderLine("Host", "$host") + ['\n'], Flat([Simple([SET_HEADER, "Host", "$host"])]))
    ensures Yields(HeaderLine("X-Forwarded-For", "$remote_addr") + ['\n'], Flat([Simple([SET_HEADER, "X-Forwarded-For", "$remote_addr"])]))
    ensures Yields(HeaderLine("X-Forwarded-Host", "$host") + ['\n'], Flat([Simple([SET_HEADER, "X-Forwarded-Host", "$host"])]))
    ensures Yields(HeaderLine("X-Forwarded-Proto", "$scheme") + ['\n'], Flat([Simple([SET_HEADER, "X-Forwarded-Proto", "$scheme"])]))
  {
    ValuesArePlain();
    HeaderYields("Host", "$host");
    HeaderYields("X-Forwarded-For", "$remote_addr");
    HeaderYields("X-Forwarded-Host", "$host");
    HeaderYields("X-Forwarded-Proto", "$scheme");
  }

  function PassingLines(t: Target): seq<string> {
    ["        proxy_pass http://" + Upstream(t) + ";",
     "        proxy_http_version 1.1;",
     HeaderLine("Connection", "\"\""),
     HeaderLine("Host", "$host"),
     HeaderLine("X-Forwarded-For", "$remote_addr"),
     HeaderLine("X-Forwarded-Host", "$host"),
     HeaderLine("X-Forwarded-Proto", "$scheme")]
  }

  lemma PassingYields(t: Target)
    ensures Yields(Lines(PassingLines(t)), Flat(Passing(t)))
  {
    PassLine(t);
    VersionLine();
    ConnectionLine();
    HeaderLinesYield();
    ManyYield(PassingLines(t), Passing(t));
  }

  lemma LocationYields(t: Target)
    ensures Yields(Lines(["    location / {"] + PassingLines(t) + ["    }"]), Flat([Block(["location", "/"], Passing(t))]))
  {
    TwoSpaced("location", "/");
    assert Plain("location") && Plain("/");
    assert "    location / {" == "    " + (("location" + [' '] + "/") + [' ']) + ['{'];
    OpeningYields("    location / {", "    ", ["location", "/"]);
    PassingYields(t);
    ClosingYields("    }", "    ");
    BlockLines("    location / {", ["location", "/"], PassingLines(t), Passing(t), "    }");
  }

  function NameLines(t: Target): seq<string> {
    ["    listen 80;", "    server_name " + t.hostname + ";"]
  }

  function Names(t: Target): seq<Directive> {
    [Simple(["listen", "80"]), Simple(["server_name", t.hostname])]
  }

  lemma ListenLine()
    ensures Yields("    listen 80;" + ['\n'], Flat([Simple(["listen", "80"])]))
  {
    TwoWordLine("    listen 80;", "listen", "80");
  }

  lemma NamesYield(t: Target)
    requires EdgeHostname.Valid(t.hostname)
    ensures Yields(Lines(NameLines(t) + [""]), Flat(Names(t)))
  {
    HostnameIsPlain(t.hostname);
    ListenLine();
    assert Plain("server_name") && "    server_name " == "    " + ("server_name" + [' ']) && ";" == [';'];
    TwoWordLine("    server_name " + t.hostname + ";", "server_name", t.hostname);
    ManyYield(NameLines(t), Names(t));
    BlankLine();
    MoreLines(NameLines(t), Flat(Names(t)), [""], []);
    assert Flat(Names(t)) + [] == Flat(Names(t));
  }

  function ServingLines(t: Target): seq<string> {
    (NameLines(t) + [""]) + (["    location / {"] + PassingLines(t) + ["    }"])
  }

  lemma ServingYields(t: Target)
    requires EdgeHostname.Valid(t.hostname)
    ensures Yields(Lines(ServingLines(t)), Flat(Serving(t)))
  {
    var ds := [Block(["location", "/"], Passing(t))];
    NamesYield(t);
    LocationYields(t);
    MoreLines(NameLines(t) + [""], Flat(Names(t)), ["    location / {"] + PassingLines(t) + ["    }"], Flat(ds));
    FlatAppend(Names(t), ds);
    assert Names(t) + ds == Serving(t);
  }

  lemma ServerYields(t: Target)
    requires EdgeHostname.Valid(t.hostname)
    ensures Yields(Lines(["server {"] + ServingLines(t) + ["}"]), Flat([Block(["server"], Serving(t))]))
  {
    assert Plain("server") && "server {" == "" + (Spaced(["server"]) + [' ']) + ['{'];
    OpeningYields("server {", "", ["server"]);
    ServingYields(t);
    ClosingYields("}", "");
    BlockLines("server {", ["server"], ServingLines(t), Serving(t), "}");
  }

  lemma ServerInLines(t: Target)
    ensures ServerLines(t) == (["server {"] + ServingLines(t) + ["}"]) + [""]
  {
    assert ServingLines(t) == NameLines(t) + ["", "    location / {"] + PassingLines(t) + ["    }"];
  }

  // ---------------------------------------------------------------- the whole file

  lemma SectionYields(t: Target)
    requires Passes(t)
    ensures Yields(Section(t), Flat(Pair(t)))
  {
    var upstream, server := Block(["upstream", Upstream(t)], Pool(t)), Block(["server"], Serving(t));
    var serverLines := ["server {"] + ServingLines(t) + ["}"];
    UpstreamYields(t);
    ServerYields(t);
    MoreLines(UpstreamLines(t), Flat([upstream]), serverLines, Flat([server]));
    FlatAppend([upstream], [server]);
    assert [upstream] + [server] == Pair(t);
    ServerInLines(t);
    JoinedLines(UpstreamLines(t) + serverLines);
    assert UpstreamLines(t) + serverLines + [""] == UpstreamLines(t) + ServerLines(t);
  }

  lemma {:induction false} JoinMore(lines: seq<string>, line: string)
    requires lines != []
    ensures Join(lines + [line]) == Join(lines) + (['\n'] + line)
    decreases |lines|
  {
    assert (lines + [line])[1..] == lines[1..] + [line];
    if |lines| > 1 {
      JoinMore(lines[1..], line);
      Regroup(lines[0] + "\n", Join(lines[1..]), ['\n'] + line);
    } else {
      assert Join(lines[1..] + [line]) == line by { assert lines[1..] + [line] == [line]; }
      Regroup(lines[0], ['\n'], line);
    }
  }

  lemma HeaderComment()
    ensures Yields(HEADER, [])
  {
    var s, t := " Generated by Heimdall ", "Routing Worker. Do not edit.";
    assert '\n' !in s && '\n' !in t;
    assert "# Generated by Heimdall " == ['#'] + s && "Routing Worker. Do not edit.\n" == t + ['\n'];
    assert HEADER == ['#'] + (s + t) + ['\n'];
    CommentYields(s + t);
  }

  predicate AllPass(ts: seq<Target>) {
    forall i :: 0 <= i < |ts| ==> Passes(ts[i])
  }

  lemma SectionMore(sections: seq<string>, ds: seq<Directive>, section: string, more: seq<Directive>)
    requires sections != [] && Yields(Join(sections), Flat(ds)) && Yields(section, Flat(more))
    ensures Yields(Join(sections + [section]), Flat(ds + more))
  {
    MarkYields('\n');
    Both(['\n'], [], section, Flat(more));
    assert [] + Flat(more) == Flat(more);
    Both(Join(sections), Flat(ds), ['\n'] + section, Flat(more));
    JoinMore(sections, section);
    FlatAppend(ds, more);
  }

  lemma SectionsMore(ts: seq<Target>)
    requires ts != []
    ensures [HEADER] + Sections(ts) == ([HEADER] + Sections(ts[..|ts| - 1])) + [Section(ts[|ts| - 1])]
  {
  }

  lemma {:induction false} TextYields(ts: seq<Target>)
    requires AllPass(ts)
    ensures Yields(Text(ts), Flat(Pairs(ts)))
    decreases |ts|
  {
    if ts == [] {
      HeaderComment();
      assert [HEADER] + Sections(ts) == [HEADER];
    } else {
      var n := |ts| - 1;
      TextYields(ts[..n]);
      SectionYields(ts[n]);
      SectionMore([HEADER] + Sections(ts[..n]), Pairs(ts[..n]), Section(ts[n]), Pair(ts[n]));
      SectionsMore(ts);
    }
  }

  lemma PairIsNamed(t: Target)
    ensures AllNamed(Pair(t))
  {
    NamedEach(Pool(t));
    NamedEach(Passing(t));
    NamedEach(Serving(t));
  }

  lemma {:induction false} PairsAreNamed(ts: seq<Target>)
    ensures AllNamed(Pairs(ts))
    decreases |ts|
  {
    if ts != [] {
      PairsAreNamed(ts[..|ts| - 1]);
      PairIsNamed(ts[|ts| - 1]);
    }
  }

  /** nginx reads from the text an upstream and a server for every target, and nothing else. */
  lemma TextIsRead(ts: seq<Target>)
    requires AllPass(ts)
    ensures Read(Text(ts)) == Some(Pairs(ts))
  {
    TextYields(ts);
    PairsAreNamed(ts);
    NamedEach(Pairs(ts));
    YieldsIsRead(Text(ts), Pairs(ts));
  }

  // ---------------------------------------------------------------- where requests go

  lemma NamedServer(t: Target, hostname: string)
    ensures Simple(["server_name", hostname]) in Serving(t) <==> hostname == t.hostname
  {
    assert ["server_name", hostname][1] == hostname && ["server_name", t.hostname][1] == t.hostname;
    assert ["server_name", hostname][0] != ["listen", "80"][0];
    assert Serving(t)[1] == Simple(["server_name", t.hostname]);
  }

  lemma ListensOn80(t: Target)
    ensures Simple(["listen", "80"]) in Serving(t)
  {
    assert Serving(t)[0] == Simple(["listen", "80"]);
  }

  lemma SameUrl(a: string, b: string)
    requires ["proxy_pass", "http://" + a] == ["proxy_pass", "http://" + b]
    ensures a == b
  {
    assert ["proxy_pass", "http://" + a][1] == ["proxy_pass", "http://" + b][1];
    assert ("http://" + a)[7..] == a && ("http://" + b)[7..] == b;
  }

  lemma PassedUpstream(t: Target, upstream: string)
    ensures PassesAll(Block(["location", "/"], Passing(t)), upstream) <==> upstream == Upstream(t)
  {
    var pass := Simple(["proxy_pass", "http://" + upstream]);
    assert Passing(t)[0] == Simple(["proxy_pass", "http://" + Upstream(t)]) && Passing(t)[3] == Simple([SET_HEADER, "Host", "$host"]);
    if pass in Passing(t) {
      OnlyFirstPasses(t, pass);
      SameUrl(upstream, Upstream(t));
    }
  }

  lemma OnlyFirstPasses(t: Target, d: Directive)
    requires d in Passing(t) && d.Simple? && |d.words| == 2 && d.words[0] == "proxy_pass"
    ensures d == Passing(t)[0]
  {
    assert |[SET_HEADER, "Connection", ""]| == 3;
  }

  lemma ServerOf(t: Target, hostname: string, upstream: string)
    ensures Serves(Block(["server"], Serving(t)), hostname, upstream) <==> hostname == t.hostname && upstream == Upstream(t)
  {
    var location := Block(["location", "/"], Passing(t));
    NamedServer(t, hostname);
    ListensOn80(t);
    PassedUpstream(t, upstream);
    assert Serving(t)[2] == location;
    assert forall l :: l in Serving(t) && l.Block? ==> l == location;
  }

  lemma UpstreamOf(t: Target, upstream: string, address: string)
    ensures Holds(Block(["upstream", Upstream(t)], Pool(t)), upstream, address) <==> upstream == Upstream(t) && address == Address(t)
  {
    assert ["upstream", upstream][1] == upstream && ["upstream", Upstream(t)][1] == Upstream(t);
    assert Pool(t)[2] == Simple(["server", Address(t), "resolve"]);
    assert ["server", address, "resolve"][1] == address && ["server", Address(t), "resolve"][1] == Address(t);
    assert ["server", address, "resolve"][0] != ["zone", Upstream(t), "64k"][0];
    assert |["resolver", DOCKER_DNS, "valid=10s", "ipv6=off"]| == 4;
  }

  lemma {:induction false} PairsComeFromTargets(ts: seq<Target>, d: Directive)
    ensures d in Pairs(ts) <==> exists t :: t in ts && d in Pair(t)
    decreases |ts|
  {
    if ts != [] {
      var n := |ts| - 1;
      PairsComeFromTargets(ts[..n], d);
      assert ts == ts[..n] + [ts[n]];
    }
  }

  lemma ServingPair(t: Target, d: Directive, hostname: string, upstream: string)
    ensures d in Pair(t) && Serves(d, hostname, upstream)
            <==> d == Block(["server"], Serving(t)) && hostname == t.hostname && upstream == Upstream(t)
  {
    ServerOf(t, hostname, upstream);
    assert Pair(t)[1] == Block(["server"], Serving(t));
    assert |["upstream", Upstream(t)]| == 2;
  }

  lemma HoldingPair(t: Target, d: Directive, upstream: string, address: string)
    ensures d in Pair(t) && Holds(d, upstream, address)
            <==> d == Block(["upstream", Upstream(t)], Pool(t)) && upstream == Upstream(t) && address == Address(t)
  {
    UpstreamOf(t, upstream, address);
    assert Pair(t)[0] == Block(["upstream", Upstream(t)], Pool(t));
    assert |["upstream", upstream]| == 2;
  }

  lemma SameUpstream(t: Target, u: Target)
    ensures Upstream(t) == Upstream(u) <==> Hex(t.project)[..12] == Hex(u.project)[..12]
  {
    assert ("hm_edge_p" + Digits(t))[9..] == Digits(t) && ("hm_edge_p" + Digits(u))[9..] == Digits(u);
  }

  /** t is the route of the hostname, and the address that of u's gateway, which t's upstream cannot be told from. */
  predicate Joined(t: Target, u: Target, hostname: string, address: string) {
    t.hostname == hostname && address == u.alias + ":8080" && Hex(t.project)[..12] == Hex(u.project)[..12]
  }

  lemma LeadsThroughPairs(ts: seq<Target>, hostname: string, address: string)
    ensures Leads(Pairs(ts), hostname, address) <==> exists t, u :: t in ts && u in ts && Joined(t, u, hostname, address)
  {
    if Leads(Pairs(ts), hostname, address) {
      var s, d, upstream :| s in Pairs(ts) && d in Pairs(ts) && Serves(s, hostname, upstream) && Holds(d, upstream, address);
      PairsComeFromTargets(ts, s);
      PairsComeFromTargets(ts, d);
      var t :| t in ts && s in Pair(t);
      var u :| u in ts && d in Pair(u);
      ServingPair(t, s, hostname, upstream);
      HoldingPair(u, d, upstream, address);
      SameUpstream(t, u);
      assert Joined(t, u, hostname, address);
    }
    if t, u :| t in ts && u in ts && Joined(t, u, hostname, address) {
      var s, d := Block(["server"], Serving(t)), Block(["upstream", Upstream(u)], Pool(u));
      SameUpstream(t, u);
      ServingPair(t, s, hostname, Upstream(t));
      HoldingPair(u, d, Upstream(t), address);
      PairsComeFromTargets(ts, s);
      PairsComeFromTargets(ts, d);
    }
  }

  lemma SortedPass(listing: seq<Target>)
    requires Acceptable(listing)
    ensures AllPass(ByHostname(listing))
  {
    forall i | 0 <= i < |listing| ensures Passes(ByHostname(listing)[i]) { assert ByHostname(listing)[i] in listing; }
  }

  /**
   In every rendered file nginx finds for a hostname the gateways of the routes listed under it,
   up to ids with the same first twelve digits, which the file cannot tell apart.
   */
  lemma FileLeads(listing: seq<Target>, text: string, hostname: string, address: string)
    requires Rendered(listing) == Success(text)
    ensures Read(text).Some?
    ensures Leads(Read(text).value, hostname, address)
            <==> exists t, u :: t in listing && u in listing && Joined(t, u, hostname, address)
  {
    SortedPass(listing);
    TextIsRead(ByHostname(listing));
    LeadsThroughPairs(ByHostname(listing), hostname, address);
    assert forall x :: x in ByHostname(listing) <==> x in listing;
  }

  predicate ToldApart(listing: seq<Target>) {
    forall i, j :: 0 <= i < j < |listing| ==> Hex(listing[i].project)[..12] != Hex(listing[j].project)[..12]
  }

  /** When the ids differ there, requests for a hostname go to its own gateway and for others nowhere. */
  lemma HostnameReachesItsGateway(listing: seq<Target>, text: string, hostname: string, address: string)
    requires Rendered(listing) == Success(text) && ToldApart(listing)
    ensures Read(text).Some?
    ensures Leads(Read(text).value, hostname, address)
            <==> exists t :: t in listing && t.hostname == hostname && address == t.alias + ":8080"
  {
    FileLeads(listing, text, hostname, address);
    if t :| t in listing && t.hostname == hostname && address == t.alias + ":8080" {
      assert Joined(t, t, hostname, address);
    }
    if t, u :| t in listing && u in listing && Joined(t, u, hostname, address) {
      var i :| 0 <= i < |listing| && listing[i] == t;
      var j :| 0 <= j < |listing| && listing[j] == u;
      assert i == j;
    }
  }

  // ---------------------------------------------------------------- the file determines the routes

  /** The same to a reader of the file. */
  predicate Alike(t: Target, u: Target) {
    t.hostname == u.hostname && t.alias == u.alias && Hex(t.project)[..12] == Hex(u.project)[..12]
  }

  lemma PairDetermines(t: Target, u: Target)
    requires Pair(t) == Pair(u)
    ensures Alike(t, u)
  {
    assert Pair(t)[0] == Pair(u)[0] && Pair(t)[1] == Pair(u)[1];
    ServerOf(t, t.hostname, Upstream(t));
    ServerOf(u, t.hostname, Upstream(t));
    UpstreamOf(t, Upstream(t), Address(t));
    UpstreamOf(u, Upstream(t), Address(t));
    SameUpstream(t, u);
    assert Address(t)[..|Address(t)| - 5] == t.alias && Address(u)[..|Address(u)| - 5] == u.alias;
  }

  lemma {:induction false} PairsDetermine(a: seq<Target>, b: seq<Target>)
    requires Pairs(a) == Pairs(b)
    ensures |a| == |b| && forall i :: 0 <= i < |a| ==> Alike(a[i], b[i])
    decreases |a|
  {
    if a != [] && b != [] {
      var n, m, ds := |a| - 1, |b| - 1, Pairs(a);
      assert ds[|ds| - 2..] == Pair(a[n]) && ds[|ds| - 2..] == Pair(b[m]);
      assert ds[..|ds| - 2] == Pairs(a[..n]) && ds[..|ds| - 2] == Pairs(b[..m]);
      PairDetermines(a[n], b[m]);
      PairsDetermine(a[..n], b[..m]);
      assert forall i :: 0 <= i < n ==> a[..n][i] == a[i] && b[..m][i] == b[i];
    }
  }

  /** Two listings are rendered to the same file only if they have the same routes, as far as the file tells. */
  lemma FileDeterminesRoutes(a: seq<Target>, b: seq<Target>)
    requires Rendered(a).Success? && Rendered(a) == Rendered(b)
    ensures |a| == |b|
    ensures forall t :: t in a ==> exists u :: u in b && Alike(t, u)
  {
    SortedPass(a);
    SortedPass(b);
    TextIsRead(ByHostname(a));
    TextIsRead(ByHostname(b));
    PairsDetermine(ByHostname(a), ByHostname(b));
    forall t | t in a ensures exists u :: u in b && Alike(t, u) {
      assert t in ByHostname(a);
      var i :| 0 <= i < |a| && ByHostname(a)[i] == t;
      assert ByHostname(b)[i] in b;
    }
  }

  lemma PlaceholderIsComment(s: string)
    requires s == " No active public project routes."
    ensures "# No active public project routes.\n" == ['#'] + s + ['\n'] && '\n' !in s
  {
  }

  /** The placeholder for no routes has no directive at all. */
  lemma PlaceholderLeadsNowhere(text: string, hostname: string, address: string)
    requires text == "# No active public project routes.\n"
    ensures Read(text) == Some([]) && !Leads([], hostname, address)
  {
    var s := " No active public project routes.";
    PlaceholderIsComment(s);
    CommentYields(s);
    YieldsIsRead(text, []);
  }
}
