/** Why the routing host may speak of route maps and sizes where the program handles rendered text. */
module RenderedRoutes {
  import opened Wrappers
  import opened Ids
  import EdgeHostname
  import EdgeJournal
  import EdgeRender
  import EdgeText
  import NginxText
  import RoutingHost
  import RoutingTheorems
  import Utf8

  /** The listing has one target for every project of the map, in some order. */
  predicate Lists(targets: map<ProjectId, string>, projects: seq<ProjectId>, listing: seq<EdgeRender.Target>) {
    && |listing| == |projects| == |targets|
    && (forall i, j :: 0 <= i < j < |projects| ==> projects[i] != projects[j])
    && (forall i :: 0 <= i < |projects| ==>
          projects[i] in targets && listing[i].project == projects[i] && listing[i].hostname == targets[projects[i]])
    && (forall p :: p in targets ==> p in projects)
    && (forall i :: 0 <= i < |listing| ==> EdgeRender.ValidAlias(listing[i].alias))
  }

  lemma AcceptableTargets(targets: map<ProjectId, string>, projects: seq<ProjectId>, listing: seq<EdgeRender.Target>)
    requires Lists(targets, projects, listing)
    requires forall p :: p in targets ==> EdgeHostname.Valid(targets[p])
    requires forall p, q :: p in targets && q in targets && p != q ==> targets[p] != targets[q]
    ensures EdgeRender.Acceptable(listing)
  {
  }

  lemma TargetsOfAcceptable(targets: map<ProjectId, string>, projects: seq<ProjectId>, listing: seq<EdgeRender.Target>)
    requires Lists(targets, projects, listing) && EdgeRender.Acceptable(listing)
    ensures forall p :: p in targets ==> EdgeHostname.Valid(targets[p])
    ensures forall p, q :: p in targets && q in targets && p != q ==> targets[p] != targets[q]
  {
    forall p | p in targets ensures EdgeHostname.Valid(targets[p]) {
      var i :| 0 <= i < |projects| && projects[i] == p;
      assert EdgeHostname.Valid(listing[i].hostname);
    }
    forall p, q | p in targets && q in targets && p != q ensures targets[p] != targets[q] {
      var i :| 0 <= i < |projects| && projects[i] == p;
      var j :| 0 <= j < |projects| && projects[j] == q;
      assert if i < j then listing[i].hostname != listing[j].hostname else listing[j].hostname != listing[i].hostname;
    }
  }

  function ConfigSize(listing: seq<EdgeRender.Target>): nat {
    |Utf8.EncodeAll(EdgeRender.Text(EdgeRender.ByHostname(listing)))|
  }

  lemma RenderedIff(listing: seq<EdgeRender.Target>)
    ensures EdgeRender.Rendered(listing).Success?
            <==> |listing| <= 1000 && EdgeRender.Acceptable(listing) && ConfigSize(listing) <= 1_048_576
  {
  }

  lemma RenderableIffAcceptable(targets: map<ProjectId, string>, projects: seq<ProjectId>, listing: seq<EdgeRender.Target>, size: nat)
    requires Lists(targets, projects, listing)
    ensures RoutingHost.Renderable(targets, size) <==> |listing| <= 1000 && EdgeRender.Acceptable(listing) && size <= 1_048_576
  {
    if EdgeRender.Acceptable(listing) { TargetsOfAcceptable(targets, projects, listing); }
    if RoutingHost.Renderable(targets, size) { AcceptableTargets(targets, projects, listing); }
  }

  /** A plan can be rendered in the routing host's sense exactly if the program renders its listing. */
  lemma RenderableIsRendered(targets: map<ProjectId, string>, projects: seq<ProjectId>, listing: seq<EdgeRender.Target>)
    requires Lists(targets, projects, listing)
    ensures EdgeRender.Rendered(listing).Success? <==> RoutingHost.Renderable(targets, ConfigSize(listing))
  {
    RenderedIff(listing);
    RenderableIffAcceptable(targets, projects, listing, ConfigSize(listing));
  }

  // ---------------------------------------------------------------- the journal

  const NO_ROUTES := "# No active public project routes.\n"

  /** Texts that the configs of the routing host may stand for. */
  ghost predicate Renders(text: RoutingHost.Config -> string) {
    && text(RoutingHost.NoRoutes) == NO_ROUTES
    && forall routes, size :: |Utf8.EncodeAll(text(RoutingHost.Generated(routes, size)))| == size
  }

  function JournalOf(t: RoutingHost.Transaction, text: RoutingHost.Config -> string): EdgeJournal.Transaction {
    EdgeJournal.Transaction(text(t.previous), text(t.candidate), t.previousHostname,
                            if t.phase == RoutingHost.JournalPrepared then EdgeJournal.Prepared else EdgeJournal.Committed)
  }

  /** What recovery makes of the text of the journal and of public-routes.conf. */
  predicate TextAccepted(journal: string, current: Option<string>) {
    var t := EdgeJournal.Read(journal);
    t.Some? && current.Some? && current.value in {t.value.previous, t.value.candidate}
  }

  lemma ConfigIsBounded(c: RoutingHost.Config, text: RoutingHost.Config -> string)
    requires Renders(text)
    ensures EdgeJournal.Bounded(text(c)) <==> RoutingHost.Bounded(c)
  {
    if c.NoRoutes? { Utf8.AsciiSize(NO_ROUTES); }
  }

  /** A journal passes the routing host's checks exactly if its text is read back as what was written. */
  lemma ParsesIsReadBack(t: RoutingHost.Transaction, text: RoutingHost.Config -> string)
    requires Renders(text)
    ensures RoutingHost.Parses(t) <==> EdgeJournal.Read(EdgeJournal.Write(JournalOf(t, text))) == Some(JournalOf(t, text))
  {
    ConfigIsBounded(t.previous, text);
    ConfigIsBounded(t.candidate, text);
    EdgeJournal.JournalRoundTrip(JournalOf(t, text));
  }

  /** At every point of every run recovery accepts the journal as the text that was written. */
  lemma RecoveryAcceptsText(maxAttempts: nat, run: seq<RoutingHost.Step>, text: RoutingHost.Config -> string)
    requires Renders(text)
    ensures var f := RoutingHost.After(RoutingHost.Init(maxAttempts), run).files;
            f.journal.Some? ==>
              TextAccepted(EdgeJournal.Write(JournalOf(f.journal.value, text)),
                           if f.config.Some? then Some(text(f.config.value)) else None)
  {
    var f := RoutingHost.After(RoutingHost.Init(maxAttempts), run).files;
    RoutingTheorems.RecoveryAccepts(maxAttempts, run);
    if f.journal.Some? { ParsesIsReadBack(f.journal.value, text); }
  }

  /** The text is the placeholder, or what the renderer makes of some listing of the config's routes. */
  ghost predicate IsRendering(text: string, c: RoutingHost.Config) {
    match c
    case NoRoutes => text == NO_ROUTES
    case Generated(routes, size) =>
      exists projects, listing ::
        Lists(routes, projects, listing) && EdgeRender.Rendered(listing) == Success(text) && size == ConfigSize(listing)
  }

  function Filler(size: nat): (text: string)
    ensures |Utf8.EncodeAll(text)| == size
  {
    if size == 0 then "" else ['#'] + Filler(size - 1)
  }

  lemma RenderedHasSize(listing: seq<EdgeRender.Target>, text: string)
    requires EdgeRender.Rendered(listing) == Success(text)
    ensures |Utf8.EncodeAll(text)| == ConfigSize(listing)
  {
  }

  lemma RenderingHasSize(text: string, c: RoutingHost.Config)
    requires IsRendering(text, c) && c.Generated?
    ensures |Utf8.EncodeAll(text)| == c.size
  {
    var projects, listing :|
      Lists(c.routes, projects, listing) && EdgeRender.Rendered(listing) == Success(text) && c.size == ConfigSize(listing);
    RenderedHasSize(listing, text);
  }

  function TextAmong(texts: map<RoutingHost.Config, string>, c: RoutingHost.Config): string {
    if c in texts then texts[c] else if c.NoRoutes? then NO_ROUTES else Filler(c.size)
  }

  lemma TextHasSize(texts: map<RoutingHost.Config, string>, c: RoutingHost.Config)
    requires c in texts ==> IsRendering(texts[c], c)
    ensures if c.NoRoutes? then TextAmong(texts, c) == NO_ROUTES else |Utf8.EncodeAll(TextAmong(texts, c))| == c.size
  {
    if c in texts && c.Generated? { RenderingHasSize(texts[c], c); }
  }

  /** Rendered texts are among those that the configs may stand for. */
  lemma RenderingsRender(texts: map<RoutingHost.Config, string>)
    requires forall c :: c in texts ==> IsRendering(texts[c], c)
    ensures Renders(c => TextAmong(texts, c))
  {
    TextHasSize(texts, RoutingHost.NoRoutes);
    forall routes, size ensures |Utf8.EncodeAll(TextAmong(texts, RoutingHost.Generated(routes, size)))| == size {
      TextHasSize(texts, RoutingHost.Generated(routes, size));
    }
  }

  /** The same of the very texts that the renderer wrote. */
  lemma RecoveryAcceptsRendered(maxAttempts: nat, run: seq<RoutingHost.Step>, texts: map<RoutingHost.Config, string>)
    requires var f := RoutingHost.After(RoutingHost.Init(maxAttempts), run).files;
             f.journal.Some? && f.config.Some? && {f.journal.value.previous, f.journal.value.candidate, f.config.value} <= texts.Keys
    requires forall c :: c in texts ==> IsRendering(texts[c], c)
    ensures var f := RoutingHost.After(RoutingHost.Init(maxAttempts), run).files;
            TextAccepted(EdgeJournal.Write(JournalOf(f.journal.value, c => TextAmong(texts, c))), Some(texts[f.config.value]))
  {
    RenderingsRender(texts);
    RecoveryAcceptsText(maxAttempts, run, c => TextAmong(texts, c));
  }

  // ---------------------------------------------------------------- what a config serves

  /** nginx finds a gateway for the hostname in the text. */
  ghost predicate Served(text: string, hostname: string) {
    && NginxText.Read(text).Some?
    && exists address :: EdgeText.Leads(NginxText.Read(text).value, hostname, address)
  }

  ghost predicate ListedUnder(c: RoutingHost.Config, hostname: string) {
    c.Generated? && exists p :: p in c.routes && c.routes[p] == hostname
  }

  lemma ListingServes(listing: seq<EdgeRender.Target>, text: string, hostname: string)
    requires EdgeRender.Rendered(listing) == Success(text)
    ensures Served(text, hostname) <==> exists t :: t in listing && t.hostname == hostname
  {
    EdgeText.FileLeads(listing, text, hostname, "");
    if Served(text, hostname) {
      var address :| EdgeText.Leads(NginxText.Read(text).value, hostname, address);
      EdgeText.FileLeads(listing, text, hostname, address);
    }
    if t :| t in listing && t.hostname == hostname {
      EdgeText.FileLeads(listing, text, hostname, t.alias + ":8080");
      assert EdgeText.Joined(t, t, hostname, t.alias + ":8080");
    }
  }

  lemma ListedAre(targets: map<ProjectId, string>, projects: seq<ProjectId>, listing: seq<EdgeRender.Target>, hostname: string)
    requires Lists(targets, projects, listing)
    ensures (exists t :: t in listing && t.hostname == hostname) <==> exists p :: p in targets && targets[p] == hostname
  {
    if t :| t in listing && t.hostname == hostname {
      var i :| 0 <= i < |listing| && listing[i] == t;
      assert targets[projects[i]] == hostname;
    }
    if p :| p in targets && targets[p] == hostname {
      var i :| 0 <= i < |projects| && projects[i] == p;
      assert listing[i].hostname == hostname;
    }
  }

  /** The hostnames served from the text of a config are those of the routes the routing host means by it. */
  lemma ServedAsMeant(text: string, c: RoutingHost.Config, hostname: string)
    requires IsRendering(text, c)
    ensures Served(text, hostname) <==> ListedUnder(c, hostname)
  {
    if c.NoRoutes? {
      EdgeText.PlaceholderLeadsNowhere(text, hostname, "");
    } else {
      var projects, listing :|
        Lists(c.routes, projects, listing) && EdgeRender.Rendered(listing) == Success(text) && c.size == ConfigSize(listing);
      ListingServes(listing, text, hostname);
      ListedAre(c.routes, projects, listing, hostname);
    }
  }

  ghost predicate AppliedUnder(w: RoutingHost.World, hostname: string) {
    exists p :: RoutingTheorems.IsApplied(w.db, p, hostname)
  }

  lemma ListedIsApplied(w: RoutingHost.World, c: RoutingHost.Config, hostname: string)
    requires forall p, h :: RoutingTheorems.IsApplied(w.db, p, h)
               <==> p in RoutingHost.RoutesOf(Some(c)) && RoutingHost.RoutesOf(Some(c))[p] == h
    ensures ListedUnder(c, hostname) <==> AppliedUnder(w, hostname)
  {
    if ListedUnder(c, hostname) {
      var p :| p in c.routes && c.routes[p] == hostname;
      assert RoutingTheorems.IsApplied(w.db, p, hostname);
    }
  }

  /**
   From the rows to what nginx reads: whenever the worker is between two jobs and owes nothing,
   the text on disk serves a hostname if and only if some project's row says it is applied.
   */
  lemma TextServesApplied(maxAttempts: nat, run: seq<RoutingHost.Step>, text: string, hostname: string)
    requires var w := RoutingHost.After(RoutingHost.Init(maxAttempts), run);
             && w.worker == RoutingHost.Idle(false) && w.stale == None
             && w.files.config.Some? && IsRendering(text, w.files.config.value)
    ensures var w := RoutingHost.After(RoutingHost.Init(maxAttempts), run);
            Served(text, hostname) <==> AppliedUnder(w, hostname)
  {
    var w := RoutingHost.After(RoutingHost.Init(maxAttempts), run);
    RoutingTheorems.FileShowsApplied(maxAttempts, run);
    ServedAsMeant(text, w.files.config.value, hostname);
    ListedIsApplied(w, w.files.config.value, hostname);
  }
}
