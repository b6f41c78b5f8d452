/**
 What a project owns in Docker and on disk: the names its rows imply, what the labels of an
 object must say, the directories, and the order in which a teardown removes it all.
 */
module Teardown {
  import opened Wrappers
  import opened Ids
  import opened UuidText

  datatype DockerKind = Container | Network | Image
  datatype LabelKind = GatewayLabel | ServiceLabel | NetworkLabel | ImageLabel

  datatype Resource = Resource(docker: DockerKind, kind: LabelKind, name: string, deployment: Option<DeploymentId>)

  datatype Labels = Labels(managed: bool, project: Option<ProjectId>, kind: Option<LabelKind>, deployment: Option<DeploymentId>)
  datatype Object = Object(id: string, labels: Labels)
  datatype Key = Key(docker: DockerKind, name: string)

  /** services is absent when the configuration snapshot does not parse. */
  datatype Deployment = Deployment(id: DeploymentId, project: ProjectId, services: Option<seq<string>>)

  datatype Runtime = Runtime(project: ProjectId, gatewayName: string, active: Option<DeploymentId>, network: Option<string>,
                             containers: seq<string>, images: seq<string>)

  datatype Target = Workspace(deployment: DeploymentId) | GatewayDirectory(project: ProjectId)

  datatype Error = Unsure(retryable: bool) | FilesystemUnsure | GuardRejected | ClaimLost

  // ---------------------------------------------------------------- names and expected resources

  /** What the names of a project's containers and networks, and of its images, begin with. */
  function Prefix(p: ProjectId): string {
    "hm-p" + Hex(p)[..12] + "-"
  }

  function Repository(p: ProjectId): string {
    "heimdall/" + Hex(p) + ":"
  }

  function GatewayName(p: ProjectId): string {
    Prefix(p) + "gateway"
  }

  function NetworkName(p: ProjectId, d: DeploymentId): string {
    Prefix(p) + ("g" + Hex(d)[..12])
  }

  function ContainerName(p: ProjectId, service: string, d: DeploymentId): string {
    Prefix(p) + (service + "-g" + Hex(d)[..12])
  }

  function ImageName(p: ProjectId, service: string, d: DeploymentId): string {
    Repository(p) + ("g" + Hex(d)[..12] + "-" + service)
  }

  /** The name is of the form that Heimdall gives to objects of the project. */
  predicate BearsName(k: Key, p: ProjectId) {
    (if k.docker == Image then Repository(p) else Prefix(p)) <= k.name
  }

  function OfServices(p: ProjectId, d: DeploymentId, services: seq<string>): seq<Resource> {
    if services == [] then []
    else OfServices(p, d, services[..|services| - 1])
         + [Resource(Container, ServiceLabel, ContainerName(p, services[|services| - 1], d), Some(d)),
            Resource(Image, ImageLabel, ImageName(p, services[|services| - 1], d), Some(d))]
  }

  function OfOne(p: ProjectId, d: Deployment): seq<Resource> {
    [Resource(Network, NetworkLabel, NetworkName(p, d.id), Some(d.id))]
    + (if d.services.Some? then OfServices(p, d.id, d.services.value) else [])
  }

  function OfDeployments(p: ProjectId, deployments: seq<Deployment>): seq<Resource> {
    if deployments == [] then []
    else OfDeployments(p, deployments[..|deployments| - 1]) + OfOne(p, deployments[|deployments| - 1])
  }

  function Expected(p: ProjectId, deployments: seq<Deployment>, runtime: Option<Runtime>): seq<Resource> {
    (if runtime.Some? then [Resource(Container, GatewayLabel, GatewayName(p), None)] else []) + OfDeployments(p, deployments)
  }

  /** What a resource of the project looks like, whichever deployment or service it is for. */
  predicate BelongsTo(r: Resource, p: ProjectId, deployments: seq<Deployment>, runtime: Option<Runtime>) {
    || (runtime.Some? && r == Resource(Container, GatewayLabel, GatewayName(p), None))
    || OfSome(r, p, deployments)
  }

  predicate OfSome(r: Resource, p: ProjectId, deployments: seq<Deployment>) {
    exists i :: 0 <= i < |deployments| && OfDeployment(r, p, deployments[i])
  }

  predicate OfDeployment(r: Resource, p: ProjectId, d: Deployment) {
    r == Resource(Network, NetworkLabel, NetworkName(p, d.id), Some(d.id)) || OfService(r, p, d)
  }

  predicate OfService(r: Resource, p: ProjectId, d: Deployment) {
    && d.services.Some?
    && (exists j :: 0 <= j < |d.services.value|
          && (r == Resource(Container, ServiceLabel, ContainerName(p, d.services.value[j], d.id), Some(d.id))
              || r == Resource(Image, ImageLabel, ImageName(p, d.services.value[j], d.id), Some(d.id))))
  }

  lemma {:induction false} ServicesCovered(p: ProjectId, d: DeploymentId, services: seq<string>, r: Resource)
    ensures r in OfServices(p, d, services) <==>
              exists j :: 0 <= j < |services|
                && (r == Resource(Container, ServiceLabel, ContainerName(p, services[j], d), Some(d))
                    || r == Resource(Image, ImageLabel, ImageName(p, services[j], d), Some(d)))
  {
    if services != [] {
      var n := |services| - 1;
      ServicesCovered(p, d, services[..n], r);
      assert forall j :: 0 <= j < n ==> services[..n][j] == services[j];
      if r in OfServices(p, d, services[..n]) {
        var j :| 0 <= j < n && (r == Resource(Container, ServiceLabel, ContainerName(p, services[..n][j], d), Some(d))
                                || r == Resource(Image, ImageLabel, ImageName(p, services[..n][j], d), Some(d)));
        assert services[j] == services[..n][j];
      }
    }
  }

  lemma OneCovered(p: ProjectId, d: Deployment, r: Resource)
    ensures r in OfOne(p, d) <==> OfDeployment(r, p, d)
  {
    if d.services.Some? { ServicesCovered(p, d.id, d.services.value, r); }
  }

  lemma OfOneMore(r: Resource, p: ProjectId, deployments: seq<Deployment>, n: nat)
    requires |deployments| == n + 1
    ensures OfSome(r, p, deployments) <==> OfSome(r, p, deployments[..n]) || OfDeployment(r, p, deployments[n])
  {
    if OfSome(r, p, deployments[..n]) {
      var i :| 0 <= i < n && OfDeployment(r, p, deployments[..n][i]);
      assert OfDeployment(r, p, deployments[i]);
    }
    if i :| 0 <= i < n && OfDeployment(r, p, deployments[i]) {
      assert OfDeployment(r, p, deployments[..n][i]);
    }
  }

  lemma {:induction false} DeploymentsCovered(p: ProjectId, deployments: seq<Deployment>, r: Resource)
    ensures r in OfDeployments(p, deployments) <==> OfSome(r, p, deployments)
    decreases |deployments|
  {
    if deployments != [] {
      var n := |deployments| - 1;
      DeploymentsCovered(p, deployments[..n], r);
      OneCovered(p, deployments[n], r);
      OfOneMore(r, p, deployments, n);
    }
  }

  /** The list names the gateway, and each deployment's network and each service's container and image, and nothing else. */
  lemma ExpectedCoversProject(p: ProjectId, deployments: seq<Deployment>, runtime: Option<Runtime>, r: Resource)
    ensures r in Expected(p, deployments, runtime) <==> BelongsTo(r, p, deployments, runtime)
  {
    DeploymentsCovered(p, deployments, r);
  }

  function KeyOf(r: Resource): Key {
    Key(r.docker, r.name)
  }

  lemma ExpectedBearsName(p: ProjectId, deployments: seq<Deployment>, runtime: Option<Runtime>, r: Resource)
    requires r in Expected(p, deployments, runtime)
    ensures BearsName(KeyOf(r), p)
  {
    ExpectedCoversProject(p, deployments, runtime, r);
  }

  function Targets(p: ProjectId, deployments: seq<Deployment>): seq<Target> {
    seq(|deployments|, i requires 0 <= i < |deployments| => Workspace(deployments[i].id)) + [GatewayDirectory(p)]
  }

  // ---------------------------------------------------------------- what the labels say

  predicate Exact(o: Object, p: ProjectId, r: Resource) {
    && o.id != ""
    && o.labels.managed && o.labels.project == Some(p) && o.labels.kind == Some(r.kind)
    && (r.deployment.Some? ==> o.labels.deployment == r.deployment)
  }

  /** The labels of an object say whose it is, what it is, and for which deployment. */
  lemma LabelsIdentify(o: Object, p: ProjectId, r: Resource, q: ProjectId, s: Resource)
    requires Exact(o, p, r) && Exact(o, q, s)
    ensures p == q && r.kind == s.kind
    ensures r.deployment.Some? && s.deployment.Some? ==> r.deployment == s.deployment
  {
  }

  predicate Owned(o: Object, p: ProjectId) {
    o.labels.managed && o.labels.project == Some(p)
  }

  predicate DistinctIds(deployments: seq<Deployment>) {
    forall i, j :: 0 <= i < j < |deployments| ==> deployments[i].id != deployments[j].id
  }

  predicate DistinctKeys(rs: seq<Resource>) {
    forall i, j :: 0 <= i < j < |rs| ==> KeyOf(rs[i]) != KeyOf(rs[j])
  }

  function NamesOf(rs: seq<Resource>, d: DeploymentId, kind: LabelKind): set<string> {
    set i | 0 <= i < |rs| && rs[i].deployment == Some(d) && rs[i].kind == kind :: rs[i].name
  }

  function Strings(s: seq<string>): set<string> {
    set i | 0 <= i < |s| :: s[i]
  }

  /** The recorded active generation is one of the deployments, with exactly its names. */
  predicate SnapshotMatches(runtime: Runtime, rs: seq<Resource>, deployments: seq<Deployment>) {
    match runtime.active
    case None => runtime.network == None && runtime.containers == [] && runtime.images == []
    case Some(d) =>
      && (exists i :: 0 <= i < |deployments| && deployments[i].id == d)
      && runtime.network.Some? && {runtime.network.value} == NamesOf(rs, d, NetworkLabel)
      && Strings(runtime.containers) == NamesOf(rs, d, ServiceLabel)
      && Strings(runtime.images) == NamesOf(rs, d, ImageLabel)
  }

  predicate Consistent(p: ProjectId, deployments: seq<Deployment>, runtime: Option<Runtime>) {
    && (runtime.Some? ==> runtime.value.project == p && runtime.value.gatewayName == GatewayName(p))
    && DistinctIds(deployments)
    && (forall i :: 0 <= i < |deployments| ==> deployments[i].project == p && deployments[i].services.Some?)
    && DistinctKeys(Expected(p, deployments, runtime))
    && (runtime.Some? ==> SnapshotMatches(runtime.value, Expected(p, deployments, runtime), deployments))
  }

  predicate Records(r: Resource, kind: LabelKind, d: DeploymentId, name: string) {
    r.kind == kind && r.deployment == Some(d) && r.name == name
  }

  /** On consistent records the active generation is recorded under the names that are expected of it, all of them. */
  lemma RecordedAsExpected(p: ProjectId, deployments: seq<Deployment>, runtime: Runtime, d: DeploymentId, name: string)
    requires Consistent(p, deployments, Some(runtime)) && runtime.active == Some(d)
    ensures name in runtime.containers <==> exists r :: r in Expected(p, deployments, Some(runtime)) && Records(r, ServiceLabel, d, name)
    ensures name in runtime.images <==> exists r :: r in Expected(p, deployments, Some(runtime)) && Records(r, ImageLabel, d, name)
  {
    var rs := Expected(p, deployments, Some(runtime));
    StringsHold(runtime.containers, name);
    StringsHold(runtime.images, name);
    NamesHold(rs, d, ServiceLabel, name);
    NamesHold(rs, d, ImageLabel, name);
  }

  lemma NamesHold(rs: seq<Resource>, d: DeploymentId, kind: LabelKind, name: string)
    ensures name in NamesOf(rs, d, kind) <==> exists r :: r in rs && Records(r, kind, d, name)
  {
    if name in NamesOf(rs, d, kind) {
      var i :| 0 <= i < |rs| && rs[i].deployment == Some(d) && rs[i].kind == kind && rs[i].name == name;
      assert Records(rs[i], kind, d, name);
    }
  }

  lemma StringsHold(s: seq<string>, name: string)
    ensures name in s <==> name in Strings(s)
  {
  }

  method ServiceResources(p: ProjectId, d: DeploymentId, services: seq<string>) returns (rs: seq<Resource>)
    ensures rs == OfServices(p, d, services)
  {
    rs := [];
    for j := 0 to |services|
      invariant rs == OfServices(p, d, services[..j])
    {
      assert services[..j + 1][..j] == services[..j];
      rs := rs + [Resource(Container, ServiceLabel, ContainerName(p, services[j], d), Some(d)),
                  Resource(Image, ImageLabel, ImageName(p, services[j], d), Some(d))];
    }
    assert services[..|services|] == services;
  }

  /** Succeeds exactly on consistent records, with the full list of what they imply. */
  method ExpectedResources(p: ProjectId, deployments: seq<Deployment>, runtime: Option<Runtime>) returns (r: Result<seq<Resource>, Error>)
    ensures r.Success? <==> Consistent(p, deployments, runtime)
    ensures r.Success? ==> r.value == Expected(p, deployments, runtime)
  {
    var gateway: seq<Resource> := [];
    if runtime.Some? {
      if runtime.value.project != p || runtime.value.gatewayName != GatewayName(p) {
        return Failure(Unsure(false));
      }
      gateway := [Resource(Container, GatewayLabel, GatewayName(p), None)];
    }
    if !DistinctIds(deployments) { return Failure(Unsure(false)); }
    var resources: seq<Resource> := [];
    for i := 0 to |deployments|
      invariant resources == OfDeployments(p, deployments[..i])
      invariant forall j :: 0 <= j < i ==> deployments[j].project == p && deployments[j].services.Some?
    {
      var d := deployments[i];
      if d.project != p || d.services == None { return Failure(Unsure(false)); }
      assert deployments[..i + 1][..i] == deployments[..i];
      var services := ServiceResources(p, d.id, d.services.value);
      resources := resources + [Resource(Network, NetworkLabel, NetworkName(p, d.id), Some(d.id))] + services;
    }
    assert deployments[..|deployments|] == deployments;
    resources := gateway + resources;
    if !DistinctKeys(resources) { return Failure(Unsure(false)); }
    if runtime.Some? && !SnapshotMatches(runtime.value, resources, deployments) { return Failure(Unsure(false)); }
    r := Success(resources);
  }

  // ---------------------------------------------------------------- the order of removal

  function Rank(kind: LabelKind): nat {
    match kind
    case GatewayLabel => 0
    case ServiceLabel => 1
    case NetworkLabel => 2
    case ImageLabel => 3
  }

  function Only(rs: seq<Resource>, kind: LabelKind): (os: seq<Resource>)
    ensures forall r :: r in os <==> r in rs && r.kind == kind
  {
    if rs == [] then []
    else if rs[0].kind == kind then [rs[0]] + Only(rs[1..], kind)
    else Only(rs[1..], kind)
  }

  /** A stable sort by rank. */
  function InRemovalOrder(rs: seq<Resource>): seq<Resource> {
    Only(rs, GatewayLabel) + Only(rs, ServiceLabel) + Only(rs, NetworkLabel) + Only(rs, ImageLabel)
  }

  predicate Ranked(rs: seq<Resource>) {
    forall i, j :: 0 <= i < j < |rs| ==> Rank(rs[i].kind) <= Rank(rs[j].kind)
  }

  lemma {:induction false} OnlyKeepsKeys(rs: seq<Resource>, kind: LabelKind)
    requires DistinctKeys(rs)
    ensures DistinctKeys(Only(rs, kind))
    decreases |rs|
  {
    if rs != [] {
      var rest := Only(rs[1..], kind);
      OnlyKeepsKeys(rs[1..], kind);
      forall j | 0 <= j < |rest| ensures KeyOf(rest[j]) != KeyOf(rs[0]) {
        assert rest[j] in rs[1..];
      }
    }
  }

  lemma DistinctKeysMeet(rs: seq<Resource>, a: Resource, b: Resource)
    requires DistinctKeys(rs) && a in rs && b in rs && KeyOf(a) == KeyOf(b)
    ensures a == b
  {
  }

  lemma ConcatKeepsKeys(rs: seq<Resource>, a: seq<Resource>, b: seq<Resource>)
    requires DistinctKeys(rs) && DistinctKeys(a) && DistinctKeys(b)
    requires forall r :: r in a ==> r in rs && r !in b
    requires forall r :: r in b ==> r in rs
    ensures DistinctKeys(a + b)
  {
    forall i, j | 0 <= i < j < |a + b| ensures KeyOf((a + b)[i]) != KeyOf((a + b)[j]) {
      if i < |a| <= j {
        assert (a + b)[i] in a && (a + b)[j] in b;
        if KeyOf((a + b)[i]) == KeyOf((a + b)[j]) { DistinctKeysMeet(rs, (a + b)[i], (a + b)[j]); }
      }
    }
  }

  /** An object of the first kind may still need one of the second: all need the images, containers the networks. */
  predicate Needs(a: LabelKind, b: LabelKind) {
    match b
    case ImageLabel => a != ImageLabel
    case NetworkLabel => a == GatewayLabel || a == ServiceLabel
    case ServiceLabel => a == GatewayLabel
    case GatewayLabel => false
  }

  /** Nothing goes before all that may still need it. */
  lemma NothingNeededGoes(rs: seq<Resource>, i: nat, j: nat)
    requires DistinctKeys(rs) && i < j < |InRemovalOrder(rs)|
    ensures !Needs(InRemovalOrder(rs)[j].kind, InRemovalOrder(rs)[i].kind)
  {
    RemovalOrderSorts(rs);
  }

  /** Gateways go before services, services before networks, networks before images, and each once. */
  lemma RemovalOrderSorts(rs: seq<Resource>)
    requires DistinctKeys(rs)
    ensures forall r :: r in InRemovalOrder(rs) <==> r in rs
    ensures Ranked(InRemovalOrder(rs)) && DistinctKeys(InRemovalOrder(rs))
  {
    var g, s, n, i := Only(rs, GatewayLabel), Only(rs, ServiceLabel), Only(rs, NetworkLabel), Only(rs, ImageLabel);
    OnlyKeepsKeys(rs, GatewayLabel);
    OnlyKeepsKeys(rs, ServiceLabel);
    OnlyKeepsKeys(rs, NetworkLabel);
    OnlyKeepsKeys(rs, ImageLabel);
    ConcatKeepsKeys(rs, g, s);
    ConcatKeepsKeys(rs, g + s, n);
    ConcatKeepsKeys(rs, g + s + n, i);
  }
}
