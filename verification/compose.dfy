/**
  The compose side of the transformer: the kompose service configuration, the
  exposure URL of a service (`getUrl`), the per-service fix-up applied before
  conversion (`fixComposeObject`, `removeUnsupportedVolumes`,
  `evaluateLabels`) and the environment summary (`makeEnvironmentFromServices`).
 */
module ComposeModel {
  import opened Base
  import opened Strs

  /** Process-wide settings that the source reads once at start-up. */
  datatype Config = Config(userlandRegistry: string, clusterDomain: string)

  /** The fixed identity of one run: what `NewGitCompose` stores. */
  datatype Identity = Identity(
    owner: string,
    branchOwner: string,
    repo: string,
    branch: string,
    sha: string,
    prNumber: int,
    author: string,
    needsToken: bool)

  datatype Port = Port(hostPort: int, containerPort: int, protocol: string)

  datatype Volume = Volume(volumeName: string, host: string, container: string, mountPath: string, mode: string)

  /** The parts of kompose's ServiceConfig that the transformer reads or writes. */
  datatype ServiceConfig = ServiceConfig(
    name: string,
    image: string,
    build: string,
    ports: seq<Port>,
    exposeService: string,
    exposeServiceIngressClassName: string,
    labels: map<string, string>,
    buildArgs: map<string, Option<string>>,
    volumes: seq<Volume>)

  /** One service of the environment summary. */
  datatype EnvironmentService = EnvironmentService(id: string, url: string, image: string, build: string)

  /** The environment summary: services by name, and the raw compose text. */
  datatype Compose = Compose(services: map<string, EnvironmentService>, raw: string)

  /** The template renderer (mustache with missing variables refused). */
  type Renderer = (string, map<string, string>) -> Result<string>

  // ---------------------------------------------------------------------------
  // Exposure URL

  /** Some port of the service is bound on the host. */
  predicate HasHostPort(ports: seq<Port>) {
    exists i :: 0 <= i < |ports| && ports[i].hostPort > 0
  }

  /** `<service>-<owner>-<repo without "_">-<pr>.<domain>`, lower-cased. */
  function ExposureHost(cfg: Config, id: Identity, name: string): string {
    Lower(name + "-" + id.owner + "-" + RemoveChar(id.repo, '_') + "-" + Decimal(id.prNumber) + "." + cfg.clusterDomain)
  }

  /** The loop of `getUrl`: the first host-bound port decides; none gives "". */
  function UrlForPorts(cfg: Config, id: Identity, name: string, ports: seq<Port>): string {
    if ports == [] then ""
    else if ports[0].hostPort > 0 then ExposureHost(cfg, id, name)
    else UrlForPorts(cfg, id, name, ports[1..])
  }

  /** `getUrl`: the exposure host of a service with a host-bound port, "" for any other. */
  function GetUrl(cfg: Config, id: Identity, s: ServiceConfig): (r: string)
    ensures r == if HasHostPort(s.ports) then ExposureHost(cfg, id, s.name) else ""
  {
    UrlForPortsExposes(cfg, id, s.name, s.ports);
    UrlForPorts(cfg, id, s.name, s.ports)
  }

  /** The scan finds the host name exactly when some port is host-bound. */
  lemma {:induction false} UrlForPortsExposes(cfg: Config, id: Identity, name: string, ports: seq<Port>)
    ensures UrlForPorts(cfg, id, name, ports) == if HasHostPort(ports) then ExposureHost(cfg, id, name) else ""
  {
    if ports != [] {
      UrlForPortsExposes(cfg, id, name, ports[1..]);
      if ports[0].hostPort <= 0 {
        if HasHostPort(ports) {
          var i :| 0 <= i < |ports| && ports[i].hostPort > 0;
          assert ports[1..][i - 1] == ports[i];
        }
        if HasHostPort(ports[1..]) {
          var i :| 0 <= i < |ports[1..]| && ports[1..][i].hostPort > 0;
          assert ports[i + 1] == ports[1..][i];
        }
      } else {
        assert HasHostPort(ports) by { assert ports[0].hostPort > 0; }
      }
    }
  }

  /** `getUrl` returns "" exactly when no port is bound on the host. */
  lemma GetUrlEmptyIff(cfg: Config, id: Identity, s: ServiceConfig)
    ensures GetUrl(cfg, id, s) == "" <==> forall i :: 0 <= i < |s.ports| ==> s.ports[i].hostPort <= 0
  {
    UrlForPortsExposes(cfg, id, s.name, s.ports);
    assert |ExposureHost(cfg, id, s.name)| > 0;
  }

  /**
    A host-bound service gets the lower-case of
    `<service>-<owner>-<repo with every "_" removed>-<pr>.<domain>`:
    each part lower-cased, the decimal PR number as it is, no upper-case
    letter anywhere.
   */
  lemma GetUrlShape(cfg: Config, id: Identity, s: ServiceConfig)
    requires HasHostPort(s.ports)
    ensures GetUrl(cfg, id, s) ==
      Lower(s.name) + "-" + Lower(id.owner) + "-" + Lower(RemoveChar(id.repo, '_')) + "-" +
      Decimal(id.prNumber) + "." + Lower(cfg.clusterDomain)
    ensures NoUpper(GetUrl(cfg, id, s))
  {
    UrlForPortsExposes(cfg, id, s.name, s.ports);
    var repo := RemoveChar(id.repo, '_');
    var pr := Decimal(id.prNumber);
    LowerAppend(s.name + "-" + id.owner + "-" + repo + "-" + pr + ".", cfg.clusterDomain);
    LowerAppend(s.name + "-" + id.owner + "-" + repo + "-" + pr, ".");
    LowerAppend(s.name + "-" + id.owner + "-" + repo + "-", pr);
    LowerAppend(s.name + "-" + id.owner + "-" + repo, "-");
    LowerAppend(s.name + "-" + id.owner + "-", repo);
    LowerAppend(s.name + "-" + id.owner, "-");
    LowerAppend(s.name + "-", id.owner);
    LowerAppend(s.name, "-");
    LowerOfLower("-");
    LowerOfLower(".");
    LowerOfLower(pr);
  }

  /** The URL does not depend on the order of the ports. */
  lemma GetUrlPortOrder(cfg: Config, id: Identity, s: ServiceConfig, t: ServiceConfig)
    requires s.name == t.name && multiset(s.ports) == multiset(t.ports)
    ensures GetUrl(cfg, id, s) == GetUrl(cfg, id, t)
  {
    UrlForPortsExposes(cfg, id, s.name, s.ports);
    UrlForPortsExposes(cfg, id, t.name, t.ports);
    HasHostPortByMembership(s.ports);
    HasHostPortByMembership(t.ports);
  }

  lemma HasHostPortByMembership(ports: seq<Port>)
    ensures HasHostPort(ports) <==> exists p :: p in multiset(ports) && p.hostPort > 0
  {
    if HasHostPort(ports) {
      var i :| 0 <= i < |ports| && ports[i].hostPort > 0;
      assert ports[i] in multiset(ports);
    }
    if exists p :: p in multiset(ports) && p.hostPort > 0 {
      var p :| p in multiset(ports) && p.hostPort > 0;
      assert p in ports;
      var i :| 0 <= i < |ports| && ports[i] == p;
    }
  }

  // ---------------------------------------------------------------------------
  // Volumes

  /** Volumes whose mount path starts with ":" have no equivalent on the cluster. */
  predicate Supported(v: Volume) {
    !HasPrefix(v.mountPath, ":")
  }

  /** The volumes kept by `removeUnsupportedVolumes`. */
  function SupportedVolumes(vols: seq<Volume>): (r: seq<Volume>)
    ensures forall v :: v in r <==> v in vols && Supported(v)
    ensures |r| <= |vols|
  {
    if vols == [] then []
    else (if Supported(vols[0]) then [vols[0]] else []) + SupportedVolumes(vols[1..])
  }

  /** The filter works piecewise, so kept volumes stay in their original order. */
  lemma {:induction false} SupportedVolumesAppend(a: seq<Volume>, b: seq<Volume>)
    ensures SupportedVolumes(a + b) == SupportedVolumes(a) + SupportedVolumes(b)
  {
    if a != [] {
      assert (a + b)[0] == a[0];
      assert (a + b)[1..] == a[1..] + b;
      SupportedVolumesAppend(a[1..], b);
    } else {
      assert a + b == b;
    }
  }

  lemma SupportedVolumesSnoc(vols: seq<Volume>, i: nat)
    requires i < |vols|
    ensures SupportedVolumes(vols[..i + 1]) == SupportedVolumes(vols[..i]) + (if Supported(vols[i]) then [vols[i]] else [])
  {
    assert vols[..i + 1] == vols[..i] + [vols[i]];
    SupportedVolumesAppend(vols[..i], [vols[i]]);
    assert [vols[i]][1..] == [];
  }

  method RemoveUnsupportedVolumes(vols: seq<Volume>) returns (kept: seq<Volume>)
    ensures kept == SupportedVolumes(vols)
  {
    kept := [];
    var i := 0;
    while i < |vols|
      invariant 0 <= i <= |vols|
      invariant kept == SupportedVolumes(vols[..i])
    {
      SupportedVolumesSnoc(vols, i);
      if Supported(vols[i]) {
        kept := kept + [vols[i]];
      }
      i := i + 1;
    }
    assert vols[..i] == vols;
  }

  // ---------------------------------------------------------------------------
  // Build-argument labels

  const ReplaceArgPrefix: string := "dev.ergomake.env.replace-arg."

  predicate IsReplaceArg(name: string) {
    HasPrefix(name, ReplaceArgPrefix)
  }

  /** The build argument a `replace-arg` label sets. */
  function ArgName(key: string): string {
    TrimPrefix(key, ReplaceArgPrefix)
  }

  /** Distinct `replace-arg` labels set distinct build arguments. */
  lemma ArgNameInjective(a: string, b: string)
    requires IsReplaceArg(a) && IsReplaceArg(b) && a != b
    ensures ArgName(a) != ArgName(b)
  {
    assert ReplaceArgPrefix + ArgName(a) == a;
    assert ReplaceArgPrefix + ArgName(b) == b;
  }

  function ArgNames(labels: set<string>): (r: set<string>)
    ensures forall name :: name in r ==> ReplaceArgPrefix + name in labels && IsReplaceArg(ReplaceArgPrefix + name)
    ensures forall l :: l in labels && IsReplaceArg(l) ==> ArgName(l) in r
  {
    set l | l in labels && IsReplaceArg(l) :: ArgName(l)
  }

  /** Every `replace-arg` label among `done` renders without error. */
  predicate RendersAll(labels: map<string, string>, done: set<string>, ctx: map<string, string>, render: Renderer) {
    forall l :: l in done && l in labels && IsReplaceArg(l) ==> render(labels[l], ctx).Ok?
  }

  /** The build arguments that the `replace-arg` labels among `done` set. */
  function RenderedArgs(labels: map<string, string>, done: set<string>, ctx: map<string, string>, render: Renderer)
    : (r: map<string, Option<string>>)
    requires done <= labels.Keys
    requires RendersAll(labels, done, ctx, render)
    ensures r.Keys == ArgNames(done)
    ensures forall l :: l in done && IsReplaceArg(l) ==> r[ArgName(l)] == Some(render(labels[l], ctx).value)
  {
    map name | name in ArgNames(done) :: Some(render(labels[ReplaceArgPrefix + name], ctx).value)
  }

  lemma RenderedArgsStep(labels: map<string, string>, done: set<string>, l: string, ctx: map<string, string>, render: Renderer)
    requires done <= labels.Keys && l in labels && l !in done
    requires RendersAll(labels, done + {l}, ctx, render)
    ensures IsReplaceArg(l) ==>
      (RenderedArgs(labels, done + {l}, ctx, render) ==
       RenderedArgs(labels, done, ctx, render)[ArgName(l) := Some(render(labels[l], ctx).value)])
    ensures !IsReplaceArg(l) ==> RenderedArgs(labels, done + {l}, ctx, render) == RenderedArgs(labels, done, ctx, render)
  {
    if IsReplaceArg(l) {
      assert ArgNames(done + {l}) == ArgNames(done) + {ArgName(l)};
    } else {
      assert ArgNames(done + {l}) == ArgNames(done);
    }
  }

  /** One visited label extends the build arguments accumulated so far. */
  lemma EvaluateStep(base: map<string, Option<string>>, labels: map<string, string>, done: set<string>, l: string,
                     ctx: map<string, string>, render: Renderer)
    requires done <= labels.Keys && l in labels && l !in done
    requires RendersAll(labels, done + {l}, ctx, render)
    ensures IsReplaceArg(l) ==>
      ((base + RenderedArgs(labels, done, ctx, render))[ArgName(l) := Some(render(labels[l], ctx).value)] ==
       base + RenderedArgs(labels, done + {l}, ctx, render))
    ensures !IsReplaceArg(l) ==>
      base + RenderedArgs(labels, done, ctx, render) == base + RenderedArgs(labels, done + {l}, ctx, render)
  {
    RenderedArgsStep(labels, done, l, ctx, render);
  }

  /** A service whose `replace-arg` labels have all been rendered into build arguments. */
  function LabelsEvaluated(s: ServiceConfig, ctx: map<string, string>, render: Renderer): (r: ServiceConfig)
    requires RendersAll(s.labels, s.labels.Keys, ctx, render)
    ensures r.(buildArgs := s.buildArgs) == s
    ensures r.buildArgs.Keys == s.buildArgs.Keys + ArgNames(s.labels.Keys)
    ensures forall l :: l in s.labels && IsReplaceArg(l) ==>
      r.buildArgs[ArgName(l)] == Some(render(s.labels[l], ctx).value)
    ensures forall k :: k in s.buildArgs && k !in ArgNames(s.labels.Keys) ==> r.buildArgs[k] == s.buildArgs[k]
  {
    s.(buildArgs := s.buildArgs + RenderedArgs(s.labels, s.labels.Keys, ctx, render))
  }

  /**
    The loop of `evaluateLabels`: each `replace-arg` label's value is rendered
    against the context and stored into `args` under the name the label
    carries; the first failure (in whatever order the labels are visited)
    aborts.
   */
  method RenderBuildArgs(labels: map<string, string>, args: map<string, Option<string>>, ctx: map<string, string>,
                         render: Renderer) returns (r: Result<map<string, Option<string>>>)
    ensures r.Ok? <==> RendersAll(labels, labels.Keys, ctx, render)
    ensures r.Ok? ==> r.value == args + RenderedArgs(labels, labels.Keys, ctx, render)
    ensures r.Err? ==> exists l :: (l in labels && IsReplaceArg(l) && render(labels[l], ctx).Err? &&
      r.error == Wrapped(RenderingLabel(ArgName(l), labels[l]), render(labels[l], ctx).error))
  {
    var remaining := labels.Keys;
    var acc := args;
    while remaining != {}
      invariant remaining <= labels.Keys
      invariant RendersAll(labels, labels.Keys - remaining, ctx, render)
      invariant acc == args + RenderedArgs(labels, labels.Keys - remaining, ctx, render)
      decreases remaining
    {
      var l :| l in remaining;
      ghost var done := labels.Keys - remaining;
      assert labels.Keys - (remaining - {l}) == done + {l};
      if IsReplaceArg(l) {
        var varName := ArgName(l);
        var rendered := render(labels[l], ctx);
        if rendered.Err? {
          return Err(Wrapped(RenderingLabel(varName, labels[l]), rendered.error));
        }
        EvaluateStep(args, labels, done, l, ctx, render);
        acc := acc[varName := Some(rendered.value)];
      } else {
        EvaluateStep(args, labels, done, l, ctx, render);
      }
      remaining := remaining - {l};
    }
    assert labels.Keys - remaining == labels.Keys;
    return Ok(acc);
  }

  /** `evaluateLabels`: the service with its rendered build arguments, or the first render failure. */
  method EvaluateLabels(s: ServiceConfig, ctx: map<string, string>, render: Renderer) returns (r: Result<ServiceConfig>)
    ensures r.Ok? <==> RendersAll(s.labels, s.labels.Keys, ctx, render)
    ensures r.Ok? ==> r.value == LabelsEvaluated(s, ctx, render)
    ensures r.Err? ==> exists l :: (l in s.labels && IsReplaceArg(l) && render(s.labels[l], ctx).Err? &&
      r.error == Wrapped(RenderingLabel(ArgName(l), s.labels[l]), render(s.labels[l], ctx).error))
  {
    var args := RenderBuildArgs(s.labels, s.buildArgs, ctx, render);
    if args.Err? {
      return Err(args.error);
    }
    return Ok(s.(buildArgs := args.value));
  }

  // ---------------------------------------------------------------------------
  // Per-service fix-up before conversion

  /** The image a service built from source is pushed as. */
  function BuiltImage(cfg: Config, namespace: string, name: string): string {
    cfg.userlandRegistry + ":" + namespace + "-" + name
  }

  /** First step of `fixComposeObject`: retarget a source-built service. */
  function Rebuilt(cfg: Config, projectPath: string, namespace: string, s: ServiceConfig): ServiceConfig {
    if s.build != "" then s.(image := BuiltImage(cfg, namespace, s.name), build := RemoveFirst(s.build, projectPath))
    else s
  }

  /** Second step: record the exposure URL; an exposed service gets the nginx ingress class. */
  function WithExposure(cfg: Config, id: Identity, s: ServiceConfig): ServiceConfig {
    var url := GetUrl(cfg, id, s);
    s.(exposeService := url,
       exposeServiceIngressClassName := if url != "" then "nginx" else s.exposeServiceIngressClassName)
  }

  /** The whole fix-up of one service, when its labels render. */
  function FixedService(cfg: Config, id: Identity, projectPath: string, namespace: string, s: ServiceConfig,
                        ctx: map<string, string>, render: Renderer): ServiceConfig
    requires RendersAll(s.labels, s.labels.Keys, ctx, render)
  {
    var evaluated := LabelsEvaluated(WithExposure(cfg, id, Rebuilt(cfg, projectPath, namespace, s)), ctx, render);
    evaluated.(volumes := SupportedVolumes(evaluated.volumes))
  }

  /**
    What `fixComposeObject` guarantees for each service: a source-built service
    is retagged into the tenant registry and its build path loses the first
    occurrence of the checkout path; other services keep image and build; the
    exposure URL is recomputed, and a non-empty one brings the "nginx" class
    while an empty one leaves the class as it was; build arguments gain the
    rendered labels; exactly the supported volumes remain, in order.
   */
  lemma FixedServiceSpec(cfg: Config, id: Identity, projectPath: string, namespace: string, s: ServiceConfig,
                         ctx: map<string, string>, render: Renderer)
    requires RendersAll(s.labels, s.labels.Keys, ctx, render)
    ensures var r := FixedService(cfg, id, projectPath, namespace, s, ctx, render);
      && (s.build != "" ==> r.image == cfg.userlandRegistry + ":" + namespace + "-" + s.name)
      && (s.build != "" ==> r.build == RemoveFirst(s.build, projectPath))
      && (s.build == "" ==> r.image == s.image && r.build == "")
      && r.exposeService == GetUrl(cfg, id, s)
      && (r.exposeService != "" ==> r.exposeServiceIngressClassName == "nginx")
      && (r.exposeService == "" ==> r.exposeServiceIngressClassName == s.exposeServiceIngressClassName)
      && r.buildArgs == LabelsEvaluated(s, ctx, render).buildArgs
      && r.volumes == SupportedVolumes(s.volumes)
      && r.name == s.name && r.ports == s.ports && r.labels == s.labels
  {
    var s1 := Rebuilt(cfg, projectPath, namespace, s);
    assert GetUrl(cfg, id, s1) == GetUrl(cfg, id, s);
    var s2 := WithExposure(cfg, id, s1);
    assert s2.buildArgs == s.buildArgs && s2.labels == s.labels;
  }

  // ---------------------------------------------------------------------------
  // Environment summary

  /** The summary entry `makeEnvironmentFromServices` records for a service. */
  function SummaryEntry(cfg: Config, id: Identity, s: ServiceConfig, newId: string -> string): EnvironmentService {
    EnvironmentService(newId(s.name), GetUrl(cfg, id, s), s.image, s.build)
  }

  /** Every service is stored under its own name, as kompose's loader produces them. */
  predicate KeyedByName(svcs: map<string, ServiceConfig>) {
    forall k :: k in svcs ==> svcs[k].name == k
  }

  /**
    `c` summarizes the loaded services: it keeps the raw compose text and holds
    one entry per service name, the entry of a service that carries that name
    (the id drawn from `newId`, the exposure URL, the image and the build
    path); for services stored under their own names, exactly one entry per key.
   */
  predicate Summarizes(cfg: Config, id: Identity, svcs: map<string, ServiceConfig>, raw: string,
                       newId: string -> string, c: Compose) {
    && c.raw == raw
    && c.services.Keys == (set k | k in svcs :: svcs[k].name)
    && (forall n :: n in c.services ==>
          exists k :: k in svcs && svcs[k].name == n && c.services[n] == SummaryEntry(cfg, id, svcs[k], newId))
    && (KeyedByName(svcs) ==> c.services == map k | k in svcs :: SummaryEntry(cfg, id, svcs[k], newId))
  }

  /**
    `makeEnvironmentFromServices`. (`NewCompose` is not part of this model; the
    summary keeps the services and the raw text.)
   */
  method MakeEnvironmentFromServices(cfg: Config, id: Identity, svcs: map<string, ServiceConfig>, raw: string,
                                     newId: string -> string) returns (c: Compose)
    ensures Summarizes(cfg, id, svcs, raw, newId, c)
  {
    var services: map<string, EnvironmentService> := map[];
    var remaining := svcs.Keys;
    while remaining != {}
      invariant remaining <= svcs.Keys
      invariant services.Keys == set k | k in svcs.Keys - remaining :: svcs[k].name
      invariant forall n :: n in services ==>
        exists k :: k in svcs.Keys - remaining && svcs[k].name == n && services[n] == SummaryEntry(cfg, id, svcs[k], newId)
      decreases remaining
    {
      var k :| k in remaining;
      var s := svcs[k];
      services := services[s.name := SummaryEntry(cfg, id, s, newId)];
      remaining := remaining - {k};
    }
    c := Compose(services, raw);
    if KeyedByName(svcs) {
      forall n | n in services ensures services[n] == SummaryEntry(cfg, id, svcs[n], newId) {
        var k :| k in svcs && svcs[k].name == n && services[n] == SummaryEntry(cfg, id, svcs[k], newId);
      }
    }
  }
}
