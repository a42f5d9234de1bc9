/**
  Enrichment of the converted manifests (`fixOutput` and the `fix*`/`add*`
  steps it applies): every object is moved into the environment's namespace;
  every Deployment is hardened, pinned to preview nodes, normalised, labelled,
  wired to an env-var Secret, and possibly to a registry-credential Secret.
 */
module Enrich {
  import opened Base
  import opened Strs
  import opened ComposeModel
  import opened Manifests

  /** A variable returned by the env-var provider. */
  datatype EnvVarEntry = EnvVarEntry(name: string, value: string)

  datatype Creds = Creds(url: string, token: string)

  /** What the private-registry provider answers for (owner, image). */
  datatype CredsOutcome = Found(creds: Creds) | RegistryNotFound | FetchFailed(error: Error)

  /**
    What the enrichers read besides the manifest: the settings, the run's
    identity, the environment summary, and the collaborators the source calls
    (`computeRepoAndBuildPath`, the env-var provider, the credential provider,
    base64 encoding).
   */
  datatype Context = Context(
    cfg: Config,
    id: Identity,
    compose: Compose,
    computeRepo: (string, string) -> string,
    listEnvVars: (string, string) -> Result<seq<EnvVarEntry>>,
    fetchCreds: (string, string) -> CredsOutcome,
    base64: string -> string)

  // ---------------------------------------------------------------------------
  // fixNamespace

  /** `fixNamespace`: the object's namespace becomes `ns`; nothing else changes. */
  function WithNamespace(o: K8sObject, ns: string): (r: K8sObject)
    ensures Meta(r).namespace == ns
    ensures WithMeta(r, Meta(o)) == o
    ensures r.DeploymentObject? == o.DeploymentObject?
    ensures Meta(r).(namespace := Meta(o).namespace) == Meta(o)
  {
    WithMeta(o, Meta(o).(namespace := ns))
  }

  // ---------------------------------------------------------------------------
  // addSecurityRestrictions

  const RuntimeDefault: string := "RuntimeDefault"

  /** The pod security context the source installs: only a RuntimeDefault seccomp profile. */
  const RestrictedContext: PodSecurityContext := PodSecurityContext(None, None, Some(SeccompProfile(RuntimeDefault)))

  /**
    `addSecurityRestrictions`: no service-account token is mounted and the pod
    security context is replaced by one carrying the RuntimeDefault seccomp
    profile (any other setting of the old context is dropped).
   */
  function WithSecurityRestrictions(d: Deployment): (r: Deployment)
    ensures Spec(r).automountServiceAccountToken == Some(false)
    ensures Spec(r).securityContext == Some(RestrictedContext)
    ensures Spec(r).(automountServiceAccountToken := Spec(d).automountServiceAccountToken,
                     securityContext := Spec(d).securityContext) == Spec(d)
    ensures WithSpec(r, Spec(d)) == d
  {
    WithSpec(d, Spec(d).(automountServiceAccountToken := Some(false), securityContext := Some(RestrictedContext)))
  }

  // ---------------------------------------------------------------------------
  // addNodeContraints

  const RoleKey: string := "preview.ergomake.dev/role"

  const PreviewToleration: Toleration := Toleration("preview.ergomake.dev/domain", "Equal", "previews", "NoSchedule")

  /**
    `addNodeContraints`: the node selector requires the preview role (other
    selector entries stay) and the previews toleration is appended, on every
    call.
   */
  function WithNodeConstraints(d: Deployment): (r: Deployment)
    ensures Spec(r).nodeSelector.Keys == Spec(d).nodeSelector.Keys + {RoleKey}
    ensures Spec(r).nodeSelector[RoleKey] == "preview"
    ensures forall k :: k in Spec(d).nodeSelector && k != RoleKey ==> Spec(r).nodeSelector[k] == Spec(d).nodeSelector[k]
    ensures Spec(r).tolerations == Spec(d).tolerations + [PreviewToleration]
    ensures Spec(r).(nodeSelector := Spec(d).nodeSelector, tolerations := Spec(d).tolerations) == Spec(d)
    ensures WithSpec(r, Spec(d)) == d
  {
    WithSpec(d, Spec(d).(nodeSelector := Spec(d).nodeSelector[RoleKey := "preview"],
                         tolerations := Spec(d).tolerations + [PreviewToleration]))
  }

  /** Appending the toleration is not idempotent: a second call adds a second copy. */
  lemma NodeConstraintsNotIdempotent(d: Deployment)
    ensures WithNodeConstraints(WithNodeConstraints(d)) != WithNodeConstraints(d)
    ensures |Spec(WithNodeConstraints(WithNodeConstraints(d))).tolerations| == |Spec(d).tolerations| + 2
  {
    var once := WithNodeConstraints(d);
    assert |Spec(WithNodeConstraints(once)).tolerations| == |Spec(once).tolerations| + 1;
  }

  // ---------------------------------------------------------------------------
  // fixRestartPolicy

  /** `fixRestartPolicy`: a set restart policy becomes "Always"; an empty one stays empty. */
  function WithRestartPolicy(d: Deployment): (r: Deployment)
    ensures Spec(d).restartPolicy == "" ==> Spec(r).restartPolicy == ""
    ensures Spec(d).restartPolicy != "" ==> Spec(r).restartPolicy == "Always"
    ensures Spec(r).(restartPolicy := Spec(d).restartPolicy) == Spec(d)
    ensures WithSpec(r, Spec(d)) == d
  {
    if Spec(d).restartPolicy != "" then WithSpec(d, Spec(d).(restartPolicy := "Always")) else d
  }

  // ---------------------------------------------------------------------------
  // fixPullPolicy

  const IfNotPresent: string := "IfNotPresent"

  /** Every container pulls its image only if not present; nothing else changes. */
  function PullPolicyFixed(d: Deployment): (r: Deployment)
    ensures |Containers(r)| == |Containers(d)|
    ensures forall i :: 0 <= i < |Containers(r)| ==> Containers(r)[i].imagePullPolicy == IfNotPresent
    ensures forall i :: 0 <= i < |Containers(r)| ==>
      Containers(r)[i].(imagePullPolicy := Containers(d)[i].imagePullPolicy) == Containers(d)[i]
    ensures WithContainers(r, Containers(d)) == d
  {
    WithContainers(d, PullIfNotPresent(Containers(d)))
  }

  function PullIfNotPresent(cs: seq<Container>): (r: seq<Container>)
    ensures |r| == |cs|
    ensures forall i :: 0 <= i < |cs| ==> r[i] == cs[i].(imagePullPolicy := IfNotPresent)
  {
    if cs == [] then [] else [cs[0].(imagePullPolicy := IfNotPresent)] + PullIfNotPresent(cs[1..])
  }

  /** `fixPullPolicy`, the index loop over the containers. */
  method FixPullPolicy(d: Deployment) returns (r: Deployment)
    ensures r == PullPolicyFixed(d)
  {
    var cs := Containers(d);
    var i := 0;
    while i < |cs|
      invariant 0 <= i <= |cs| == |Containers(d)|
      invariant forall j :: 0 <= j < i ==> cs[j] == Containers(d)[j].(imagePullPolicy := IfNotPresent)
      invariant forall j :: i <= j < |cs| ==> cs[j] == Containers(d)[j]
    {
      cs := cs[i := cs[i].(imagePullPolicy := IfNotPresent)];
      i := i + 1;
    }
    r := WithContainers(d, cs);
    assert Containers(r) == Containers(PullPolicyFixed(d));
  }

  // ---------------------------------------------------------------------------
  // addResourceLimits

  const Gi: int := 1024 * 1024 * 1024

  /** 2Gi of ephemeral storage and 1Gi of memory; no CPU entry. */
  function PreviewQuota(): (q: map<string, int>)
    ensures q.Keys == {"ephemeral-storage", "memory"}
  {
    map["ephemeral-storage" := 2 * Gi, "memory" := Gi]
  }

  /** Every container's limits and requests are both exactly the preview quota; nothing else changes. */
  function ResourceLimitsApplied(d: Deployment): (r: Deployment)
    ensures |Containers(r)| == |Containers(d)|
    ensures forall i :: 0 <= i < |Containers(r)| ==>
      Containers(r)[i].resources.limits == Containers(r)[i].resources.requests == PreviewQuota()
    ensures forall i :: 0 <= i < |Containers(r)| ==>
      Containers(r)[i].(resources := Containers(d)[i].resources) == Containers(d)[i]
    ensures WithContainers(r, Containers(d)) == d
  {
    WithContainers(d, WithQuota(Containers(d)))
  }

  function WithQuota(cs: seq<Container>): (r: seq<Container>)
    ensures |r| == |cs|
    ensures forall i :: 0 <= i < |cs| ==> r[i] == cs[i].(resources := ResourceRequirements(PreviewQuota(), PreviewQuota()))
  {
    if cs == [] then []
    else [cs[0].(resources := ResourceRequirements(PreviewQuota(), PreviewQuota()))] + WithQuota(cs[1..])
  }

  /** `addResourceLimits`, the index loop over the containers. */
  method AddResourceLimits(d: Deployment) returns (r: Deployment)
    ensures r == ResourceLimitsApplied(d)
  {
    var cs := Containers(d);
    var i := 0;
    while i < |cs|
      invariant 0 <= i <= |cs| == |Containers(d)|
      invariant forall j :: 0 <= j < i ==>
        cs[j] == Containers(d)[j].(resources := ResourceRequirements(PreviewQuota(), PreviewQuota()))
      invariant forall j :: i <= j < |cs| ==> cs[j] == Containers(d)[j]
    {
      var res := cs[i].resources.(limits := PreviewQuota());
      res := res.(requests := PreviewQuota());
      cs := cs[i := cs[i].(resources := res)];
      i := i + 1;
    }
    r := WithContainers(d, cs);
    assert Containers(r) == Containers(ResourceLimitsApplied(d));
  }

  // ---------------------------------------------------------------------------
  // addLabels

  /** The label kompose puts on each workload to name its compose service. */
  const ServiceLabel: string := "io.kompose.service"

  const IdentityKeys: set<string> := {
    "app", "preview.ergomake.dev/id", "preview.ergomake.dev/service",
    "preview.ergomake.dev/owner", "preview.ergomake.dev/repo", "preview.ergomake.dev/sha"
  }

  /** The compose service a workload was generated from ("" when unlabelled). */
  function ServiceName(d: Deployment): string {
    if ServiceLabel in d.meta.labels then d.meta.labels[ServiceLabel] else ""
  }

  /** A Go map lookup: a missing service reads as the zero value. */
  function Lookup(c: Compose, name: string): EnvironmentService {
    if name in c.services then c.services[name] else EnvironmentService("", "", "", "")
  }

  /** The repository the workload's variables and labels belong to. */
  function ServiceRepo(service: string, ctx: Context): string {
    ctx.computeRepo(Lookup(ctx.compose, service).build, ctx.id.repo)
  }

  /** The six identity entries `addLabels` writes for the workload of `service`. */
  function IdentityLabels(service: string, ctx: Context): (r: map<string, string>)
    ensures r.Keys == IdentityKeys
    ensures ServiceLabel !in r
    ensures r["app"] == r["preview.ergomake.dev/id"] == Lookup(ctx.compose, service).id
    ensures r["preview.ergomake.dev/service"] == service
    ensures r["preview.ergomake.dev/owner"] == ctx.id.owner
    ensures r["preview.ergomake.dev/repo"] == ServiceRepo(service, ctx)
    ensures r["preview.ergomake.dev/sha"] == ctx.id.sha
  {
    var svc := Lookup(ctx.compose, service);
    map[
      "app" := svc.id,
      "preview.ergomake.dev/id" := svc.id,
      "preview.ergomake.dev/service" := service,
      "preview.ergomake.dev/owner" := ctx.id.owner,
      "preview.ergomake.dev/repo" := ServiceRepo(service, ctx),
      "preview.ergomake.dev/sha" := ctx.id.sha
    ]
  }

  /** `merged` is `m` with every entry of `extra` written over it, last write winning. */
  predicate MergedInto(merged: map<string, string>, m: map<string, string>, extra: map<string, string>) {
    && merged.Keys == m.Keys + extra.Keys
    && (forall k :: k in extra ==> merged[k] == extra[k])
    && (forall k :: k in m && k !in extra ==> merged[k] == m[k])
  }

  /** The four label and annotation maps of the workload and its pod, each merged with `ls`. */
  function Labelled(d: Deployment, ls: map<string, string>): (r: Deployment)
    ensures MergedInto(r.meta.labels, d.meta.labels, ls)
    ensures MergedInto(r.meta.annotations, d.meta.annotations, ls)
    ensures MergedInto(r.template.meta.labels, d.template.meta.labels, ls)
    ensures MergedInto(r.template.meta.annotations, d.template.meta.annotations, ls)
    ensures r.meta.(labels := d.meta.labels, annotations := d.meta.annotations) == d.meta
    ensures r.template.meta.(labels := d.template.meta.labels, annotations := d.template.meta.annotations) == d.template.meta
    ensures r.replicas == d.replicas && Spec(r) == Spec(d)
  {
    d.(meta := d.meta.(labels := d.meta.labels + ls, annotations := d.meta.annotations + ls),
       template := d.template.(meta := d.template.meta.(labels := d.template.meta.labels + ls,
                                                        annotations := d.template.meta.annotations + ls)))
  }

  /** The merge loop `for k, v := range labels { merged[k] = v }`. */
  method MergeLabels(m: map<string, string>, extra: map<string, string>) returns (merged: map<string, string>)
    ensures MergedInto(merged, m, extra)
    ensures merged == m + extra
  {
    merged := m;
    var remaining := extra.Keys;
    while remaining != {}
      invariant remaining <= extra.Keys
      invariant merged.Keys == m.Keys + (extra.Keys - remaining)
      invariant forall k :: k in extra.Keys - remaining ==> merged[k] == extra[k]
      invariant forall k :: k in m && k !in extra.Keys - remaining ==> merged[k] == m[k]
      decreases remaining
    {
      var k :| k in remaining;
      merged := merged[k := extra[k]];
      remaining := remaining - {k};
    }
  }

  /** `addLabels`: the identity entries merged into the four maps. */
  method AddLabels(d: Deployment, ctx: Context) returns (r: Deployment)
    ensures r == Labelled(d, IdentityLabels(ServiceName(d), ctx))
  {
    var ls := IdentityLabels(ServiceName(d), ctx);
    var deploymentLabels := MergeLabels(d.meta.labels, ls);
    var deploymentAnnotations := MergeLabels(d.meta.annotations, ls);
    var podLabels := MergeLabels(d.template.meta.labels, ls);
    var podAnnotations := MergeLabels(d.template.meta.annotations, ls);
    r := d.(meta := d.meta.(labels := deploymentLabels, annotations := deploymentAnnotations),
            template := d.template.(meta := d.template.meta.(labels := podLabels, annotations := podAnnotations)));
  }

  /**
    Labelling twice is labelling once: the service label that selects the
    identity is not one of the identity keys, so the second pass writes the
    same entries over themselves.
   */
  lemma LabelledIdempotent(d: Deployment, ctx: Context)
    ensures var once := Labelled(d, IdentityLabels(ServiceName(d), ctx));
      Labelled(once, IdentityLabels(ServiceName(once), ctx)) == once
  {
    var ls := IdentityLabels(ServiceName(d), ctx);
    var once := Labelled(d, ls);
    assert ServiceName(once) == ServiceName(d);
    assert IdentityLabels(ServiceName(once), ctx) == ls;
    MergeTwice(d.meta.labels, ls);
    MergeTwice(d.meta.annotations, ls);
    MergeTwice(d.template.meta.labels, ls);
    MergeTwice(d.template.meta.annotations, ls);
  }

  lemma MergeTwice(m: map<string, string>, ls: map<string, string>)
    ensures (m + ls) + ls == m + ls
  {
  }

  // ---------------------------------------------------------------------------
  // addEnvVars

  /** `<service id>-env-vars-secret`. */
  function EnvSecretName(service: string, ctx: Context): string {
    Lookup(ctx.compose, service).id + "-env-vars-secret"
  }

  /** The Secret data the loop builds: one key per variable name, the last value of a name winning. */
  function SecretData(vars: seq<EnvVarEntry>): (r: map<string, string>)
    ensures r.Keys == set v | v in vars :: v.name
  {
    if vars == [] then map[]
    else
      var init := vars[..|vars| - 1];
      var last := vars[|vars| - 1];
      assert vars == init + [last];
      assert forall v :: v in vars <==> v in init || v == last;
      SecretData(init)[last.name := last.value]
  }

  /** A name the provider lists once more later on is overwritten: the last occurrence decides the value. */
  lemma {:induction false} SecretDataLastWins(vars: seq<EnvVarEntry>, i: nat)
    requires i < |vars|
    requires forall j :: i < j < |vars| ==> vars[j].name != vars[i].name
    ensures SecretData(vars)[vars[i].name] == vars[i].value
  {
    var init := vars[..|vars| - 1];
    if i < |vars| - 1 {
      assert init[i] == vars[i];
      SecretDataLastWins(init, i);
    }
  }

  /** The env entries the loop builds: one per variable, in order, each read from the secret by its name. */
  function SecretRefs(vars: seq<EnvVarEntry>, secretName: string): (r: seq<EnvVar>)
    ensures |r| == |vars|
    ensures forall i :: 0 <= i < |vars| ==>
      r[i].name == vars[i].name && r[i].value == "" && r[i].valueFrom == Some(SecretKeyRef(secretName, vars[i].name))
  {
    if vars == [] then []
    else SecretRefs(vars[..|vars| - 1], secretName) +
         [EnvVar(vars[|vars| - 1].name, "", Some(SecretKeyRef(secretName, vars[|vars| - 1].name)))]
  }

  /** Every container's env gains `refs` at its end; nothing else changes. */
  function EnvAppended(d: Deployment, refs: seq<EnvVar>): (r: Deployment)
    ensures |Containers(r)| == |Containers(d)|
    ensures forall i :: 0 <= i < |Containers(r)| ==> Containers(r)[i].env == Containers(d)[i].env + refs
    ensures forall i :: 0 <= i < |Containers(r)| ==> Containers(r)[i].(env := Containers(d)[i].env) == Containers(d)[i]
    ensures WithContainers(r, Containers(d)) == d
  {
    WithContainers(d, EnvExtended(Containers(d), refs))
  }

  function EnvExtended(cs: seq<Container>, refs: seq<EnvVar>): (r: seq<Container>)
    ensures |r| == |cs|
    ensures forall i :: 0 <= i < |cs| ==> r[i] == cs[i].(env := cs[i].env + refs)
  {
    if cs == [] then [] else [cs[0].(env := cs[0].env + refs)] + EnvExtended(cs[1..], refs)
  }

  /** The env-var Secret for a list of variables. */
  function EnvSecret(d: Deployment, ctx: Context, vars: seq<EnvVarEntry>): Secret {
    Secret(ObjectMeta(EnvSecretName(ServiceName(d), ctx), d.meta.namespace, map[], map[]), "", SecretData(vars))
  }

  /**
    `addEnvVars` as a value: a provider error aborts; otherwise a Secret named
    after the service id, in the workload's namespace, whose keys are exactly
    the variable names, and every container referring to it once per variable,
    after its own env, in provider order. The Secret is produced even when
    there are no variables.
   */
  function EnvVarsAdded(d: Deployment, ctx: Context): Result<(Deployment, Secret)>
  {
    match ctx.listEnvVars(ctx.id.owner, ServiceRepo(ServiceName(d), ctx))
    case Err(e) => Err(Wrapped(ListingEnvVars, e))
    case Ok(vars) =>
      var refs := SecretRefs(vars, EnvSecretName(ServiceName(d), ctx));
      Ok((EnvAppended(d, refs), EnvSecret(d, ctx, vars)))
  }

  /**
    What `addEnvVars` guarantees: a provider error aborts; otherwise the Secret
    is named after the service id and lives in the workload's namespace, its
    keys are exactly the variable names, and every container keeps its own env
    followed by one reference into that Secret per variable, in provider order.
   */
  lemma EnvVarsAddedSpec(d: Deployment, ctx: Context)
    ensures EnvVarsAdded(d, ctx).Err? <==> ctx.listEnvVars(ctx.id.owner, ServiceRepo(ServiceName(d), ctx)).Err?
    ensures EnvVarsAdded(d, ctx).Err? ==> EnvVarsAdded(d, ctx).error == Wrapped(ListingEnvVars, ctx.listEnvVars(ctx.id.owner, ServiceRepo(ServiceName(d), ctx)).error)
    ensures EnvVarsAdded(d, ctx).Ok? ==>
      var vars := ctx.listEnvVars(ctx.id.owner, ServiceRepo(ServiceName(d), ctx)).value;
      var (d', secret) := EnvVarsAdded(d, ctx).value;
      && secret.meta.name == EnvSecretName(ServiceName(d), ctx)
      && secret.meta.namespace == d.meta.namespace
      && secret.data.Keys == (set v | v in vars :: v.name)
      && |Containers(d')| == |Containers(d)|
      && (forall i :: 0 <= i < |Containers(d')| ==>
            && |Containers(d')[i].env| == |Containers(d)[i].env| + |vars|
            && Containers(d')[i].env[..|Containers(d)[i].env|] == Containers(d)[i].env
            && (forall j :: 0 <= j < |vars| ==>
                  Containers(d')[i].env[|Containers(d)[i].env| + j].valueFrom ==
                    Some(SecretKeyRef(EnvSecretName(ServiceName(d), ctx), vars[j].name))))
      && WithContainers(d', Containers(d)) == d
  {
    var listed := ctx.listEnvVars(ctx.id.owner, ServiceRepo(ServiceName(d), ctx));
    if listed.Ok? {
      var refs := SecretRefs(listed.value, EnvSecretName(ServiceName(d), ctx));
      var d' := EnvAppended(d, refs);
      assert forall i :: 0 <= i < |Containers(d')| ==> Containers(d')[i].env == Containers(d)[i].env + refs;
    }
  }

  lemma SecretDataSnoc(vars: seq<EnvVarEntry>, i: nat)
    requires i < |vars|
    ensures SecretData(vars[..i + 1]) == SecretData(vars[..i])[vars[i].name := vars[i].value]
  {
    assert vars[..i + 1][..i] == vars[..i];
  }

  lemma SecretRefsSnoc(vars: seq<EnvVarEntry>, i: nat, secretName: string)
    requires i < |vars|
    ensures SecretRefs(vars[..i + 1], secretName) ==
      SecretRefs(vars[..i], secretName) + [EnvVar(vars[i].name, "", Some(SecretKeyRef(secretName, vars[i].name)))]
  {
    assert vars[..i + 1][..i] == vars[..i];
  }

  /** The loop over the provider's variables: the Secret data and the env entries referring to it. */
  method CollectEnvVars(vars: seq<EnvVarEntry>, secretName: string) returns (data: map<string, string>, refs: seq<EnvVar>)
    ensures data == SecretData(vars)
    ensures refs == SecretRefs(vars, secretName)
  {
    data := map[];
    refs := [];
    var i := 0;
    while i < |vars|
      invariant 0 <= i <= |vars|
      invariant data == SecretData(vars[..i])
      invariant refs == SecretRefs(vars[..i], secretName)
    {
      SecretDataSnoc(vars, i);
      SecretRefsSnoc(vars, i, secretName);
      data := data[vars[i].name := vars[i].value];
      refs := refs + [EnvVar(vars[i].name, "", Some(SecretKeyRef(secretName, vars[i].name)))];
      i := i + 1;
    }
    assert vars[..i] == vars;
  }

  /** The index loop appending the env entries to every container. */
  method AppendEnv(d: Deployment, refs: seq<EnvVar>) returns (r: Deployment)
    ensures r == EnvAppended(d, refs)
  {
    var cs := Containers(d);
    var k := 0;
    while k < |cs|
      invariant 0 <= k <= |cs| == |Containers(d)|
      invariant forall j :: 0 <= j < k ==> cs[j] == Containers(d)[j].(env := Containers(d)[j].env + refs)
      invariant forall j :: k <= j < |cs| ==> cs[j] == Containers(d)[j]
    {
      cs := cs[k := cs[k].(env := cs[k].env + refs)];
      k := k + 1;
    }
    r := WithContainers(d, cs);
    assert Containers(r) == Containers(EnvAppended(d, refs));
  }

  /** `addEnvVars`. */
  method AddEnvVars(d: Deployment, ctx: Context) returns (r: Result<(Deployment, Secret)>)
    ensures r == EnvVarsAdded(d, ctx)
  {
    var listed := ctx.listEnvVars(ctx.id.owner, ServiceRepo(ServiceName(d), ctx));
    if listed.Err? {
      return Err(Wrapped(ListingEnvVars, listed.error));
    }
    var name := EnvSecretName(ServiceName(d), ctx);
    var data, refs := CollectEnvVars(listed.value, name);
    var d' := AppendEnv(d, refs);
    r := Ok((d', Secret(ObjectMeta(name, d.meta.namespace, map[], map[]), "", data)));
  }

  // ---------------------------------------------------------------------------
  // fixDeployment

  /** The policy steps of `fixDeployment`, in the source's order, before the env vars. */
  function PolicyApplied(d: Deployment, ctx: Context): Deployment {
    ResourceLimitsApplied(PullPolicyFixed(WithRestartPolicy(WithNodeConstraints(
      WithSecurityRestrictions(Labelled(d, IdentityLabels(ServiceName(d), ctx)))))))
  }

  /** `fixDeployment` as a value: other kinds pass through with no extra objects. */
  function DeploymentFixed(o: K8sObject, ctx: Context): Result<(K8sObject, seq<K8sObject>)> {
    if !o.DeploymentObject? then Ok((o, []))
    else
      match EnvVarsAdded(PolicyApplied(o.deployment, ctx), ctx)
      case Err(e) => Err(Wrapped(AddingEnvVars, e))
      case Ok((d, secret)) => Ok((DeploymentObject(d), [SecretObject(secret)]))
  }

  /** `fixDeployment`: the enrichers in order; the env-var Secret is the one extra object. */
  method FixDeployment(o: K8sObject, ctx: Context) returns (r: Result<(K8sObject, seq<K8sObject>)>)
    ensures r == DeploymentFixed(o, ctx)
  {
    if !o.DeploymentObject? {
      return Ok((o, []));
    }
    var d := AddLabels(o.deployment, ctx);
    d := WithSecurityRestrictions(d);
    d := WithNodeConstraints(d);
    d := WithRestartPolicy(d);
    d := FixPullPolicy(d);
    d := AddResourceLimits(d);
    var withEnv := AddEnvVars(d, ctx);
    if withEnv.Err? {
      return Err(Wrapped(AddingEnvVars, withEnv.error));
    }
    return Ok((DeploymentObject(withEnv.value.0), [SecretObject(withEnv.value.1)]));
  }

  // ---------------------------------------------------------------------------
  // getSecretForImage

  const DockerConfigJsonKey: string := ".dockerconfigjson"
  const DockerConfigJsonType: string := "kubernetes.io/dockerconfigjson"

  /** The docker config blob `{"auths": {"<url>": { "auth": "<token>" }}}`. */
  function AuthJson(url: string, encodedToken: string): string {
    "{\"auths\": {\"" + url + "\": { \"auth\": \"" + encodedToken + "\" }}}"
  }

  /** The image of the workload's first container, when it has one. */
  function FirstImage(o: K8sObject): Option<string> {
    if o.DeploymentObject? && |Containers(o.deployment)| > 0 then Some(Containers(o.deployment)[0].image) else None
  }

  /** A pull credential is attempted only for a workload whose first image is not in the tenant registry. */
  predicate NeedsCreds(o: K8sObject, ctx: Context) {
    FirstImage(o).Some? && !HasPrefix(FirstImage(o).value, ctx.cfg.userlandRegistry)
  }

  /**
    `getSecretForImage`: nothing for other kinds, for tenant-registry images
    and for images the provider has no credentials for; a provider failure is
    an error; found credentials give a dockerconfigjson Secret
    `<workload>-dockerconfig` holding the base64 token, and the workload's pull
    secrets become exactly that one name. A workload without containers makes
    the source index out of range.
   */
  function SecretForImage(o: K8sObject, ctx: Context): Result<(K8sObject, Option<Secret>)>
  {
    if !o.DeploymentObject? then Ok((o, None))
    else
      var d := o.deployment;
      if |Containers(d)| == 0 then Err(Panic("index out of range [0] with length 0"))
      else
        var image := Containers(d)[0].image;
        if HasPrefix(image, ctx.cfg.userlandRegistry) then Ok((o, None))
        else
          match ctx.fetchCreds(ctx.id.owner, image)
          case RegistryNotFound => Ok((o, None))
          case FetchFailed(e) => Err(Wrapped(FetchingToken(image), e))
          case Found(c) =>
            var secret := Secret(ObjectMeta(d.meta.name + "-dockerconfig", d.meta.namespace, map[], map[]),
                                 DockerConfigJsonType,
                                 map[DockerConfigJsonKey := AuthJson(c.url, ctx.base64(c.token))]);
            Ok((DeploymentObject(WithSpec(d, Spec(d).(imagePullSecrets := [secret.meta.name]))), Some(secret)))
  }

  /** What `getSecretForImage` guarantees, case by case. */
  lemma SecretForImageSpec(o: K8sObject, ctx: Context)
    ensures o.DeploymentObject? && |Containers(o.deployment)| == 0 ==> SecretForImage(o, ctx).Err? && SecretForImage(o, ctx).error.Panic?
    ensures FirstImage(o).Some? && !NeedsCreds(o, ctx) ==> SecretForImage(o, ctx) == Ok((o, None))
    ensures !o.DeploymentObject? ==> SecretForImage(o, ctx) == Ok((o, None))
    ensures NeedsCreds(o, ctx) ==>
      match ctx.fetchCreds(ctx.id.owner, FirstImage(o).value)
      case RegistryNotFound => SecretForImage(o, ctx) == Ok((o, None))
      case FetchFailed(e) => SecretForImage(o, ctx) == Err(Wrapped(FetchingToken(FirstImage(o).value), e))
      case Found(c) =>
        && SecretForImage(o, ctx).Ok? && SecretForImage(o, ctx).value.1.Some?
        && var (o', secret) := (SecretForImage(o, ctx).value.0, SecretForImage(o, ctx).value.1.value);
        && secret.meta.name == o.deployment.meta.name + "-dockerconfig"
        && secret.meta.namespace == o.deployment.meta.namespace
        && secret.secretType == DockerConfigJsonType
        && secret.data == map[DockerConfigJsonKey := AuthJson(c.url, ctx.base64(c.token))]
        && o'.DeploymentObject?
        && Spec(o'.deployment).imagePullSecrets == [secret.meta.name]
        && WithSpec(o'.deployment, Spec(o.deployment)) == o.deployment
  {
  }

  // ---------------------------------------------------------------------------
  // fixOutput

  /** One iteration of `fixOutput`: namespace, `fixDeployment`, `getSecretForImage`. */
  function ObjectFixed(o: K8sObject, ns: string, ctx: Context): Result<(K8sObject, seq<K8sObject>)> {
    match DeploymentFixed(WithNamespace(o, ns), ctx)
    case Err(e) => Err(Wrapped(FixingDeployment, e))
    case Ok((o', extra)) =>
      match SecretForImage(o', ctx)
      case Err(e) => Err(Wrapped(GettingSecretForImage, e))
      case Ok((o'', secret)) =>
        Ok((o'', extra + (if secret.Some? then [SecretObject(secret.value)] else [])))
  }

  /** What fixing one object yields: the fixed object and its extra objects, or an error. */
  type Outcome = Result<(K8sObject, seq<K8sObject>)>

  /** The outcome of fixing each object on its own, in order. */
  function Outcomes(objs: seq<K8sObject>, ns: string, ctx: Context): (r: seq<Outcome>)
    ensures |r| == |objs|
    ensures forall i :: 0 <= i < |objs| ==> r[i] == ObjectFixed(objs[i], ns, ctx)
  {
    seq(|objs|, i requires 0 <= i < |objs| => ObjectFixed(objs[i], ns, ctx))
  }

  /**
    The loop of `fixOutput` over the outcomes: the fixed objects in order and
    the extra objects in order, or the error of the first object that fails.
   */
  function Collect(rs: seq<Outcome>): Result<(seq<K8sObject>, seq<K8sObject>)> {
    if rs == [] then Ok(([], []))
    else
      match Collect(rs[..|rs| - 1])
      case Err(e) => Err(e)
      case Ok((fixed, extra)) =>
        match rs[|rs| - 1]
        case Err(e) => Err(e)
        case Ok((o, more)) => Ok((fixed + [o], extra + more))
  }

  /** `fixOutput` as a value. */
  function AllFixed(objs: seq<K8sObject>, ns: string, ctx: Context): Result<(seq<K8sObject>, seq<K8sObject>)> {
    Collect(Outcomes(objs, ns, ctx))
  }

  lemma CollectStep(rs: seq<Outcome>, i: nat, fixed: seq<K8sObject>, extra: seq<K8sObject>, o: K8sObject, more: seq<K8sObject>)
    requires i < |rs|
    requires Collect(rs[..i]) == Ok((fixed, extra))
    requires rs[i] == Ok((o, more))
    ensures Collect(rs[..i + 1]) == Ok((fixed + [o], extra + more))
  {
    assert rs[..i + 1][..i] == rs[..i];
  }

  /** Once a prefix fails, the whole list fails with the same error. */
  lemma {:induction false} CollectErrorSticks(rs: seq<Outcome>, n: nat)
    requires n <= |rs|
    requires Collect(rs[..n]).Err?
    ensures Collect(rs) == Collect(rs[..n])
    decreases |rs| - n
  {
    if n < |rs| {
      assert rs[..n + 1][..n] == rs[..n];
      CollectErrorSticks(rs, n + 1);
    } else {
      assert rs[..n] == rs;
    }
  }

  /** The first failing outcome decides the error of the whole list. */
  lemma CollectFails(rs: seq<Outcome>, i: nat)
    requires i < |rs|
    requires Collect(rs[..i]).Ok? && rs[i].Err?
    ensures Collect(rs) == Err(rs[i].error)
  {
    assert rs[..i + 1][..i] == rs[..i];
    CollectErrorSticks(rs, i + 1);
  }

  /** The body of `fixOutput`'s loop for one object. */
  method FixObject(o: K8sObject, ns: string, ctx: Context) returns (r: Outcome)
    ensures r == ObjectFixed(o, ns, ctx)
  {
    var fixedDeployment := FixDeployment(WithNamespace(o, ns), ctx);
    if fixedDeployment.Err? {
      return Err(Wrapped(FixingDeployment, fixedDeployment.error));
    }
    var secretObj := SecretForImage(fixedDeployment.value.0, ctx);
    assert DeploymentFixed(WithNamespace(o, ns), ctx) == fixedDeployment;
    if secretObj.Err? {
      return Err(Wrapped(GettingSecretForImage, secretObj.error));
    }
    var extra := fixedDeployment.value.1;
    if secretObj.value.1.Some? {
      extra := extra + [SecretObject(secretObj.value.1.value)];
    } else {
      assert extra == extra + [];
    }
    r := Ok((secretObj.value.0, extra));
  }

  /** One iteration of `fixOutput`'s loop, on the object at index `i`; `rs` are the outcomes of the input. */
  method FixAt(objs: array<K8sObject>, i: nat, ns: string, ctx: Context, ghost input: seq<K8sObject>,
               ghost rs: seq<Outcome>, extra: seq<K8sObject>)
    returns (extra': seq<K8sObject>, err: Option<Error>)
    requires i < objs.Length == |input| == |rs|
    requires rs[i] == ObjectFixed(input[i], ns, ctx)
    requires Collect(rs[..i]) == Ok((objs[..i], extra))
    requires objs[i..] == input[i..]
    modifies objs
    ensures err.None? ==> Collect(rs[..i + 1]) == Ok((objs[..i + 1], extra'))
    ensures err.None? ==> objs[i + 1..] == input[i + 1..]
    ensures err.Some? ==> Collect(rs) == Err(err.value)
  {
    assert objs[i] == input[i];
    var fixedObj := FixObject(objs[i], ns, ctx);
    if fixedObj.Err? {
      CollectFails(rs, i);
      return [], Some(fixedObj.error);
    }
    CollectStep(rs, i, objs[..i], extra, fixedObj.value.0, fixedObj.value.1);
    objs[i] := fixedObj.value.0;
    extra' := extra + fixedObj.value.1;
    assert objs[..i + 1] == old(objs[..i]) + [fixedObj.value.0];
    assert objs[i + 1..] == old(objs[i + 1..]);
    err := None;
  }

  /** `fixOutput`: rewrites every object of the list in place and returns the extra objects. */
  method FixOutput(objs: array<K8sObject>, ns: string, ctx: Context) returns (extra: seq<K8sObject>, err: Option<Error>)
    modifies objs
    ensures err.None? <==> AllFixed(old(objs[..]), ns, ctx).Ok?
    ensures err.None? ==> objs[..] == AllFixed(old(objs[..]), ns, ctx).value.0
    ensures err.None? ==> extra == AllFixed(old(objs[..]), ns, ctx).value.1
    ensures err.Some? ==> err.value == AllFixed(old(objs[..]), ns, ctx).error
  {
    ghost var input := objs[..];
    ghost var rs := Outcomes(input, ns, ctx);
    extra := [];
    var i := 0;
    while i < objs.Length
      invariant 0 <= i <= objs.Length
      invariant Collect(rs[..i]) == Ok((objs[..i], extra))
      invariant objs[i..] == input[i..]
    {
      extra, err := FixAt(objs, i, ns, ctx, input, rs, extra);
      if err.Some? {
        return [], err;
      }
      i := i + 1;
    }
    assert rs[..i] == rs;
    assert objs[..] == objs[..i];
    err := None;
  }

  // ---------------------------------------------------------------------------
  // What fixOutput guarantees

  /** The pod-level guarantees of a fixed workload. */
  predicate SpecHardened(spec: PodSpec) {
    && spec.automountServiceAccountToken == Some(false)
    && spec.securityContext == Some(RestrictedContext)
    && RoleKey in spec.nodeSelector && spec.nodeSelector[RoleKey] == "preview"
    && PreviewToleration in spec.tolerations
    && spec.restartPolicy in {"", "Always"}
  }

  /** The container-level guarantees of a fixed workload. */
  predicate ContainersHardened(cs: seq<Container>) {
    forall c :: c in cs ==>
      && c.imagePullPolicy == IfNotPresent
      && c.resources.limits == PreviewQuota()
      && c.resources.requests == PreviewQuota()
  }

  /** The guarantees every workload leaving `fixDeployment` carries. */
  predicate Hardened(d: Deployment) {
    SpecHardened(Spec(d)) && ContainersHardened(Containers(d))
  }

  /** The pod-level steps establish the pod-level guarantees and add exactly one toleration. */
  lemma PodPoliciesHardened(d: Deployment)
    ensures var r := WithRestartPolicy(WithNodeConstraints(WithSecurityRestrictions(d)));
      && SpecHardened(Spec(r))
      && Spec(r).tolerations == Spec(d).tolerations + [PreviewToleration]
      && Containers(r) == Containers(d)
      && r.meta == d.meta
  {
    var n := WithNodeConstraints(WithSecurityRestrictions(d));
    assert Spec(n).tolerations[|Spec(n).tolerations| - 1] == PreviewToleration;
  }

  /** The container-level steps establish the container-level guarantees. */
  lemma ContainerPoliciesHardened(cs: seq<Container>)
    ensures ContainersHardened(WithQuota(PullIfNotPresent(cs)))
    ensures |WithQuota(PullIfNotPresent(cs))| == |cs|
    ensures forall i :: 0 <= i < |cs| ==> WithQuota(PullIfNotPresent(cs))[i].image == cs[i].image
  {
    var r := WithQuota(PullIfNotPresent(cs));
    forall c | c in r
      ensures c.imagePullPolicy == IfNotPresent
    {
      var i :| 0 <= i < |r| && r[i] == c;
      assert PullIfNotPresent(cs)[i].imagePullPolicy == IfNotPresent;
    }
  }

  /**
    The policy steps harden the workload, add exactly one toleration, keep its
    name, namespace and containers' images, and merge the identity labels into
    its labels.
   */
  lemma PolicyAppliedHardened(d: Deployment, ctx: Context)
    ensures var r := PolicyApplied(d, ctx);
      && Hardened(r)
      && r.meta.namespace == d.meta.namespace
      && r.meta.name == d.meta.name
      && Spec(r).tolerations == Spec(d).tolerations + [PreviewToleration]
      && MergedInto(r.meta.labels, d.meta.labels, IdentityLabels(ServiceName(d), ctx))
      && |Containers(r)| == |Containers(d)|
      && (forall i :: 0 <= i < |Containers(r)| ==> Containers(r)[i].image == Containers(d)[i].image)
  {
    var l := Labelled(d, IdentityLabels(ServiceName(d), ctx));
    var p := WithRestartPolicy(WithNodeConstraints(WithSecurityRestrictions(l)));
    PodPoliciesHardened(l);
    ContainerPoliciesHardened(Containers(l));
    var r := PolicyApplied(d, ctx);
    assert r == WithContainers(p, WithQuota(PullIfNotPresent(Containers(p))));
  }

  /** Appending env entries touches nothing `Hardened` speaks of. */
  lemma EnvAppendedKeepsHardened(d: Deployment, refs: seq<EnvVar>)
    requires Hardened(d)
    ensures Hardened(EnvAppended(d, refs))
  {
    var cs := EnvExtended(Containers(d), refs);
    forall c | c in cs
      ensures c.imagePullPolicy == IfNotPresent
      ensures c.resources.limits == PreviewQuota() && c.resources.requests == PreviewQuota()
    {
      var i :| 0 <= i < |cs| && cs[i] == c;
      assert Containers(d)[i] in Containers(d);
    }
  }

  /**
    `fixDeployment` on a workload that succeeds: the workload comes out
    hardened, with the identity labels and one more toleration, in its own
    namespace, and the one extra object is its env-var Secret in that namespace.
   */
  lemma DeploymentFixedHardened(d: Deployment, ctx: Context)
    requires DeploymentFixed(DeploymentObject(d), ctx).Ok?
    ensures var (o, extra) := DeploymentFixed(DeploymentObject(d), ctx).value;
      && o.DeploymentObject?
      && Hardened(o.deployment)
      && o.deployment.meta.namespace == d.meta.namespace
      && o.deployment.meta.name == d.meta.name
      && Spec(o.deployment).tolerations == Spec(d).tolerations + [PreviewToleration]
      && MergedInto(o.deployment.meta.labels, d.meta.labels, IdentityLabels(ServiceName(d), ctx))
      && |extra| == 1 && extra[0].SecretObject?
      && extra[0].secret.meta.name == EnvSecretName(ServiceName(d), ctx)
      && extra[0].secret.meta.namespace == d.meta.namespace
  {
    var p := PolicyApplied(d, ctx);
    PolicyAppliedHardened(d, ctx);
    assert ServiceName(p) == ServiceName(d) by {
      assert ServiceLabel !in IdentityLabels(ServiceName(d), ctx);
    }
    var listed := ctx.listEnvVars(ctx.id.owner, ServiceRepo(ServiceName(p), ctx));
    var refs := SecretRefs(listed.value, EnvSecretName(ServiceName(p), ctx));
    EnvAppendedKeepsHardened(p, refs);
  }

  /** Attaching a pull Secret changes only the pull secrets of the workload. */
  lemma SecretForImageKeeps(d: Deployment, ctx: Context)
    requires SecretForImage(DeploymentObject(d), ctx).Ok?
    ensures var (o, secret) := SecretForImage(DeploymentObject(d), ctx).value;
      && o.DeploymentObject?
      && o.deployment.meta == d.meta
      && Spec(o.deployment).(imagePullSecrets := Spec(d).imagePullSecrets) == Spec(d)
      && (secret.Some? ==> secret.value.meta.namespace == d.meta.namespace)
  {
  }

  /** Other kinds only change namespace and bring no extra objects. */
  lemma ObjectFixedOther(o: K8sObject, ns: string, ctx: Context)
    requires !o.DeploymentObject?
    ensures ObjectFixed(o, ns, ctx) == Ok((WithNamespace(o, ns), []))
  {
    var o' := WithNamespace(o, ns);
    assert !o'.DeploymentObject?;
    assert DeploymentFixed(o', ctx) == Ok((o', []));
    assert SecretForImage(o', ctx) == Ok((o', None));
    var none: seq<K8sObject> := [];
    assert none + none == none;
  }

  /**
    A workload that is fixed without error comes out hardened, in the
    namespace, with the identity labels and one more toleration, followed by
    its env-var Secret and at most one pull Secret, all in the namespace.
   */
  lemma ObjectFixedDeployment(d: Deployment, ns: string, ctx: Context)
    requires ObjectFixed(DeploymentObject(d), ns, ctx).Ok?
    ensures var (o, extra) := ObjectFixed(DeploymentObject(d), ns, ctx).value;
      && o.DeploymentObject?
      && Hardened(o.deployment)
      && o.deployment.meta.namespace == ns
      && Spec(o.deployment).tolerations == Spec(d).tolerations + [PreviewToleration]
      && MergedInto(o.deployment.meta.labels, d.meta.labels, IdentityLabels(ServiceName(d), ctx))
      && 1 <= |extra| <= 2
      && extra[0].SecretObject? && extra[0].secret.meta.name == EnvSecretName(ServiceName(d), ctx)
      && SecretsIn(extra, ns)
  {
    var dn := WithNamespace(DeploymentObject(d), ns).deployment;
    assert ServiceName(dn) == ServiceName(d);
    DeploymentFixedHardened(dn, ctx);
    var (o1, envExtra) := DeploymentFixed(DeploymentObject(dn), ctx).value;
    SecretForImageKeeps(o1.deployment, ctx);
    var (o2, pull) := SecretForImage(o1, ctx).value;
    var extra := envExtra + (if pull.Some? then [SecretObject(pull.value)] else []);
    assert ObjectFixed(DeploymentObject(d), ns, ctx).value == (o2, extra);
    assert SecretsIn(extra, ns) by {
      forall x | x in extra
        ensures x.SecretObject? && InNamespace(x, ns)
      {
        if x !in envExtra {
          assert x == SecretObject(pull.value);
        }
      }
    }
  }

  /** Both objects are workloads, or neither is. */
  predicate SameKind(a: K8sObject, b: K8sObject) {
    a.DeploymentObject? == b.DeploymentObject?
  }

  predicate InNamespace(o: K8sObject, ns: string) {
    Meta(o).namespace == ns
  }

  /** Every extra object is a Secret in the namespace. */
  predicate SecretsIn(extra: seq<K8sObject>, ns: string) {
    forall x :: x in extra ==> x.SecretObject? && InNamespace(x, ns)
  }

  /** A fixed object keeps its kind, is in the namespace, and so is every extra object. */
  lemma ObjectFixedNamespace(o: K8sObject, ns: string, ctx: Context)
    requires ObjectFixed(o, ns, ctx).Ok?
    ensures var (o', extra) := ObjectFixed(o, ns, ctx).value;
      InNamespace(o', ns) && SameKind(o', o) && SecretsIn(extra, ns)
  {
    if o.DeploymentObject? {
      ObjectFixedDeployment(o.deployment, ns, ctx);
    } else {
      ObjectFixedOther(o, ns, ctx);
    }
  }

  /** A successful outcome of fixing `o` keeps its kind and places everything in the namespace. */
  predicate PlacedIn(o: K8sObject, r: Outcome, ns: string) {
    r.Ok? ==> InNamespace(r.value.0, ns) && SameKind(r.value.0, o) && SecretsIn(r.value.1, ns)
  }

  lemma {:induction false} CollectPlaced(objs: seq<K8sObject>, rs: seq<Outcome>, ns: string)
    requires |rs| == |objs|
    requires forall i :: 0 <= i < |objs| ==> PlacedIn(objs[i], rs[i], ns)
    requires Collect(rs).Ok?
    ensures var (fixed, extra) := Collect(rs).value;
      && |fixed| == |objs|
      && (forall i :: 0 <= i < |objs| ==> SameKind(fixed[i], objs[i]) && InNamespace(fixed[i], ns))
      && SecretsIn(extra, ns)
  {
    if rs != [] {
      var n := |rs| - 1;
      assert forall i :: 0 <= i < n ==> objs[..n][i] == objs[i] && rs[..n][i] == rs[i];
      CollectPlaced(objs[..n], rs[..n], ns);
      assert PlacedIn(objs[n], rs[n], ns);
    }
  }

  /**
    On success, `fixOutput` keeps the number and the kinds of the objects, and
    every output and every extra object is in the environment's namespace.
   */
  lemma AllFixedNamespace(objs: seq<K8sObject>, ns: string, ctx: Context)
    requires AllFixed(objs, ns, ctx).Ok?
    ensures var (fixed, extra) := AllFixed(objs, ns, ctx).value;
      && |fixed| == |objs|
      && (forall i :: 0 <= i < |objs| ==> SameKind(fixed[i], objs[i]) && InNamespace(fixed[i], ns))
      && SecretsIn(extra, ns)
  {
    var rs := Outcomes(objs, ns, ctx);
    forall i | 0 <= i < |objs|
      ensures PlacedIn(objs[i], rs[i], ns)
    {
      if rs[i].Ok? {
        ObjectFixedNamespace(objs[i], ns, ctx);
      }
    }
    CollectPlaced(objs, rs, ns);
  }
}
