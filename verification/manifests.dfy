/**
  The Kubernetes objects the transformer produces and mutates, reduced to the
  fields it reads or writes. Resource quantities are plain byte counts.
 */
module Manifests {
  import opened Base

  datatype ObjectMeta = ObjectMeta(
    name: string,
    namespace: string,
    labels: map<string, string>,
    annotations: map<string, string>)

  datatype ResourceRequirements = ResourceRequirements(limits: map<string, int>, requests: map<string, int>)

  /** `valueFrom.secretKeyRef` of an environment variable. */
  datatype SecretKeyRef = SecretKeyRef(secretName: string, key: string)

  datatype EnvVar = EnvVar(name: string, value: string, valueFrom: Option<SecretKeyRef>)

  datatype Container = Container(
    name: string,
    image: string,
    imagePullPolicy: string,
    resources: ResourceRequirements,
    env: seq<EnvVar>)

  datatype Toleration = Toleration(key: string, operator: string, value: string, effect: string)

  datatype SeccompProfile = SeccompProfile(profileType: string)

  datatype PodSecurityContext = PodSecurityContext(
    runAsUser: Option<int>,
    runAsNonRoot: Option<bool>,
    seccompProfile: Option<SeccompProfile>)

  datatype PodSpec = PodSpec(
    containers: seq<Container>,
    automountServiceAccountToken: Option<bool>,
    securityContext: Option<PodSecurityContext>,
    nodeSelector: map<string, string>,
    tolerations: seq<Toleration>,
    restartPolicy: string,
    imagePullSecrets: seq<string>)

  datatype PodTemplate = PodTemplate(meta: ObjectMeta, spec: PodSpec)

  datatype Deployment = Deployment(meta: ObjectMeta, replicas: int, template: PodTemplate)

  datatype Secret = Secret(meta: ObjectMeta, secretType: string, data: map<string, string>)

  /** The heterogeneous object list: workloads, secrets, and every other kind (services, ingresses, ...). */
  datatype K8sObject =
    | DeploymentObject(deployment: Deployment)
    | SecretObject(secret: Secret)
    | OtherObject(kind: string, meta: ObjectMeta)

  /** The object metadata every kind carries. */
  function Meta(o: K8sObject): ObjectMeta {
    match o
    case DeploymentObject(d) => d.meta
    case SecretObject(s) => s.meta
    case OtherObject(_, m) => m
  }

  function WithMeta(o: K8sObject, m: ObjectMeta): (r: K8sObject)
    ensures Meta(r) == m
    ensures r.DeploymentObject? == o.DeploymentObject? && r.SecretObject? == o.SecretObject?
    ensures o.DeploymentObject? ==> r.deployment.(meta := o.deployment.meta) == o.deployment
    ensures o.SecretObject? ==> r.secret.(meta := o.secret.meta) == o.secret
    ensures o.OtherObject? ==> r.kind == o.kind
  {
    match o
    case DeploymentObject(d) => DeploymentObject(d.(meta := m))
    case SecretObject(s) => SecretObject(s.(meta := m))
    case OtherObject(k, _) => OtherObject(k, m)
  }

  function Spec(d: Deployment): PodSpec {
    d.template.spec
  }

  function WithSpec(d: Deployment, spec: PodSpec): (r: Deployment)
    ensures Spec(r) == spec
    ensures r.meta == d.meta && r.replicas == d.replicas && r.template.meta == d.template.meta
  {
    d.(template := d.template.(spec := spec))
  }

  function Containers(d: Deployment): seq<Container> {
    d.template.spec.containers
  }

  function WithContainers(d: Deployment, cs: seq<Container>): (r: Deployment)
    ensures Containers(r) == cs
    ensures Spec(r) == Spec(d).(containers := cs)
    ensures r.meta == d.meta && r.replicas == d.replicas && r.template.meta == d.template.meta
  {
    WithSpec(d, Spec(d).(containers := cs))
  }
}
