/** The API objects the operator reads and writes, as values, and its two custom resources.
    Literals whose content no decision depends on are carried as opaque `Literal`s. */
module Kubernetes {

  datatype Option<+T> = None | Some(value: T)

  datatype Literal = Literal(id: string)

  datatype Kind =
    | GatewayKind | ControllerKind | NamespaceKind | ServiceAccountKind
    | ClusterRoleKind | ClusterRoleBindingKind | RoleKind | RoleBindingKind
    | ConfigMapKind | DeploymentKind | ServiceKind | IngressClassKind | DefinitionKind

  /** Kind, namespace (empty for cluster-scoped objects) and name. */
  datatype Key = Key(kind: Kind, ns: string, name: string)

  /** `labels` is None for Go's nil map: reading it is fine, writing to it panics. */
  datatype Meta = Meta(name: string, ns: string, labels: Option<map<string, string>>, annotations: map<string, string>)

  datatype Subject = Subject(kind: string, apiGroup: string, name: string, ns: string)

  datatype RoleRef = RoleRef(kind: string, name: string, apiGroup: string)

  /** `from` is the field path of a downward-API reference, empty for a plain value. */
  datatype EnvVar = EnvVar(name: string, value: string, from: string)

  datatype ContainerPort = ContainerPort(name: string, protocol: string, port: int)

  datatype VolumeMount = VolumeMount(name: string, path: string, readOnly: bool)

  datatype Volume = Volume(name: string, source: Literal)

  datatype Container = Container(
    name: string, image: string, pullPolicy: string, args: seq<string>, ports: seq<ContainerPort>,
    resources: Literal, security: Literal, env: seq<EnvVar>, mounts: seq<VolumeMount>, probe: Literal)

  datatype PodTemplate = PodTemplate(
    name: string, ns: string, labels: map<string, string>, serviceAccount: string, hostNetwork: bool,
    dnsPolicy: string, security: Literal, scheduling: Literal, volumes: seq<Volume>, containers: seq<Container>)

  datatype DeploymentSpec = DeploymentSpec(
    replicas: Option<int>, selector: map<string, string>, strategy: Literal,
    progressDeadline: Option<int>, historyLimit: Option<int>, template: PodTemplate)

  /** The specification of a Deployment that does not exist yet. */
  const EMPTY_SPEC: DeploymentSpec :=
    DeploymentSpec(None, map[], Literal(""), None, None,
                   PodTemplate("", "", map[], "", false, "", Literal(""), Literal(""), [], []))

  datatype ServicePort = ServicePort(name: string, protocol: string, port: int, targetPort: int)

  datatype ServiceSpec = ServiceSpec(
    kind: string, selector: map<string, string>, ports: seq<ServicePort>,
    loadBalancerIP: string, sourceRanges: seq<string>, trafficPolicy: string)

  /** The specification of a Service that does not exist yet. */
  const EMPTY_SERVICE: ServiceSpec := ServiceSpec("", map[], [], "", [], "")

  datatype MeshConfig = MeshConfig(rootNamespace: string, configSources: seq<string>, discoveryAddress: string,
      rest: Literal)

  /** The output of the YAML encoder, one constructor per encoded Go type and hence injective, and plain text. */
  datatype Yaml =
    | NetworksYaml(networks: Literal) | MeshYaml(mesh: MeshConfig) | HigressYaml(config: Literal)
    | PlainText(text: string)

  // ---- The custom resources ----

  /** The user's service section, shared by both custom resources. */
  datatype ServiceParams = ServiceParams(
    kind: string, ports: seq<ServicePort>, loadBalancerIP: string, sourceRanges: seq<string>, trafficPolicy: string)

  datatype AccountParams = AccountParams(enable: bool, name: string, annotations: map<string, string>)

  datatype Skywalking = Skywalking(enable: bool, bootstrap: string)

  /** The user's settings for one container. */
  datatype ContainerParams = ContainerParams(
    name: string, repository: string, tag: string, pullPolicy: string, env: map<string, string>,
    ports: seq<ContainerPort>, resources: Option<Literal>, security: Option<Literal>,
    logLevel: string, logAsJson: bool)

  datatype GatewayFields = GatewayFields(
    replicas: Option<int>, selectorLabels: map<string, string>, service: Option<ServiceParams>,
    skywalking: Option<Skywalking>, network: string, container: ContainerParams, jwtPolicy: string,
    istio: bool, istioAPI: bool, istioNamespace: string, local: bool, hostNetwork: bool,
    podSecurity: Option<Literal>, strategy: Literal, scheduling: Literal, wasmPlugins: seq<string>,
    mesh: MeshConfig, networks: Literal)

  /** What the pilot's arguments are derived from, besides its container settings. */
  datatype PilotArgs = PilotArgs(clusterDomain: string, maxServerConnectionAge: string, oneNamespace: bool,
      plugins: seq<string>)

  /** No console is wanted when the name is empty. */
  datatype ConsoleFields = ConsoleFields(
    name: string, selectorLabels: map<string, string>, config: map<string, string>, container: ContainerParams)

  datatype ControllerFields = ControllerFields(
    replicas: Option<int>, selectorLabels: map<string, string>, service: Option<ServiceParams>,
    controller: ContainerParams, pilot: ContainerParams, jwtPolicy: string, revision: string,
    istio: bool, istioAPI: bool, istioNamespace: string, istiodAnalysis: Option<bool>, cluster: Option<string>,
    traceSampling: string, sniffOutbound: bool, sniffInbound: bool, extraRootCA: string, tokenAudience: string,
    ingressClass: string, mesh: MeshConfig, networks: Literal, higress: Literal,
    gatewayName: string, watchNamespace: string, enableStatus: bool, pilotArgs: PilotArgs, console: ConsoleFields)

  datatype Spec = GatewaySpec(gateway: GatewayFields) | ControllerSpec(controller: ControllerFields)

  /** A HigressGateway or HigressController. `rbac` and `account` are None where the Go pointer is nil. */
  datatype CR = CR(
    meta: Meta, deleting: bool, finalizers: set<string>, deployed: bool,
    rbac: Option<bool>, account: Option<AccountParams>, spec: Spec)

  datatype Obj =
    | CustomResource(cr: CR)
    | Namespace(meta: Meta, terminating: bool)
    | ServiceAccount(meta: Meta, owner: Option<Key>)
    | ClusterRole(meta: Meta, rules: Literal)
    | ClusterRoleBinding(meta: Meta, roleRef: RoleRef, subjects: seq<Subject>)
    | Role(meta: Meta, rules: Literal)
    | RoleBinding(meta: Meta, roleRef: RoleRef, subjects: seq<Subject>)
    | ConfigMap(meta: Meta, data: map<string, Yaml>)
    | Deployment(meta: Meta, owner: Option<Key>, deployment: DeploymentSpec)
    | Service(meta: Meta, owner: Option<Key>, service: ServiceSpec)
    | IngressClass(meta: Meta, owner: Option<Key>, controller: string)
    | Definition(meta: Meta, spec: Literal)

  function KindOf(o: Obj): Kind {
    match o
    case CustomResource(cr) => if cr.spec.GatewaySpec? then GatewayKind else ControllerKind
    case Namespace(_, _) => NamespaceKind
    case ServiceAccount(_, _) => ServiceAccountKind
    case ClusterRole(_, _) => ClusterRoleKind
    case ClusterRoleBinding(_, _, _) => ClusterRoleBindingKind
    case Role(_, _) => RoleKind
    case RoleBinding(_, _, _) => RoleBindingKind
    case ConfigMap(_, _) => ConfigMapKind
    case Deployment(_, _, _) => DeploymentKind
    case Service(_, _, _) => ServiceKind
    case IngressClass(_, _, _) => IngressClassKind
    case Definition(_, _) => DefinitionKind
  }

  function MetaOf(o: Obj): Meta {
    if o.CustomResource? then o.cr.meta else o.meta
  }

  function KeyOf(o: Obj): Key {
    Key(KindOf(o), MetaOf(o).ns, MetaOf(o).name)
  }

  function KeyOfCR(cr: CR): Key {
    KeyOf(CustomResource(cr))
  }

  // ---- Cluster-scoped objects ----

  predicate ClusterScoped(k: Kind) {
    k in {NamespaceKind, ClusterRoleKind, ClusterRoleBindingKind, IngressClassKind, DefinitionKind}
  }

  /** The key under which the server keeps what a client calls `k`. */
  function Scoped(k: Key): Key {
    if ClusterScoped(k.kind) then Key(k.kind, "", k.name) else k
  }

  /** The object as the server keeps it: a namespace given for a cluster-scoped object is dropped. */
  function Stripped(o: Obj): (r: Obj)
    ensures KeyOf(r) == Scoped(KeyOf(o)) && r.CustomResource? == o.CustomResource?
    ensures Scoped(KeyOf(o)) == KeyOf(o) ==> r == o
  {
    match o
    case Namespace(m, terminating) => Namespace(m.(ns := ""), terminating)
    case ClusterRole(m, rules) => ClusterRole(m.(ns := ""), rules)
    case ClusterRoleBinding(m, ref, subjects) => ClusterRoleBinding(m.(ns := ""), ref, subjects)
    case IngressClass(m, owner, controller) => IngressClass(m.(ns := ""), owner, controller)
    case Definition(m, spec) => Definition(m.(ns := ""), spec)
    case _ => o
  }

  predicate IsCRKind(k: Kind) {
    k == GatewayKind || k == ControllerKind
  }
}
