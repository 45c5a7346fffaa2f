/** The gateway's Deployment and Service. The Deployment is rebuilt from scratch each time; its environment
    list follows Go's map iteration and has no guard against a change of order. */
module GatewayChildren {
  import opened Kubernetes
  import opened ControllerEnv

  const INSTANCE: string := "higress-gateway"

  /** The part of the instance a build reads; `account` is empty when the service account is disabled. */
  datatype Build = Build(meta: Meta, account: string, fields: GatewayFields)

  function SkywalkingOn(f: GatewayFields): bool {
    f.skywalking.Some? && f.skywalking.value.enable
  }

  function Env(f: GatewayFields, order: Order): seq<EnvVar> {
    Desired(BuiltinEnv(f), f.container.env, order)
  }

  function BuiltinEnv(f: GatewayFields): seq<EnvVar> {
    [ EnvVar("NODE_NAME", "", "spec.nodeName"), EnvVar("POD_NAME", "", "metadata.name"),
      EnvVar("POD_NAMESPACE", "", "metadata.namespace"), EnvVar("INSTANCE_IP", "", "status.podIP"),
      EnvVar("HOST_IP", "", "status.hostIP"), EnvVar("SERVICE_ACCOUNT", "", "spec.serviceAccountName"),
      EnvVar("PROXY_XDS_VIA_AGENT", "true", ""), EnvVar("ENABLE_INGRESS_GATEWAY_SDS", "false", ""),
      EnvVar("JWT_POLICY", f.jwtPolicy, ""), EnvVar("ISTIO_META_HTTP10", "1", ""),
      EnvVar("ISTIO_META_CLUSTER_ID", "Kubernetes", ""), EnvVar("INSTANCE_NAME", INSTANCE, "") ]
    + (if SkywalkingOn(f)
       then [EnvVar("ISTIO_BOOTSTRAP_OVERRIDE", "/etc/istio/custom-bootstrap/custom_bootstrap.json", "")] else [])
    + (if f.network != "" then [EnvVar("ISTIO_META_REQUESTED_NETWORK_VIEW", f.network, "")] else [])
  }

  function ContainerPorts(f: GatewayFields): seq<ContainerPort> {
    if f.container.ports != [] then f.container.ports
    else [ContainerPort("http-envoy-prom", "TCP", 15090)]
         + (if f.local then [ContainerPort("http", "TCP", 80), ContainerPort("https", "TCP", 443)] else [])
  }

  function Mounts(f: GatewayFields): seq<VolumeMount> {
    [ VolumeMount("config", "/etc/istio/config", false),
      VolumeMount("istio-ca-root-cert", "/var/run/secrets/istio", false),
      VolumeMount("istio-data", "/var/lib/istio/data", false), VolumeMount("podinfo", "/etc/istio/pod", false),
      VolumeMount("proxy-socket", "/etc/istio/proxy", false) ]
    + (if f.jwtPolicy == "third-party-jwt" then [VolumeMount("istio-token", "/var/run/secrets/tokens", true)] else [])
    + (if SkywalkingOn(f) then [VolumeMount("custom-bootstrap-volume", "/etc/istio/custom-bootstrap", false)] else [])
  }

  function Volumes(b: Build): seq<Volume> {
    [ Volume("config", Literal("cm-" + b.meta.name)),
      Volume("istio-ca-root-cert", Literal(if b.fields.istio then "istio-ca-root-cert" else "higress-ca-root-cert")),
      Volume("istio-data", Literal("emptyDir")), Volume("proxy-socket", Literal("emptyDir")),
      Volume("podinfo", Literal("downward API")) ]
    + (if b.fields.jwtPolicy == "third-party-jwt" then [Volume("istio-token", Literal("istio-ca"))] else [])
    + (if SkywalkingOn(b.fields) then [Volume("custom-bootstrap-volume", Literal("higress-custom-bootstrap"))] else [])
    + (if b.fields.wasmPlugins != [] then [Volume("local-wasmplugins-volume", Literal("/opt/plugins"))] else [])
  }

  function Args(ns: string): seq<string> {
    [ "proxy", "router", "--domain", ns + ".svc.cluster.local", "--proxyLogLevel=warning",
      "--proxyComponentLogLevel=misc:error", "--log_output_level=all:info", "--serviceCluster=higress-gateway" ]
  }

  function DeploymentOf(b: Build, order: Order): DeploymentSpec {
    var f := b.fields;
    DeploymentSpec(
      f.replicas, f.selectorLabels, f.strategy, None, None,
      PodTemplate(
        b.meta.name, b.meta.ns, f.selectorLabels, b.account, f.hostNetwork,
        if f.hostNetwork then "ClusterFirstWithHostNet" else "",
        if f.podSecurity.Some? then f.podSecurity.value else Literal("default pod security context"),
        f.scheduling, Volumes(b),
        [ Container(INSTANCE, f.container.repository + ":" + f.container.tag, "",
                    Args(b.meta.ns),
                    ContainerPorts(f),
                    if f.local && f.container.resources.Some? then f.container.resources.value else Literal(""),
                    if f.container.security.Some? then f.container.security.value
                    else Literal("default security context"),
                    Env(f, order), Mounts(f), Literal("readiness on 15021")) ]))
  }

  /** Writes the selector, type and ports; the load balancer fields only when the user gives them. */
  function ServiceOf(svc: ServiceSpec, f: GatewayFields): ServiceSpec {
    var s := svc.(selector := f.selectorLabels);
    var s :=
      match f.service
      case None => s
      case Some(p) =>
        s.(loadBalancerIP := if p.loadBalancerIP != "" then p.loadBalancerIP else s.loadBalancerIP,
           sourceRanges := if p.sourceRanges != [] then p.sourceRanges else s.sourceRanges,
           trafficPolicy := if p.trafficPolicy != "" then p.trafficPolicy else s.trafficPolicy,
           kind := p.kind, ports := p.ports);
    if f.network != "" then s.(ports := NetworkPorts()) else s
  }

  function NetworkPorts(): seq<ServicePort> {
    [ ServicePort("status-port", "", 15021, 15021), ServicePort("tls", "", 15443, 15443),
      ServicePort("tls-istiod", "", 15012, 15012), ServicePort("tls-webhook", "", 15017, 15017) ]
  }

  /** The label write of the service update; None where it would write into a nil map. */
  function ServiceLabels(labels: Option<map<string, string>>, f: GatewayFields): Option<Option<map<string, string>>> {
    if f.network == "" then Some(labels)
    else match labels case None => None case Some(m) => Some(Some(m["topology.istio.io/network" := f.network]))
  }

  // ---- The source's in-place form ----

  class DeploymentObject {
    var spec: DeploymentSpec

    constructor (spec: DeploymentSpec)
      ensures this.spec == spec
    {
      this.spec := spec;
    }

    method UpdateDeploymentSpec(b: Build, order: Order)
      requires IsOrder(order, b.fields.container.env)
      modifies this
      ensures spec == DeploymentOf(b, order)
    {
      hide Volumes, Mounts, Args, ContainerPorts, Env;
      var f := b.fields;
      var env := GenEnv(f, order);
      var security := if f.podSecurity.Some? then f.podSecurity.value else Literal("default pod security context");
      var c := Container(INSTANCE, f.container.repository + ":" + f.container.tag, "",
                         Args(b.meta.ns),
                         ContainerPorts(f), Literal(""),
                         if f.container.security.Some? then f.container.security.value
                         else Literal("default security context"),
                         env, Mounts(f), Literal("readiness on 15021"));
      if f.local && f.container.resources.Some? {
        c := c.(resources := f.container.resources.value);
      }
      spec := DeploymentSpec(f.replicas, f.selectorLabels, f.strategy, None, None,
                             PodTemplate(b.meta.name, b.meta.ns, f.selectorLabels, "", false, "", security,
                                         f.scheduling, Volumes(b), [c]));
      if f.hostNetwork {
        spec := spec.(template := spec.template.(hostNetwork := true, dnsPolicy := "ClusterFirstWithHostNet"));
      }
      if b.account != "" {
        spec := spec.(template := spec.template.(serviceAccount := b.account));
      }
    }
  }

  /** Appends the optional built-in variables and then the user's, in iteration order. */
  method GenEnv(f: GatewayFields, order: Order) returns (env: seq<EnvVar>)
    requires IsOrder(order, f.container.env)
    ensures env == Env(f, order)
  {
    env := BuiltinEnv(f);
    ghost var builtin := env;
    for i := 0 to |order|
      invariant env == builtin + UserEnv(f.container.env, order)[..i]
    {
      env := env + [EnvVar(order[i], f.container.env[order[i]], "")];
    }
    assert UserEnv(f.container.env, order)[..|order|] == UserEnv(f.container.env, order);
  }

  /** A Go map: whoever holds it sees what is written to it. */
  class LabelMap {
    var entries: map<string, string>

    constructor (entries: map<string, string>)
      ensures this.entries == entries
    {
      this.entries := entries;
    }
  }

  function LabelsOf(labels: LabelMap?): Option<map<string, string>>
    reads labels
  {
    if labels == null then None else Some(labels.entries)
  }

  class ServiceObject {
    var labels: LabelMap?
    var spec: ServiceSpec

    constructor (labels: LabelMap?, spec: ServiceSpec)
      ensures this.labels == labels && this.spec == spec
    {
      this.labels, this.spec := labels, spec;
    }

    /** `ok` is false where the code panics on a nil label map. The label is written into the map that is there:
        a service just initialised shares it with the instance, which then has the label too. */
    method UpdateServiceSpec(f: GatewayFields) returns (ok: bool)
      modifies this, labels
      ensures labels == old(labels)
      ensures ok <==> ServiceLabels(old(LabelsOf(labels)), f).Some?
      ensures ok ==>
                Some(LabelsOf(labels)) == ServiceLabels(old(LabelsOf(labels)), f) && spec == ServiceOf(old(spec), f)
    {
      spec := spec.(selector := f.selectorLabels);
      if f.network != "" {
        if labels == null {
          return false;
        }
        labels.entries := labels.entries["topology.istio.io/network" := f.network];
      }
      if f.service.Some? {
        var p := f.service.value;
        if p.loadBalancerIP != "" {
          spec := spec.(loadBalancerIP := p.loadBalancerIP);
        }
        if |p.sourceRanges| > 0 {
          spec := spec.(sourceRanges := p.sourceRanges);
        }
        if p.trafficPolicy != "" {
          spec := spec.(trafficPolicy := p.trafficPolicy);
        }
        spec := spec.(kind := p.kind, ports := p.ports);
      }
      if f.network != "" {
        spec := spec.(ports := NetworkPorts());
      }
      return true;
    }
  }

  // ---- Properties ----

  /** Two builds agree exactly when they ranged over the environment in the same order. */
  lemma SameOrderIff(b: Build, p: Order, q: Order)
    ensures DeploymentOf(b, p) == DeploymentOf(b, q) <==> p == q
  {
    if DeploymentOf(b, p) == DeploymentOf(b, q) {
      assert DeploymentOf(b, p).template.containers[0].env == Env(b.fields, p);
      assert DeploymentOf(b, q).template.containers[0].env == Env(b.fields, q);
      DifferentOrdersDiffer(BuiltinEnv(b.fields), b.fields.container.env, p, q);
    }
  }

  lemma ServiceIsIdempotent(svc: ServiceSpec, labels: Option<map<string, string>>, f: GatewayFields)
    ensures ServiceOf(ServiceOf(svc, f), f) == ServiceOf(svc, f)
    ensures ServiceLabels(labels, f).Some? ==>
              ServiceLabels(ServiceLabels(labels, f).value, f) == ServiceLabels(labels, f)
  {
    if f.network != "" && labels.Some? {
      var m := labels.value["topology.istio.io/network" := f.network];
      assert m["topology.istio.io/network" := f.network] == m;
    }
  }

  /** The new service shares the instance's label map, so initialising it labels the instance. */
  method InitService(labels: LabelMap?, f: GatewayFields) returns (svc: ServiceObject, ok: bool)
    modifies labels
    ensures fresh(svc) && svc.labels == labels
    ensures ok <==> ServiceLabels(old(LabelsOf(labels)), f).Some?
    ensures ok ==>
              && Some(LabelsOf(labels)) == ServiceLabels(old(LabelsOf(labels)), f)
              && svc.spec == ServiceOf(EMPTY_SERVICE, f)
  {
    svc := new ServiceObject(labels, EMPTY_SERVICE);
    ok := svc.UpdateServiceSpec(f);
  }
}
