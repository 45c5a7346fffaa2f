/** The gateway's Deployment and Service, field by field. */
module GatewayPods {
  import opened Kubernetes
  import opened ControllerEnv
  import opened GatewayVariables
  import GC = GatewayChildren

  // ---- The pods ----

  /** One container with the user's image, ports and security context or else the operator's. The resources the user
      asks for count in a local cluster only. */
  ghost predicate RunsGateway(meta: Meta, f: GatewayFields, c: Container) {
    && c.name == "higress-gateway" && c.image == f.container.repository + ":" + f.container.tag && c.pullPolicy == ""
    && c.args == [ "proxy", "router", "--domain", meta.ns + ".svc.cluster.local", "--proxyLogLevel=warning",
                   "--proxyComponentLogLevel=misc:error", "--log_output_level=all:info",
                   "--serviceCluster=higress-gateway" ]
    && GatewayPorts(f, c.ports)
    && (f.local && f.container.resources.Some? ==> c.resources == f.container.resources.value)
    && (!f.local || f.container.resources.None? ==> c.resources == Literal(""))
    && (f.container.security.Some? ==> c.security == f.container.security.value)
    && (f.container.security.None? ==> c.security == Literal("default security context"))
    && c.probe == Literal("readiness on 15021")
  }

  ghost predicate GatewayPorts(f: GatewayFields, ports: seq<ContainerPort>) {
    && (f.container.ports != [] ==> ports == f.container.ports)
    && (f.container.ports == [] && !f.local ==> ports == [ContainerPort("http-envoy-prom", "TCP", 15090)])
    && (f.container.ports == [] && f.local ==>
          ports == [ ContainerPort("http-envoy-prom", "TCP", 15090), ContainerPort("http", "TCP", 80),
                     ContainerPort("https", "TCP", 443) ])
  }

  /** The container has the volume at this path, and the pod has the volume from this source. */
  predicate Mounted(t: PodTemplate, c: Container, name: string, path: string, readOnly: bool, source: string) {
    VolumeMount(name, path, readOnly) in c.mounts && Volume(name, Literal(source)) in t.volumes
  }

  /** The config map is the instance's own; the certificate is Istio's or Higress's; the token and the bootstrap are
      there when wanted; and nothing else is mounted. The plugins' volume is mounted by nobody. */
  ghost predicate GatewayStorage(meta: Meta, f: GatewayFields, t: PodTemplate, c: Container) {
    var token, bootstrap := f.jwtPolicy == "third-party-jwt", f.skywalking.Some? && f.skywalking.value.enable;
    && Mounted(t, c, "config", "/etc/istio/config", false, "cm-" + meta.name)
    && Mounted(t, c, "istio-ca-root-cert", "/var/run/secrets/istio", false,
               if f.istio then "istio-ca-root-cert" else "higress-ca-root-cert")
    && Mounted(t, c, "istio-data", "/var/lib/istio/data", false, "emptyDir")
    && Mounted(t, c, "podinfo", "/etc/istio/pod", false, "downward API")
    && Mounted(t, c, "proxy-socket", "/etc/istio/proxy", false, "emptyDir")
    && (token ==> Mounted(t, c, "istio-token", "/var/run/secrets/tokens", true, "istio-ca"))
    && (bootstrap ==> Mounted(t, c, "custom-bootstrap-volume", "/etc/istio/custom-bootstrap", false,
                              "higress-custom-bootstrap"))
    && (f.wasmPlugins != [] ==> Volume("local-wasmplugins-volume", Literal("/opt/plugins")) in t.volumes)
    && |c.mounts| == 5 + (if token then 1 else 0) + (if bootstrap then 1 else 0)
    && |t.volumes| == |c.mounts| + (if f.wasmPlugins != [] then 1 else 0)
    && (forall m :: m in c.mounts ==> exists v :: v in t.volumes && v.name == m.name)
    && (forall m :: m in c.mounts ==> m.name != "local-wasmplugins-volume")
  }

  /** The whole specification, for the replicas, labels and account given. */
  ghost predicate PodsAsAsked(meta: Meta, f: GatewayFields, replicas: Option<int>, labels: map<string, string>,
      account: string, d: DeploymentSpec)
  {
    && d.replicas == replicas && d.selector == labels && d.strategy == f.strategy
    && d.progressDeadline.None? && d.historyLimit.None?
    && d.template.name == meta.name && d.template.ns == meta.ns && d.template.labels == labels
    && d.template.serviceAccount == account && d.template.hostNetwork == f.hostNetwork
    && d.template.dnsPolicy == (if f.hostNetwork then "ClusterFirstWithHostNet" else "")
    && d.template.scheduling == f.scheduling
    && (f.podSecurity.Some? ==> d.template.security == f.podSecurity.value)
    && (f.podSecurity.None? ==> d.template.security == Literal("default pod security context"))
    && |d.template.containers| == 1
    && RunsGateway(meta, f, d.template.containers[0]) && Finds(f, d.template.containers[0].env)
    && GatewayStorage(meta, f, d.template, d.template.containers[0])
  }

  lemma BuiltContainer(b: GC.Build, order: Order)
    ensures RunsGateway(b.meta, b.fields, GC.DeploymentOf(b, order).template.containers[0])
  {
    hide GC.Env, GC.Mounts, GC.Volumes;
  }

  lemma BuiltMounts(b: GC.Build, t: PodTemplate, c: Container)
    requires t.volumes == GC.Volumes(b) && c.mounts == GC.Mounts(b.fields)
    ensures GatewayStorage(b.meta, b.fields, t, c)
  {
    FirstMounts(b, t, c);
    OptionalMounts(b, t, c);
    MountsHaveVolumes(b);
  }

  lemma FirstMounts(b: GC.Build, t: PodTemplate, c: Container)
    requires t.volumes == GC.Volumes(b) && c.mounts == GC.Mounts(b.fields)
    ensures Mounted(t, c, "config", "/etc/istio/config", false, "cm-" + b.meta.name)
    ensures Mounted(t, c, "istio-ca-root-cert", "/var/run/secrets/istio", false,
                    if b.fields.istio then "istio-ca-root-cert" else "higress-ca-root-cert")
    ensures Mounted(t, c, "istio-data", "/var/lib/istio/data", false, "emptyDir")
    ensures Mounted(t, c, "podinfo", "/etc/istio/pod", false, "downward API")
    ensures Mounted(t, c, "proxy-socket", "/etc/istio/proxy", false, "emptyDir")
  {
    var v, m := GC.Volumes(b), GC.Mounts(b.fields);
    assert m[0] in m && m[1] in m && m[2] in m && m[3] in m && m[4] in m;
    assert v[0] in v && v[1] in v && v[2] in v && v[3] in v && v[4] in v;
  }

  lemma OptionalMounts(b: GC.Build, t: PodTemplate, c: Container)
    requires t.volumes == GC.Volumes(b) && c.mounts == GC.Mounts(b.fields)
    ensures var f := b.fields;
            var token, bootstrap := f.jwtPolicy == "third-party-jwt", f.skywalking.Some? && f.skywalking.value.enable;
            && (token ==> Mounted(t, c, "istio-token", "/var/run/secrets/tokens", true, "istio-ca"))
            && (bootstrap ==> Mounted(t, c, "custom-bootstrap-volume", "/etc/istio/custom-bootstrap", false,
                                      "higress-custom-bootstrap"))
            && (f.wasmPlugins != [] ==> Volume("local-wasmplugins-volume", Literal("/opt/plugins")) in t.volumes)
            && |c.mounts| == 5 + (if token then 1 else 0) + (if bootstrap then 1 else 0)
            && |t.volumes| == |c.mounts| + (if f.wasmPlugins != [] then 1 else 0)
  {
    var v, m := GC.Volumes(b), GC.Mounts(b.fields);
    assert b.fields.jwtPolicy == "third-party-jwt" ==> m[5] in m && v[5] in v;
    assert GC.SkywalkingOn(b.fields) ==> m[|m| - 1] in m && v[|m| - 1] in v;
    assert b.fields.wasmPlugins != [] ==> v[|v| - 1] in v;
  }

  lemma MountsHaveVolumes(b: GC.Build)
    ensures forall m :: m in GC.Mounts(b.fields) ==> exists v :: v in GC.Volumes(b) && v.name == m.name
    ensures forall m :: m in GC.Mounts(b.fields) ==> m.name != "local-wasmplugins-volume"
  {
    var v, m := GC.Volumes(b), GC.Mounts(b.fields);
    forall i | 0 <= i < |m| ensures (exists x :: x in v && x.name == m[i].name)
        && m[i].name != "local-wasmplugins-volume"
    {
      var j := if i == 3 then 4 else if i == 4 then 3 else i;
      assert v[j] in v && v[j].name == m[i].name;
    }
  }

  /** What one build makes of an instance whose defaults are filled in. */
  lemma BuiltPods(b: GC.Build, order: Order)
    requires IsOrder(order, b.fields.container.env)
    ensures PodsAsAsked(b.meta, b.fields, b.fields.replicas, b.fields.selectorLabels, b.account,
                        GC.DeploymentOf(b, order))
  {
    var d := GC.DeploymentOf(b, order);
    hide RunsGateway, GatewayStorage, Finds, GC.Env, GC.Mounts, GC.Volumes, GC.Args, GC.ContainerPorts;
    BuiltContainer(b, order);
    BuiltMounts(b, d.template, d.template.containers[0]);
    GatewayFinds(b.fields, order);
  }

  // ---- The Service ----

  /** With a network four fixed ports, else the user's. What the user does not say about the load balancer stays as
      it is. */
  ghost predicate ServesAsAsked(f: GatewayFields, p: ServiceParams, labels: map<string, string>, before: ServiceSpec,
      r: ServiceSpec)
  {
    && r.selector == labels && r.kind == p.kind
    && (f.network == "" ==> r.ports == p.ports)
    && (f.network != "" ==>
          r.ports == [ ServicePort("status-port", "", 15021, 15021), ServicePort("tls", "", 15443, 15443),
                       ServicePort("tls-istiod", "", 15012, 15012), ServicePort("tls-webhook", "", 15017, 15017) ])
    && (p.loadBalancerIP != "" ==> r.loadBalancerIP == p.loadBalancerIP)
    && (p.loadBalancerIP == "" ==> r.loadBalancerIP == before.loadBalancerIP)
    && (p.sourceRanges != [] ==> r.sourceRanges == p.sourceRanges)
    && (p.sourceRanges == [] ==> r.sourceRanges == before.sourceRanges)
    && (p.trafficPolicy != "" ==> r.trafficPolicy == p.trafficPolicy)
    && (p.trafficPolicy == "" ==> r.trafficPolicy == before.trafficPolicy)
  }

  /** Without a service section only the selector is written, and with a network the ports. */
  lemma UpdatedService(svc: ServiceSpec, f: GatewayFields)
    ensures var asked := if f.service.Some? then f.service.value
                         else ServiceParams(svc.kind, svc.ports, svc.loadBalancerIP, svc.sourceRanges,
                                            svc.trafficPolicy);
            ServesAsAsked(f, asked, f.selectorLabels, svc, GC.ServiceOf(svc, f))
  {
  }
}
