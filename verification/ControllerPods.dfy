/** The controller's Deployment, field by field and container by container. */
module ControllerPods {
  import opened Kubernetes
  import opened ControllerEnv
  import PV = PilotVariables
  import opened ControllerDeployment

  function AskedControllerName(f: ControllerFields): string {
    if f.controller.name != "" then f.controller.name else "higress-core"
  }

  function AskedPilotName(f: ControllerFields): string {
    if f.pilot.name != "" then f.pilot.name else "discovery"
  }

  // ---- The controller's container ----

  ghost predicate ControllerArgsAsAsked(ns: string, f: ControllerFields, args: seq<string>) {
    args == [ "serve", "--gatewaySelectorKey=higress", "--gatewaySelectorValue=" + ns + "-" + f.gatewayName,
              "--ingressClass=" + f.ingressClass ]
            + (if f.controller.logLevel != "" then ["--log_output_level=" + f.controller.logLevel] else [])
            + (if f.enableStatus then [] else ["--enableStatus=false"])
            + (if f.watchNamespace != "" then ["--watchNamespace=" + f.watchNamespace] else [])
  }

  /** The user's image, ports and security context or else the operator's. */
  ghost predicate RunsController(ns: string, f: ControllerFields, c: Container) {
    && c.image == f.controller.repository + ":" + f.controller.tag
    && ControllerArgsAsAsked(ns, f, c.args)
    && (f.controller.ports != [] ==> c.ports == f.controller.ports)
    && (f.controller.ports == [] ==>
          c.ports == [ContainerPort("http", "TCP", 8888), ContainerPort("grpc", "TCP", 15051)])
    && (f.controller.security.Some? ==> c.security == f.controller.security.value)
    && (f.controller.security.None? ==> c.security == Literal("default controller security context"))
    && c.mounts == [VolumeMount("log", "/var/log", false)]
    && PV.ControllerReads(f, c.env)
  }

  // ---- The pilot's container ----

  ghost predicate PilotArgsAsAsked(ns: string, f: ControllerFields, args: seq<string>) {
    args == [ "discovery", "--monitoringAddr=:15014", "--domain=" + f.pilotArgs.clusterDomain,
              "--keepaliveMaxServerConnectionAge=" + f.pilotArgs.maxServerConnectionAge ]
            + ((if f.pilot.logLevel != "" then ["--log_output_level=" + f.pilot.logLevel] else [])
               + (if f.pilot.logAsJson then ["--log_as_json"] else []))
            + ((if f.pilotArgs.oneNamespace then ["-a=" + ns] else [])
               + (if f.pilotArgs.plugins != [] then ["--plugins=" + Join(f.pilotArgs.plugins, ",")] else []))
  }

  ghost predicate PilotMountsAsAsked(f: ControllerFields, mounts: seq<VolumeMount>) {
    var token, extra := f.jwtPolicy == "third-party-jwt", f.extraRootCA != "";
    && VolumeMount("config", "/etc/istio/config", false) in mounts
    && VolumeMount("local-certs", "/var/run/secrets/istio-dns", false) in mounts
    && VolumeMount("cacerts", "/etc/cacerts", true) in mounts
    && VolumeMount("istio-kubeconfig", "/var/run/secrets/remote", true) in mounts
    && (token ==> VolumeMount("istio-token", "/var/run/secrets/tokens", true) in mounts)
    && (extra ==> VolumeMount("extracacerts", "/cacerts", false) in mounts)
    && |mounts| == 4 + (if token then 1 else 0) + (if extra then 1 else 0)
  }

  ghost predicate RunsPilot(ns: string, f: ControllerFields, c: Container) {
    && c.image == f.pilot.repository + ":" + f.pilot.tag
    && PilotArgsAsAsked(ns, f, c.args)
    && (f.pilot.ports != [] ==> c.ports == f.pilot.ports)
    && (f.pilot.ports == [] ==>
          c.ports == [ContainerPort("", "TCP", 8080), ContainerPort("", "TCP", 15017), ContainerPort("", "TCP", 15010)])
    && (f.pilot.security.Some? ==> c.security == f.pilot.security.value)
    && (f.pilot.security.None? ==> c.security == Literal("default pilot security context"))
    && PilotMountsAsAsked(f, c.mounts)
    && PV.Finds(ns, f, c.env) && PV.FindsConstants(f, c.env)
  }

  // ---- The volumes ----

  /** The config map is the instance's own and is there with Istio off; the token is for the audience asked for; and
      there is no other volume. */
  ghost predicate VolumesAsAsked(meta: Meta, f: ControllerFields, volumes: seq<Volume>) {
    var token, extra := f.jwtPolicy == "third-party-jwt", f.extraRootCA != "";
    && Volume("log", Literal("emptyDir")) in volumes && Volume("local-certs", Literal("emptyDir in memory")) in volumes
    && Volume("cacerts", Literal("secret cacerts")) in volumes
    && Volume("istio-kubeconfig", Literal("secret istio-kubeconfig")) in volumes
    && (!f.istio ==> Volume("config", Literal("cm-" + meta.name)) in volumes)
    && (token ==> Volume("istio-token", Literal(f.tokenAudience)) in volumes)
    && (extra ==> Volume("extracacerts", Literal("pilot-jwks-extra-cacerts" + f.revision)) in volumes)
    && |volumes| == 4 + (if f.istio then 0 else 1) + (if token then 1 else 0) + (if extra then 1 else 0)
  }

  predicate HasVolume(volumes: seq<Volume>, m: VolumeMount) {
    exists i :: 0 <= i < |volumes| && volumes[i].name == m.name
  }

  lemma BuiltVolumes(b: Build)
    ensures VolumesAsAsked(b.meta, b.fields, Volumes(b))
  {
    var v, f := Volumes(b), b.fields;
    assert v[0] in v && v[1] in v && v[2] in v && v[3] in v;
    assert !f.istio ==> v[4] in v;
    assert f.jwtPolicy == "third-party-jwt" ==> v[if f.istio then 4 else 5] in v;
    assert f.extraRootCA != "" ==> v[|v| - 1] in v;
  }

  lemma BuiltMounts(f: ControllerFields)
    ensures PilotMountsAsAsked(f, PilotMounts(f))
  {
    var m := PilotMounts(f);
    assert m[0] in m && m[1] in m && m[2] in m && m[3] in m;
    assert f.jwtPolicy == "third-party-jwt" ==> m[4] in m;
    assert f.extraRootCA != "" ==> m[|m| - 1] in m;
  }

  /** Every mount of the pilot has its volume if and only if Istio is off: with Istio on the pilot still mounts the
      config map that the pod no longer has. */
  lemma MountsHaveVolumesIff(b: Build)
    ensures (forall i :: 0 <= i < |PilotMounts(b.fields)| ==> HasVolume(Volumes(b), PilotMounts(b.fields)[i]))
            <==> !b.fields.istio
    ensures HasVolume(Volumes(b), ControllerMounts()[0])
  {
    var v, m, f := Volumes(b), PilotMounts(b.fields), b.fields;
    if f.istio {
      NoConfigVolume(b);
      assert m[0].name == "config";
    } else {
      forall i | 0 <= i < |m| ensures HasVolume(v, m[i]) {
        var j := if i == 0 then 4 else if i < 4 then i else i + 1;
        assert v[j].name == m[i].name;
      }
    }
    assert v[0].name == ControllerMounts()[0].name;
  }

  lemma NoConfigVolume(b: Build)
    requires b.fields.istio
    ensures forall i :: 0 <= i < |Volumes(b)| ==> Volumes(b)[i].name != "config"
  {
    var v := Volumes(b);
    assert v[0].name[0] != 'c' && v[1].name[0] != 'c' && |v[2].name| == 7 && v[3].name[0] != 'c';
    assert forall i :: 4 <= i < |v| ==> v[i].name[0] == 'i' || v[i].name[0] == 'e';
  }

  // ---- One container ----

  /** A managed container keeps its name, pull policy and probe; any other is kept as it is. */
  lemma RefreshedRuns(c: Container, i: nat, b: Build, o: Orders)
    requires b.fields.controller.resources.Some? && ValidOrders(o, b.fields)
    ensures var r, f := Refresh(c, i, b, o), b.fields;
            && r.name == c.name && r.pullPolicy == c.pullPolicy && r.probe == c.probe
            && (c.name == AskedControllerName(f) ==>
                  RunsController(b.meta.ns, f, r) && r.resources == f.controller.resources.value)
            && (c.name == AskedPilotName(f) && c.name != AskedControllerName(f) ==>
                  RunsPilot(b.meta.ns, f, r) && r.resources == f.controller.resources.value)
            && (c.name !in {AskedControllerName(f), AskedPilotName(f)} ==> r == c)
  {
    hide GenControllerEnv, GenPilotEnv, PV.Finds, PV.FindsConstants, PV.ControllerReads, PilotMountsAsAsked,
         PilotMounts;
    var f := b.fields;
    PV.ControllerFinds(f, o.controller(i), c.env);
    PV.PilotFinds(b.meta.ns, f, o.pilot(i), c.env);
    BuiltMounts(f);
    BuiltArgs(b.meta.ns, f);
    hide ControllerArgsAsAsked, PilotArgsAsAsked, ControllerArgs, PilotArguments;
  }

  lemma BuiltArgs(ns: string, f: ControllerFields)
    ensures ControllerArgsAsAsked(ns, f, ControllerArgs(ns, f)) && PilotArgsAsAsked(ns, f, PilotArguments(ns, f))
  {
    hide Join;
  }

  lemma NewControllerRuns(i: nat, b: Build, o: Orders)
    requires b.fields.controller.resources.Some? && ValidOrders(o, b.fields)
    ensures var r, f := NewController(i, b, o), b.fields;
            && r.name == AskedControllerName(f) && r.pullPolicy == f.controller.pullPolicy && r.probe == Literal("none")
            && RunsController(b.meta.ns, f, r) && r.resources == f.controller.resources.value
  {
    hide GenControllerEnv, PV.ControllerReads, ControllerArgsAsAsked, ControllerArgs;
    PV.ControllerFinds(b.fields, o.controller(i), []);
    BuiltArgs(b.meta.ns, b.fields);
  }

  /** The pull policy is the controller's, the resources the pilot's own. */
  lemma NewPilotRuns(i: nat, b: Build, o: Orders)
    requires b.fields.pilot.resources.Some? && ValidOrders(o, b.fields)
    ensures var r, f := NewPilot(i, b, o), b.fields;
            && r.name == AskedPilotName(f) && r.pullPolicy == f.controller.pullPolicy && r.probe == Literal("none")
            && RunsPilot(b.meta.ns, f, r) && r.resources == f.pilot.resources.value
  {
    hide GenPilotEnv, PV.Finds, PV.FindsConstants, PilotMountsAsAsked, PilotMounts, PilotArgsAsAsked, PilotArguments;
    PV.PilotFinds(b.meta.ns, b.fields, o.pilot(i), []);
    BuiltMounts(b.fields);
    BuiltArgs(b.meta.ns, b.fields);
  }

  /** The words in order with one separator between any two, from the other end. */
  lemma {:induction false} JoinSnoc(words: seq<string>, w: string, separator: string)
    ensures Join(words + [w], separator) == (if words == [] then "" else Join(words, separator) + separator) + w
  {
    if |words| > 1 {
      assert (words + [w])[1..] == words[1..] + [w];
      JoinSnoc(words[1..], w, separator);
    }
  }

  // ---- The list of containers ----

  ghost predicate Bears(cs: seq<Container>, name: string) {
    exists i :: 0 <= i < |cs| && cs[i].name == name
  }

  /** Every container that bears a managed name is as asked, with these resources for the pilot. */
  ghost predicate ManagedAsAsked(ns: string, f: ControllerFields, cs: seq<Container>, pilotResources: Option<Literal>) {
    && Bears(cs, AskedControllerName(f)) && Bears(cs, AskedPilotName(f))
    && forall i :: 0 <= i < |cs| ==>
         && (cs[i].name == AskedControllerName(f) ==>
               RunsController(ns, f, cs[i]) && Some(cs[i].resources) == f.controller.resources)
         && (cs[i].name == AskedPilotName(f) ==> RunsPilot(ns, f, cs[i]) && Some(cs[i].resources) == pilotResources)
  }

  /** The containers that were there are there in the same order, under the same names, with the same pull policies and
      probes, and those that are not managed unchanged; behind them are the managed ones that were missing. */
  ghost predicate Extends(f: ControllerFields, before: seq<Container>, after: seq<Container>) {
    && |before| <= |after|
    && (forall i :: 0 <= i < |before| ==>
          && after[i].name == before[i].name && after[i].pullPolicy == before[i].pullPolicy
          && after[i].probe == before[i].probe
          && (before[i].name !in {AskedControllerName(f), AskedPilotName(f)} ==> after[i] == before[i]))
    && (forall i :: |before| <= i < |after| ==>
          after[i].pullPolicy == f.controller.pullPolicy && after[i].probe == Literal("none"))
    && (!Bears(before, AskedControllerName(f)) ==>
          |after| > |before| && after[|before|].name == AskedControllerName(f))
    && (!Bears(before, AskedPilotName(f)) ==> |after| > |before| && after[|after| - 1].name == AskedPilotName(f))
    && |after| == |before| + (if Bears(before, AskedControllerName(f)) then 0 else 1)
                  + (if Bears(before, AskedPilotName(f)) then 0 else 1)
  }

  /** The pilot gets the controller's resources if it is there, and its own if it is appended. */
  ghost function PilotResources(before: seq<Container>, f: ControllerFields): Option<Literal> {
    if Bears(before, AskedPilotName(f)) then f.controller.resources else f.pilot.resources
  }

  lemma MergedContainers(cs: seq<Container>, b: Build, o: Orders)
    requires Merge(cs, b, o).Some? && ValidOrders(o, b.fields)
        && AskedControllerName(b.fields) != AskedPilotName(b.fields)
    ensures var m, f := Merge(cs, b, o).value, b.fields;
            ManagedAsAsked(b.meta.ns, f, m, PilotResources(cs, f)) && Extends(f, cs, m)
  {
    hide Refresh, NewController, NewPilot, RunsController, RunsPilot, ValidOrders;
    var f, m := b.fields, Merge(cs, b, o).value;
    assert ControllerName(f) == AskedControllerName(f) && PilotName(f) == AskedPilotName(f);
    hide AskedControllerName, AskedPilotName, ControllerName, PilotName;
    assert HasPilot(cs, f) <==> Bears(cs, AskedPilotName(f));
    forall i | 0 <= i < |cs|
      ensures MergedAsAsked(cs[i], m[i], b.meta.ns, f)
    {
      assert m[i] == Refresh(cs[i], i, b, o);
      RefreshedRuns(cs[i], i, b, o);
    }
    if !HasController(cs, f) {
      assert m[|cs|] == NewController(|cs|, b, o);
      NewControllerRuns(|cs|, b, o);
    }
    if !HasPilot(cs, f) {
      assert m[|m| - 1] == NewPilot(|cs|, b, o);
      NewPilotRuns(|cs|, b, o);
    }
  }

  /** What the refresh does to one container. */
  ghost predicate MergedAsAsked(c: Container, r: Container, ns: string, f: ControllerFields) {
    && r.name == c.name && r.pullPolicy == c.pullPolicy && r.probe == c.probe
    && (c.name == AskedControllerName(f) ==>
          RunsController(ns, f, r) && Some(r.resources) == f.controller.resources)
    && (c.name == AskedPilotName(f) && c.name != AskedControllerName(f) ==>
          RunsPilot(ns, f, r) && Some(r.resources) == f.controller.resources)
    && (c.name !in {AskedControllerName(f), AskedPilotName(f)} ==> r == c)
  }

  // ---- The specification ----

  /** Everything but the containers. */
  ghost predicate FrameAsAsked(meta: Meta, f: ControllerFields, labels: map<string, string>, account: string,
      before: DeploymentSpec, d: DeploymentSpec)
  {
    && d.replicas == (if f.replicas.Some? then f.replicas else Some(1))
    && d.selector == labels && d.progressDeadline == Some(600) && d.historyLimit == Some(10)
    && d.strategy == before.strategy
    && d.template.name == meta.name && d.template.ns == meta.ns && d.template.labels == labels
    && d.template.serviceAccount == account && VolumesAsAsked(meta, f, d.template.volumes)
    && d.template.hostNetwork == before.template.hostNetwork && d.template.dnsPolicy == before.template.dnsPolicy
    && d.template.security == before.template.security && d.template.scheduling == before.template.scheduling
  }

  lemma UpdatedSpec(spec: DeploymentSpec, b: Build, o: Orders)
    requires UpdateSpec(spec, b, o).Some? && ValidOrders(o, b.fields)
    ensures var d, f, cs := UpdateSpec(spec, b, o).value, b.fields, spec.template.containers;
            && FrameAsAsked(b.meta, f, f.selectorLabels, b.account, spec, d)
            && (AskedControllerName(f) != AskedPilotName(f) ==>
                  && ManagedAsAsked(b.meta.ns, f, d.template.containers, PilotResources(cs, f))
                  && Extends(f, cs, d.template.containers))
  {
    hide Merge, ManagedAsAsked, Extends, VolumesAsAsked, Volumes;
    BuiltVolumes(b);
    if AskedControllerName(b.fields) != AskedPilotName(b.fields) {
      MergedContainers(spec.template.containers, b, o);
    }
  }
}
