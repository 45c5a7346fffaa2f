/** The controller's Deployment: merging the managed controller and pilot containers into whatever
    containers the stored pod template has, and the fast path that skips the update. */
module ControllerDeployment {
  import opened Kubernetes
  import opened ControllerEnv

  /** How Go ranges over the two user environments in one build: an order for each container index. */
  datatype Orders = Orders(controller: nat -> Order, pilot: nat -> Order)

  ghost predicate ValidOrders(o: Orders, f: ControllerFields) {
    && (forall i: nat :: IsOrder(o.controller(i), f.controller.env))
    && (forall i: nat :: IsOrder(o.pilot(i), f.pilot.env))
  }

  /** The part of the instance a build reads. */
  datatype Build = Build(meta: Meta, account: string, fields: ControllerFields)

  function ControllerName(f: ControllerFields): string {
    if f.controller.name != "" then f.controller.name else "higress-core"
  }

  function PilotName(f: ControllerFields): string {
    if f.pilot.name != "" then f.pilot.name else "discovery"
  }

  function Image(c: ContainerParams): string {
    c.repository + ":" + c.tag
  }

  function ControllerPorts(f: ControllerFields): seq<ContainerPort> {
    if f.controller.ports != [] then f.controller.ports
    else [ContainerPort("http", "TCP", 8888), ContainerPort("grpc", "TCP", 15051)]
  }

  function PilotPorts(f: ControllerFields): seq<ContainerPort> {
    if f.pilot.ports != [] then f.pilot.ports
    else [ContainerPort("", "TCP", 8080), ContainerPort("", "TCP", 15017), ContainerPort("", "TCP", 15010)]
  }

  function ControllerArgs(ns: string, f: ControllerFields): seq<string> {
    [ "serve", "--gatewaySelectorKey=higress", "--gatewaySelectorValue=" + ns + "-" + f.gatewayName,
      "--ingressClass=" + f.ingressClass ]
    + (if f.controller.logLevel != "" then ["--log_output_level=" + f.controller.logLevel] else [])
    + (if !f.enableStatus then ["--enableStatus=false"] else [])
    + (if f.watchNamespace != "" then ["--watchNamespace=" + f.watchNamespace] else [])
  }

  function Join(words: seq<string>, separator: string): string {
    if words == [] then ""
    else if |words| == 1 then words[0]
    else words[0] + separator + Join(words[1..], separator)
  }

  function PilotArguments(ns: string, f: ControllerFields): seq<string> {
    [ "discovery", "--monitoringAddr=:15014", "--domain=" + f.pilotArgs.clusterDomain,
      "--keepaliveMaxServerConnectionAge=" + f.pilotArgs.maxServerConnectionAge ]
    + PilotLogArguments(f) + PilotScopeArguments(ns, f)
  }

  function PilotScopeArguments(ns: string, f: ControllerFields): seq<string> {
    (if f.pilotArgs.oneNamespace then ["-a=" + ns] else [])
    + (if f.pilotArgs.plugins != [] then ["--plugins=" + Join(f.pilotArgs.plugins, ",")] else [])
  }

  function PilotLogArguments(f: ControllerFields): seq<string> {
    (if f.pilot.logLevel != "" then ["--log_output_level=" + f.pilot.logLevel] else [])
    + (if f.pilot.logAsJson then ["--log_as_json"] else [])
  }

  function ControllerSecurity(f: ControllerFields): Literal {
    if f.controller.security.Some? then f.controller.security.value else Literal("default controller security context")
  }

  function PilotSecurity(f: ControllerFields): Literal {
    if f.pilot.security.Some? then f.pilot.security.value else Literal("default pilot security context")
  }

  function ControllerMounts(): seq<VolumeMount> {
    [VolumeMount("log", "/var/log", false)]
  }

  function PilotMounts(f: ControllerFields): seq<VolumeMount> {
    [ VolumeMount("config", "/etc/istio/config", false),
      VolumeMount("local-certs", "/var/run/secrets/istio-dns", false),
      VolumeMount("cacerts", "/etc/cacerts", true), VolumeMount("istio-kubeconfig", "/var/run/secrets/remote", true) ]
    + (if f.jwtPolicy == "third-party-jwt" then [VolumeMount("istio-token", "/var/run/secrets/tokens", true)] else [])
    + (if f.extraRootCA != "" then [VolumeMount("extracacerts", "/cacerts", false)] else [])
  }

  function Volumes(b: Build): seq<Volume> {
    [ Volume("log", Literal("emptyDir")), Volume("local-certs", Literal("emptyDir in memory")),
      Volume("cacerts", Literal("secret cacerts")), Volume("istio-kubeconfig", Literal("secret istio-kubeconfig")) ]
    + (if !b.fields.istio then [Volume("config", Literal("cm-" + b.meta.name))] else [])
    + (if b.fields.jwtPolicy == "third-party-jwt" then [Volume("istio-token", Literal(b.fields.tokenAudience))] else [])
    + (if b.fields.extraRootCA != ""
       then [Volume("extracacerts", Literal("pilot-jwks-extra-cacerts" + b.fields.revision))] else [])
  }

  // ---- The container merge ----

  /** The in-place refresh of one stored container; unmanaged containers are kept as they are.
      Both managed containers get the controller's resources. */
  function Refresh(c: Container, i: nat, b: Build, o: Orders): Container
    requires b.fields.controller.resources.Some?
  {
    var f := b.fields;
    if c.name == ControllerName(f) then
      c.(image := Image(f.controller), env := GenControllerEnv(f, o.controller(i), c.env), ports := ControllerPorts(f),
         args := ControllerArgs(b.meta.ns, f), resources := f.controller.resources.value, mounts := ControllerMounts(),
         security := ControllerSecurity(f))
    else if c.name == PilotName(f) then
      c.(image := Image(f.pilot), env := GenPilotEnv(b.meta.ns, f, o.pilot(i), c.env), ports := PilotPorts(f),
         args := PilotArguments(b.meta.ns, f), resources := f.controller.resources.value, mounts := PilotMounts(f),
         security := PilotSecurity(f))
    else c
  }

  function NewController(i: nat, b: Build, o: Orders): Container
    requires b.fields.controller.resources.Some?
  {
    var f := b.fields;
    Container(ControllerName(f), Image(f.controller), f.controller.pullPolicy, ControllerArgs(b.meta.ns, f),
              ControllerPorts(f),
              f.controller.resources.value, ControllerSecurity(f), GenControllerEnv(f, o.controller(i), []),
              ControllerMounts(), Literal("none"))
  }

  /** Appended when missing: with the pilot's own resources, unlike the refresh. */
  function NewPilot(i: nat, b: Build, o: Orders): Container
    requires b.fields.pilot.resources.Some?
  {
    var f := b.fields;
    Container(PilotName(f), Image(f.pilot), f.controller.pullPolicy, PilotArguments(b.meta.ns, f), PilotPorts(f),
              f.pilot.resources.value, PilotSecurity(f), GenPilotEnv(b.meta.ns, f, o.pilot(i), []),
              PilotMounts(f), Literal("none"))
  }

  predicate HasController(cs: seq<Container>, f: ControllerFields) {
    exists i :: 0 <= i < |cs| && cs[i].name == ControllerName(f)
  }

  predicate HasPilot(cs: seq<Container>, f: ControllerFields) {
    exists i :: 0 <= i < |cs| && cs[i].name == PilotName(f) && PilotName(f) != ControllerName(f)
  }

  function RefreshAll(cs: seq<Container>, b: Build, o: Orders): seq<Container>
    requires b.fields.controller.resources.Some?
  {
    seq(|cs|, i requires 0 <= i < |cs| => Refresh(cs[i], i, b, o))
  }

  /** The merged list; None where the code dereferences a nil resources pointer. */
  function Merge(cs: seq<Container>, b: Build, o: Orders): Option<seq<Container>> {
    var f := b.fields;
    if f.controller.resources.None? || (!HasPilot(cs, f) && f.pilot.resources.None?) then None
    else Some(RefreshAll(cs, b, o)
              + (if HasController(cs, f) then [] else [NewController(|cs|, b, o)])
              + (if HasPilot(cs, f) then [] else [NewPilot(|cs|, b, o)]))
  }

  function UpdateSpec(spec: DeploymentSpec, b: Build, o: Orders): Option<DeploymentSpec> {
    match Merge(spec.template.containers, b, o)
    case None => None
    case Some(cs) =>
      var f := b.fields;
      Some(spec.(selector := f.selectorLabels,
                 replicas := if f.replicas.None? then Some(1) else f.replicas,
                 progressDeadline := Some(600),
                 historyLimit := Some(10),
                 template := spec.template.(name := b.meta.name, ns := b.meta.ns, labels := f.selectorLabels,
                                            serviceAccount := b.account, volumes := Volumes(b), containers := cs)))
  }

  // ---- The source's in-place form ----

  class DeploymentObject {
    var spec: DeploymentSpec

    constructor (spec: DeploymentSpec)
      ensures this.spec == spec
    {
      this.spec := spec;
    }

    /** Overwrites the fields of the object in hand; `ok` is false where the code would panic. */
    method UpdateDeploymentSpec(b: Build, o: Orders) returns (ok: bool)
      requires ValidOrders(o, b.fields)
      modifies this
      ensures ok <==> UpdateSpec(old(spec), b, o).Some?
      ensures ok ==> spec == UpdateSpec(old(spec), b, o).value
    {
      var f := b.fields;
      spec := spec.(selector := f.selectorLabels);
      if f.replicas.None? {
        spec := spec.(replicas := Some(1));
      } else {
        spec := spec.(replicas := f.replicas);
      }
      spec := spec.(progressDeadline := Some(600), historyLimit := Some(10));
      spec := spec.(template := spec.template.(name := b.meta.name, ns := b.meta.ns, labels := f.selectorLabels));
      spec := spec.(template := spec.template.(serviceAccount := b.account, volumes := Volumes(b)));
      var merged := MergeContainers(spec.template.containers, b, o);
      if merged.None? {
        return false;
      }
      spec := spec.(template := spec.template.(containers := merged.value));
      return true;
    }
  }

  /** The loop of the update: refresh the managed containers that are there, append those that are not. */
  method MergeContainers(cs: seq<Container>, b: Build, o: Orders) returns (merged: Option<seq<Container>>)
    requires ValidOrders(o, b.fields)
    ensures merged == Merge(cs, b, o)
  {
    hide Refresh, NewController, NewPilot;
    var f := b.fields;
    if f.controller.resources.None? {
      return None;
    }
    var controllerExists, pilotExists := false, false;
    var containers: seq<Container> := [];
    for i := 0 to |cs|
      invariant containers == RefreshAll(cs, b, o)[..i]
      invariant controllerExists == HasController(cs[..i], f) && pilotExists == HasPilot(cs[..i], f)
    {
      assert cs[..i + 1] == cs[..i] + [cs[i]];
      HasSnoc(cs[..i], cs[i], f);
      if cs[i].name == ControllerName(f) {
        controllerExists := true;
      } else if cs[i].name == PilotName(f) {
        pilotExists := true;
      }
      var c := RefreshContainer(cs[i], i, b, o);
      containers := containers + [c];
    }
    assert cs[..|cs|] == cs;
    ghost var refreshed := RefreshAll(cs, b, o);
    assert containers == refreshed;
    if !controllerExists {
      containers := containers + [NewController(|cs|, b, o)];
    }
    assert containers == refreshed + (if HasController(cs, f) then [] else [NewController(|cs|, b, o)]);
    if !pilotExists {
      if f.pilot.resources.None? {
        return None;
      }
      containers := containers + [NewPilot(|cs|, b, o)];
    }
    assert containers == Merge(cs, b, o).value;
    return Some(containers);
  }

  method RefreshContainer(stored: Container, i: nat, b: Build, o: Orders) returns (c: Container)
    requires ValidOrders(o, b.fields) && b.fields.controller.resources.Some?
    ensures c == Refresh(stored, i, b, o)
  {
    var f := b.fields;
    c := stored;
    if c.name == ControllerName(f) {
      var env := AppendAndDetect(ControllerBuiltin(), CONTROLLER_REQUIRED, f.controller.env, o.controller(i), c.env);
      var args := GenControllerArgs(b.meta.ns, f);
      c := c.(image := Image(f.controller), env := env, ports := ControllerPorts(f), args := args,
              resources := f.controller.resources.value, mounts := ControllerMounts(),
                  security := ControllerSecurity(f));
    } else if c.name == PilotName(f) {
      var env := AppendAndDetect(PilotBuiltin(b.meta.ns, f), {}, f.pilot.env, o.pilot(i), c.env);
      var args := GenPilotArgs(b.meta.ns, f);
      c := c.(image := Image(f.pilot), env := env, ports := PilotPorts(f), args := args,
              resources := f.controller.resources.value, mounts := PilotMounts(f), security := PilotSecurity(f));
    }
  }

  method GenControllerArgs(ns: string, f: ControllerFields) returns (args: seq<string>)
    ensures args == ControllerArgs(ns, f)
  {
    args := ["serve"];
    args := args + ["--gatewaySelectorKey=higress"];
    args := args + ["--gatewaySelectorValue=" + ns + "-" + f.gatewayName];
    args := args + ["--ingressClass=" + f.ingressClass];
    if f.controller.logLevel != "" {
      args := args + ["--log_output_level=" + f.controller.logLevel];
    }
    if !f.enableStatus {
      args := args + ["--enableStatus=false"];
    }
    if f.watchNamespace != "" {
      args := args + ["--watchNamespace=" + f.watchNamespace];
    }
  }

  method GenPilotArgs(ns: string, f: ControllerFields) returns (args: seq<string>)
    ensures args == PilotArguments(ns, f)
  {
    hide Join;
    args := ["discovery"];
    args := args + ["--monitoringAddr=:15014"];
    args := args + ["--domain=" + f.pilotArgs.clusterDomain];
    args := args + ["--keepaliveMaxServerConnectionAge=" + f.pilotArgs.maxServerConnectionAge];
    assert args + PilotLogArguments(f) + PilotScopeArguments(ns, f) == PilotArguments(ns, f);
    hide PilotArguments;
    ghost var sofar := args;
    if f.pilot.logLevel != "" {
      args := args + ["--log_output_level=" + f.pilot.logLevel];
    }
    if f.pilot.logAsJson {
      args := args + ["--log_as_json"];
    }
    assert args == sofar + PilotLogArguments(f);
    sofar := args;
    if f.pilotArgs.oneNamespace {
      args := args + ["-a=" + ns];
    }
    if |f.pilotArgs.plugins| > 0 {
      args := args + ["--plugins=" + Join(f.pilotArgs.plugins, ",")];
    }
    assert args == sofar + PilotScopeArguments(ns, f);
  }

  lemma HasSnoc(cs: seq<Container>, c: Container, f: ControllerFields)
    ensures HasController(cs + [c], f) <==> HasController(cs, f) || c.name == ControllerName(f)
    ensures HasPilot(cs + [c], f) <==> HasPilot(cs, f) || (c.name == PilotName(f) && PilotName(f) != ControllerName(f))
  {
    assert (cs + [c])[|cs|] == c;
    if HasController(cs, f) {
      var i :| 0 <= i < |cs| && cs[i].name == ControllerName(f);
      assert (cs + [c])[i].name == ControllerName(f);
    }
    if HasPilot(cs, f) {
      var i :| 0 <= i < |cs| && cs[i].name == PilotName(f) && PilotName(f) != ControllerName(f);
      assert (cs + [c])[i].name == PilotName(f);
    }
  }

  // ---- Stability ----

  /** Neither user environment contradicts a built-in variable, or the one that does has a single entry. */
  ghost predicate StableEnv(b: Build) {
    && Stable(ControllerBuiltin(), b.fields.controller.env)
    && Stable(PilotBuiltin(b.meta.ns, b.fields), b.fields.pilot.env)
  }

  ghost predicate DistinctNames(f: ControllerFields) {
    ControllerName(f) != PilotName(f)
  }

  lemma RefreshTwice(c: Container, i: nat, j: nat, b: Build, p: Orders, q: Orders)
    requires b.fields.controller.resources.Some? && StableEnv(b)
    requires ValidOrders(p, b.fields) && ValidOrders(q, b.fields)
    ensures Refresh(Refresh(c, i, b, p), j, b, q) == Refresh(c, i, b, p)
  {
    var f := b.fields;
    RegenerationIsStable(ControllerBuiltin(), CONTROLLER_REQUIRED, f.controller.env, p.controller(i), q.controller(j),
        c.env);
    RegenerationIsStable(PilotBuiltin(b.meta.ns, f), {}, f.pilot.env, p.pilot(i), q.pilot(j), c.env);
  }

  lemma RefreshNewController(i: nat, j: nat, b: Build, p: Orders, q: Orders)
    requires b.fields.controller.resources.Some? && StableEnv(b)
    requires ValidOrders(p, b.fields) && ValidOrders(q, b.fields)
    ensures Refresh(NewController(i, b, p), j, b, q) == NewController(i, b, p)
  {
    var f := b.fields;
    RegenerationIsStable(ControllerBuiltin(), CONTROLLER_REQUIRED, f.controller.env, p.controller(i), q.controller(j),
        []);
  }

  lemma RefreshNewPilot(i: nat, j: nat, b: Build, p: Orders, q: Orders)
    requires b.fields.controller.resources.Some? && b.fields.pilot.resources.Some? && StableEnv(b)
        && DistinctNames(b.fields)
    requires ValidOrders(p, b.fields) && ValidOrders(q, b.fields)
    ensures Refresh(NewPilot(i, b, p), j, b, q) == NewPilot(i, b, p).(resources := b.fields.controller.resources.value)
  {
    var f := b.fields;
    RegenerationIsStable(PilotBuiltin(b.meta.ns, f), {}, f.pilot.env, p.pilot(i), q.pilot(j), []);
  }

  lemma RefreshKeepsNames(cs: seq<Container>, b: Build, o: Orders)
    requires b.fields.controller.resources.Some?
    ensures HasController(RefreshAll(cs, b, o), b.fields) <==> HasController(cs, b.fields)
    ensures HasPilot(RefreshAll(cs, b, o), b.fields) <==> HasPilot(cs, b.fields)
  {
    var r := RefreshAll(cs, b, o);
    assert forall i :: 0 <= i < |cs| ==> r[i].name == cs[i].name;
  }

  /** With distinct names a merged list has both managed containers. */
  lemma MergeHasBoth(cs: seq<Container>, b: Build, o: Orders)
    requires Merge(cs, b, o).Some? && DistinctNames(b.fields)
    ensures HasController(Merge(cs, b, o).value, b.fields) && HasPilot(Merge(cs, b, o).value, b.fields)
  {
    hide GenControllerEnv, GenPilotEnv, Refresh;
    var f, r, m := b.fields, RefreshAll(cs, b, o), Merge(cs, b, o).value;
    RefreshKeepsNames(cs, b, o);
    assert forall i :: 0 <= i < |r| ==> m[i] == r[i];
    if !HasController(cs, f) {
      assert m[|r|] == NewController(|cs|, b, o);
    }
    if !HasPilot(cs, f) {
      assert m[|m| - 1] == NewPilot(|cs|, b, o);
    }
  }

  /** A merge of a list that has both managed containers is the refresh alone. */
  lemma MergeOfComplete(cs: seq<Container>, b: Build, o: Orders)
    requires HasController(cs, b.fields) && HasPilot(cs, b.fields) && b.fields.controller.resources.Some?
    ensures Merge(cs, b, o) == Some(RefreshAll(cs, b, o))
  {
    assert RefreshAll(cs, b, o) + [] + [] == RefreshAll(cs, b, o);
  }

  /** A second merge changes nothing, except that a pilot appended by the first one gets the
      controller's resources. */
  lemma SecondMerge(cs: seq<Container>, b: Build, p: Orders, q: Orders)
    requires Merge(cs, b, p).Some? && DistinctNames(b.fields) && StableEnv(b)
    requires ValidOrders(p, b.fields) && ValidOrders(q, b.fields)
    ensures var once, f := Merge(cs, b, p).value, b.fields;
            && (HasPilot(cs, f) ==> Merge(once, b, q) == Some(once))
            && (!HasPilot(cs, f) ==>
                  && |once| > 0 && once[|once| - 1] == NewPilot(|cs|, b, p)
                  && Merge(once, b, q) ==
                     Some(once[|once| - 1 := once[|once| - 1].(resources := f.controller.resources.value)]))
  {
    hide HasController, HasPilot, NewController, NewPilot, Refresh, StableEnv, ValidOrders;
    var f, once := b.fields, Merge(cs, b, p).value;
    MergeHasBoth(cs, b, p);
    MergeOfComplete(once, b, q);
    var twice := RefreshAll(once, b, q);
    SecondRefresh(cs, b, p, q);
    if HasPilot(cs, f) {
      assert twice == once;
    } else {
      RefreshNewPilot(|cs|, |once| - 1, b, p, q);
      assert twice == once[|once| - 1 := once[|once| - 1].(resources := f.controller.resources.value)];
    }
  }

  /** What a second merge does to everything but an appended pilot: nothing. */
  lemma SecondRefresh(cs: seq<Container>, b: Build, p: Orders, q: Orders)
    requires Merge(cs, b, p).Some? && DistinctNames(b.fields) && StableEnv(b)
    requires ValidOrders(p, b.fields) && ValidOrders(q, b.fields)
    ensures var once := Merge(cs, b, p).value;
            forall i :: 0 <= i < |once| - (if HasPilot(cs, b.fields) then 0 else 1) ==>
                Refresh(once[i], i, b, q) == once[i]
  {
    var once := Merge(cs, b, p).value;
    forall i | 0 <= i < |once| - (if HasPilot(cs, b.fields) then 0 else 1)
      ensures Refresh(once[i], i, b, q) == once[i]
    {
      if i < |cs| {
        assert once[i] == Refresh(cs[i], i, b, p);
        RefreshTwice(cs[i], i, i, b, p, q);
      } else {
        RefreshNewController(|cs|, i, b, p, q);
      }
    }
  }

  /** Three merges equal two, for every starting list and every choice of iteration orders; two equal one
      exactly when the pilot was already there or both containers ask for the same resources. */
  lemma MergeStabilises(cs: seq<Container>, b: Build, p: Orders, q: Orders, r: Orders)
    requires Merge(cs, b, p).Some? && DistinctNames(b.fields) && StableEnv(b)
    requires ValidOrders(p, b.fields) && ValidOrders(q, b.fields) && ValidOrders(r, b.fields)
    ensures var once := Merge(cs, b, p).value;
            var twice := Merge(once, b, q);
            && twice.Some?
            && Merge(twice.value, b, r) == twice
            && (twice.value == once <==>
                HasPilot(cs, b.fields) || b.fields.pilot.resources == b.fields.controller.resources)
  {
    SecondMerge(cs, b, p, q);
    MergeHasBoth(cs, b, p);
    var once := Merge(cs, b, p).value;
    SecondMerge(once, b, q, r);
    if !HasPilot(cs, b.fields) {
      assert once[|once| - 1].resources == b.fields.pilot.resources.value;
    }
  }

  function Count(cs: seq<Container>, name: string): nat {
    if cs == [] then 0 else (if cs[0].name == name then 1 else 0) + Count(cs[1..], name)
  }

  /** The containers the operator does not manage, in order. */
  function Unmanaged(cs: seq<Container>, f: ControllerFields): seq<Container> {
    if cs == [] then []
    else (if cs[0].name in {ControllerName(f), PilotName(f)} then [] else [cs[0]]) + Unmanaged(cs[1..], f)
  }

  lemma {:induction false} CountAppend(a: seq<Container>, b: seq<Container>, name: string)
    ensures Count(a + b, name) == Count(a, name) + Count(b, name)
  {
    if a == [] {
      assert a + b == b;
    } else {
      assert (a + b)[1..] == a[1..] + b;
      CountAppend(a[1..], b, name);
    }
  }

  lemma {:induction false} UnmanagedAppend(a: seq<Container>, b: seq<Container>, f: ControllerFields)
    ensures Unmanaged(a + b, f) == Unmanaged(a, f) + Unmanaged(b, f)
  {
    if a == [] {
      assert a + b == b;
    } else {
      assert (a + b)[1..] == a[1..] + b;
      UnmanagedAppend(a[1..], b, f);
    }
  }

  lemma {:induction false} CountZero(cs: seq<Container>, name: string)
    ensures Count(cs, name) == 0 <==> forall i :: 0 <= i < |cs| ==> cs[i].name != name
  {
    if cs != [] {
      CountZero(cs[1..], name);
      assert forall i :: 0 < i < |cs| ==> cs[i] == cs[1..][i - 1];
    }
  }

  /** Equal names, and equal content wherever the name is unmanaged. */
  lemma {:induction false} SameShape(a: seq<Container>, b: seq<Container>, f: ControllerFields, name: string)
    requires |a| == |b|
    requires forall i :: 0 <= i < |a| ==>
               a[i].name == b[i].name && (a[i].name in {ControllerName(f), PilotName(f)} || a[i] == b[i])
    ensures Count(a, name) == Count(b, name) && Unmanaged(a, f) == Unmanaged(b, f)
  {
    if a != [] {
      SameShape(a[1..], b[1..], f, name);
    }
  }

  /** What a merge does to names, and to containers that are not managed. */
  lemma MergedShape(cs: seq<Container>, b: Build, o: Orders, name: string)
    requires Merge(cs, b, o).Some?
    ensures Count(RefreshAll(cs, b, o), name) == Count(cs, name)
    ensures Unmanaged(RefreshAll(cs, b, o), b.fields) == Unmanaged(cs, b.fields)
  {
    var f, r := b.fields, RefreshAll(cs, b, o);
    forall i | 0 <= i < |cs|
      ensures r[i].name == cs[i].name && (r[i].name in {ControllerName(f), PilotName(f)} || r[i] == cs[i])
    {
      assert r[i] == Refresh(cs[i], i, b, o);
    }
    SameShape(r, cs, f, name);
  }

  /** The one or two containers a merge may append. */
  lemma AppendedShape(b: Build, o: Orders, n: nat, name: string)
    requires b.fields.controller.resources.Some?
    ensures Count([NewController(n, b, o)], name) == (if name == ControllerName(b.fields) then 1 else 0)
    ensures Unmanaged([NewController(n, b, o)], b.fields) == []
    ensures b.fields.pilot.resources.Some? ==>
              && Count([NewPilot(n, b, o)], name) == (if name == PilotName(b.fields) then 1 else 0)
              && Unmanaged([NewPilot(n, b, o)], b.fields) == []
  {
    hide GenControllerEnv, GenPilotEnv, ControllerArgs, PilotArguments, ControllerPorts, PilotPorts, PilotMounts;
    assert [NewController(n, b, o)][1..] == [];
    if b.fields.pilot.resources.Some? {
      assert [NewPilot(n, b, o)][1..] == [];
    }
  }

  lemma CountOfMerge(cs: seq<Container>, b: Build, o: Orders, name: string)
    requires Merge(cs, b, o).Some?
    ensures Count(Merge(cs, b, o).value, name) ==
            Count(cs, name)
            + (if !HasController(cs, b.fields) && name == ControllerName(b.fields) then 1 else 0)
            + (if !HasPilot(cs, b.fields) && name == PilotName(b.fields) then 1 else 0)
  {
    var f, r := b.fields, RefreshAll(cs, b, o);
    var c := if HasController(cs, f) then [] else [NewController(|cs|, b, o)];
    var p := if HasPilot(cs, f) then [] else [NewPilot(|cs|, b, o)];
    hide RefreshAll, NewController, NewPilot, Unmanaged;
    MergedShape(cs, b, o, name);
    AppendedShape(b, o, |cs|, name);
    CountAppend(r + c, p, name);
    CountAppend(r, c, name);
  }

  lemma UnmanagedOfMerge(cs: seq<Container>, b: Build, o: Orders)
    requires Merge(cs, b, o).Some?
    ensures Unmanaged(Merge(cs, b, o).value, b.fields) == Unmanaged(cs, b.fields)
  {
    var f, r := b.fields, RefreshAll(cs, b, o);
    var c := if HasController(cs, f) then [] else [NewController(|cs|, b, o)];
    var p := if HasPilot(cs, f) then [] else [NewPilot(|cs|, b, o)];
    hide RefreshAll, NewController, NewPilot, Count, Unmanaged, HasController, HasPilot;
    MergedShape(cs, b, o, "");
    AppendedShape(b, o, |cs|, "");
    AppendManaged(r, c, f);
    AppendManaged(r + c, p, f);
  }

  lemma AppendManaged(a: seq<Container>, b: seq<Container>, f: ControllerFields)
    requires b == [] || Unmanaged(b, f) == []
    ensures Unmanaged(a + b, f) == Unmanaged(a, f)
  {
    UnmanagedAppend(a, b, f);
  }

  /** Unmanaged containers keep content and relative order; a managed one is there afterwards and is
      never duplicated. */
  lemma MergeKeepsTheRest(cs: seq<Container>, b: Build, o: Orders)
    requires Merge(cs, b, o).Some? && DistinctNames(b.fields)
    ensures var m, f := Merge(cs, b, o).value, b.fields;
            && Unmanaged(m, f) == Unmanaged(cs, f)
            && Count(m, ControllerName(f)) ==
                (if Count(cs, ControllerName(f)) == 0 then 1 else Count(cs, ControllerName(f)))
            && Count(m, PilotName(f)) == (if Count(cs, PilotName(f)) == 0 then 1 else Count(cs, PilotName(f)))
  {
    var f := b.fields;
    UnmanagedOfMerge(cs, b, o);
    CountZero(cs, ControllerName(f));
    CountOfMerge(cs, b, o, ControllerName(f));
    CountZero(cs, PilotName(f));
    CountOfMerge(cs, b, o, PilotName(f));
  }

  /** Distinct names are needed: with one name for both, every merge appends a container. */
  lemma SharedNameNeverSettles(cs: seq<Container>, b: Build, o: Orders)
    requires Merge(cs, b, o).Some? && !DistinctNames(b.fields)
    ensures |Merge(cs, b, o).value| > |cs|
  {
    assert !HasPilot(cs, b.fields);
  }

  // ---- The fast path ----

  /** Creating the Deployment builds it once and lets the mutate step run once more: what is stored is
      already settled, so the next reconcile changes nothing. */
  lemma FreshDeploymentIsSettled(b: Build, p: Orders, q: Orders, r: Orders)
    requires DistinctNames(b.fields) && StableEnv(b) && UpdateSpec(EMPTY_SPEC, b, p).Some?
    requires ValidOrders(p, b.fields) && ValidOrders(q, b.fields) && ValidOrders(r, b.fields)
    ensures var stored := UpdateSpec(UpdateSpec(EMPTY_SPEC, b, p).value, b, q);
            stored.Some? && UpdateSpec(stored.value, b, r) == stored
  {
    MergeStabilises([], b, p, q, r);
  }

  lemma RefreshUnchangedIff(c: Container, i: nat, b: Build, p: Orders, q: Orders)
    requires b.fields.controller.resources.Some? && StableEnv(b)
    requires ValidOrders(p, b.fields) && ValidOrders(q, b.fields)
    requires Refresh(c, i, b, p) == c
    ensures Refresh(c, i, b, q) == c
  {
    var f := b.fields;
    KeptIff(ControllerBuiltin(), CONTROLLER_REQUIRED, f.controller.env, p.controller(i), q.controller(i), c.env);
    KeptIff(PilotBuiltin(b.meta.ns, f), {}, f.pilot.env, p.pilot(i), q.pilot(i), c.env);
  }

  lemma MergeUnchanged(cs: seq<Container>, b: Build, p: Orders, q: Orders)
    requires StableEnv(b) && ValidOrders(p, b.fields) && ValidOrders(q, b.fields)
    requires Merge(cs, b, p) == Some(cs)
    ensures Merge(cs, b, q) == Some(cs)
  {
    var rp, rq := RefreshAll(cs, b, p), RefreshAll(cs, b, q);
    assert |Merge(cs, b, p).value| == |cs|;
    assert rp == cs;
    forall i | 0 <= i < |cs| ensures rq[i] == cs[i] {
      assert rp[i] == cs[i];
      RefreshUnchangedIff(cs[i], i, b, p, q);
    }
    assert rq == cs;
  }

  /** The fast path returns early exactly when the full update would find nothing to change, although
      the two builds iterate the maps in unrelated orders. */
  lemma FastPathRefines(spec: DeploymentSpec, b: Build, p: Orders, q: Orders)
    requires StableEnv(b) && ValidOrders(p, b.fields) && ValidOrders(q, b.fields)
    ensures UpdateSpec(spec, b, p) == Some(spec) <==> UpdateSpec(spec, b, q) == Some(spec)
  {
    var cs := spec.template.containers;
    if UpdateSpec(spec, b, p) == Some(spec) {
      assert Merge(cs, b, p) == Some(cs);
      MergeUnchanged(cs, b, p, q);
    }
    if UpdateSpec(spec, b, q) == Some(spec) {
      assert Merge(cs, b, q) == Some(cs);
      MergeUnchanged(cs, b, q, p);
    }
  }

  /** Whether a build dereferences a nil pointer does not depend on the iteration orders. */
  lemma PanicsForAnyOrder(spec: DeploymentSpec, b: Build, p: Orders, q: Orders)
    ensures UpdateSpec(spec, b, p).None? <==> UpdateSpec(spec, b, q).None?
    ensures UpdateSpec(spec, b, p).None? <==>
              b.fields.controller.resources.None? || (b.fields.pilot.resources.None?
                  && !HasPilot(spec.template.containers, b.fields))
  {
  }
}
