/** The console's Deployment and config map. Both only ever add: the loop over the containers edits a copy, and
    keys the user has given up stay in the config map. */
module ConsoleChildren {
  import opened Kubernetes
  import opened ControllerEnv

  const CONTAINER: string := "higressconsole"

  /** The part of the instance a build reads. */
  datatype Build = Build(meta: Meta, fields: ControllerFields)

  // ---- The Deployment ----

  /** The ports the user gives the console count only if the controller is given some. */
  function ContainerPorts(f: ControllerFields): seq<ContainerPort> {
    if f.controller.ports != [] then f.console.container.ports else [ContainerPort("http", "TCP", 8080)]
  }

  function Security(f: ControllerFields): Literal {
    if f.console.container.security.Some? then f.console.container.security.value
    else Literal("default console security context")
  }

  /** Its environment is the controller's. */
  function NewContainer(f: ControllerFields, order: Order): Container {
    Container(CONTAINER, f.console.container.repository + ":" + f.console.container.tag, f.controller.pullPolicy, [],
              ContainerPorts(f), Literal(""), Security(f), UserEnv(f.controller.env, order),
              [VolumeMount("access-token", "/var/run/secrets/access-token", false)], Literal("none"))
  }

  predicate HasContainer(cs: seq<Container>) {
    exists i | 0 <= i < |cs| :: cs[i].name == CONTAINER
  }

  function UpdateSpec(spec: DeploymentSpec, b: Build, order: Order): DeploymentSpec {
    var f, cs := b.fields, spec.template.containers;
    spec.(selector := f.selectorLabels, replicas := f.replicas,
          template := spec.template.(name := f.console.name, ns := b.meta.ns, labels := f.selectorLabels,
                                     serviceAccount := f.console.name,
                                     volumes := [Volume("access-token", Literal("istio-ca"))],
                                     containers := if HasContainer(cs) then cs else cs + [NewContainer(f, order)]))
  }

  class DeploymentObject {
    var spec: DeploymentSpec

    constructor (spec: DeploymentSpec)
      ensures this.spec == spec
    {
      this.spec := spec;
    }

    method UpdateDeploymentSpec(b: Build, order: Order)
      requires IsOrder(order, b.fields.controller.env)
      modifies this
      ensures spec == UpdateSpec(old(spec), b, order)
    {
      var f := b.fields;
      spec := spec.(selector := f.selectorLabels, replicas := f.replicas);
      spec := spec.(template := spec.template.(name := b.meta.name, ns := b.meta.ns, labels := f.selectorLabels));
      spec := spec.(template := spec.template.(name := f.console.name, serviceAccount := f.console.name));
      var exist := EditCopy(spec.template.containers, f, order);
      if !exist {
        spec := spec.(template := spec.template.(containers := spec.template.containers + [NewContainer(f, order)]));
      }
      spec := spec.(template := spec.template.(volumes := [Volume("access-token", Literal("istio-ca"))]));
    }
  }

  /** The loop: what it edits is its own copy of the container. */
  method EditCopy(cs: seq<Container>, f: ControllerFields, order: Order) returns (exist: bool)
    ensures exist == HasContainer(cs)
  {
    exist := false;
    for i := 0 to |cs|
      invariant !exist && !HasContainer(cs[..i])
    {
      var c := cs[i];
      if c.name == CONTAINER {
        c := c.(image := f.console.container.repository + ":" + f.console.container.tag,
                pullPolicy := f.controller.pullPolicy,
                env := UserEnv(f.controller.env, order), ports := ContainerPorts(f));
        return true;
      }
    }
    assert cs[..|cs|] == cs;
  }

  // ---- The config map ----

  function ConfigText(config: map<string, string>): map<string, Yaml> {
    map k | k in config :: PlainText(config[k])
  }

  /** None where the code writes into the nil map it gets for a config map without data. */
  function UpdateConfig(data: map<string, Yaml>, f: ControllerFields): Option<map<string, Yaml>> {
    if data == map[] then None
    else Some((data + ConfigText(f.console.config))["ingressClass" := PlainText(f.ingressClass)])
  }

  /** A new config map starts with a map of its own. */
  function InitialConfig(f: ControllerFields): map<string, Yaml> {
    ConfigText(f.console.config)["ingressClass" := PlainText(f.ingressClass)]
  }

  /** The loop over the user's entries, in any order. */
  method WriteConfig(data: map<string, Yaml>, f: ControllerFields, order: Order) returns (written: map<string, Yaml>)
    requires IsOrder(order, f.console.config)
    ensures written == (data + ConfigText(f.console.config))["ingressClass" := PlainText(f.ingressClass)]
  {
    var config := f.console.config;
    written := data;
    for i := 0 to |order|
      invariant forall k :: k in written <==> k in data || k in order[..i]
      invariant forall k :: k in written ==> written[k] == if k in order[..i] then PlainText(config[k]) else data[k]
    {
      written := written[order[i] := PlainText(config[order[i]])];
    }
    assert order[..|order|] == order;
    assert written == data + ConfigText(config);
    written := written["ingressClass" := PlainText(f.ingressClass)];
  }

  // ---- Properties ----

  /** A second update changes nothing, whatever orders the two range in: unlike the gateway's, this Deployment
      settles although its environment list has no guard either. */
  lemma UpdateIsIdempotent(spec: DeploymentSpec, b: Build, p: Order, q: Order)
    ensures UpdateSpec(UpdateSpec(spec, b, p), b, q) == UpdateSpec(spec, b, p)
  {
    var cs := UpdateSpec(spec, b, p).template.containers;
    assert cs[|cs| - 1].name == CONTAINER || HasContainer(spec.template.containers);
    assert HasContainer(cs);
  }

  /** The price: once there, the container never changes, whatever image, environment or ports the user asks for. */
  lemma ContainerNeverChanges(spec: DeploymentSpec, a: Build, p: Order, b: Build, q: Order)
    ensures UpdateSpec(UpdateSpec(spec, a, p), b, q).template.containers == UpdateSpec(spec, a, p).template.containers
  {
    var cs := UpdateSpec(spec, a, p).template.containers;
    assert cs[|cs| - 1].name == CONTAINER || HasContainer(spec.template.containers);
    assert HasContainer(cs);
  }

  /** A second update changes nothing, and no key ever leaves the config map. */
  lemma ConfigRatchets(data: map<string, Yaml>, f: ControllerFields, g: ControllerFields)
    requires data != map[]
    ensures var once := UpdateConfig(data, f).value;
            && UpdateConfig(once, f) == Some(once)
            && (forall k :: k in once ==> k in UpdateConfig(once, g).value)
            && (forall k :: k in once && k !in g.console.config && k != "ingressClass" ==>
                  UpdateConfig(once, g).value[k] == once[k])
  {
    var once := UpdateConfig(data, f).value;
    assert "ingressClass" in once;
    assert (once + ConfigText(f.console.config))["ingressClass" := PlainText(f.ingressClass)] == once;
  }
}
