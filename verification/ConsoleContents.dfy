/** What a completed reconcile has put into the cluster for a controller's console, in terms of the resource as the user
    wrote it. */
module ConsoleContents {
  import opened Kubernetes
  import opened ApiStore
  import opened Tasks
  import opened Runs
  import opened Outcomes
  import opened ControllerPrograms
  import opened ControllerContents
  import opened Asked
  import CC = ConsoleChildren
  import CD = ControllerDeployment
  import CS = ConsoleService
  import CT = ControllerTheorems
  import ControllerEnv
  import Ports

  // ---- The console's tasks ----

  /** The kinds of the console's objects, in the order of its tasks. */
  lemma ConsoleIsStaged(cr: CR, c: Choice)
    requires HasConsole(cr)
    ensures Outcomes.DistinctObjects(ConsoleProgram(cr, c))
  {
    hide CC.InitialConfig, CC.UpdateSpec, CS.Update, ConsoleBuild, ConsoleParams;
  }

  /** The store when the status is written: where the console's part begins. */
  ghost function Marked(s: Store, key: Key, c: Choice): Store
    requires CT.Live(s, key) && CT.Live(CT.Persisted(s, key), key)
  {
    CT.StatusStore(CT.Persisted(s, key), key, CT.Instance(CT.Persisted(s, key), key), c)
  }

  /** The reconcile has installed the console, so that it has succeeded with a console. */
  ghost predicate Installs(s: Store, key: Key, c: Choice) {
    && CT.Live(s, key) && NamespaceActive(s, key.ns) && DistinctManifests(c)
    && Resource(s, key).spec.controller.console.name != ""
    && CT.Live(CT.Persisted(s, key), key) && Deployable(Resource(s, key), c, s)
    && Reconcile(World(s, []), key, c).1
  }

  /** What the console's part sees. */
  ghost function Seen(s: Store, key: Key): CR
    requires CT.Live(s, key) && CT.Live(CT.Persisted(s, key), key)
  {
    CT.Instance(CT.Persisted(s, key), key)
  }

  lemma ConsoleDone(s: Store, key: Key, c: Choice)
    requires Installs(s, key, c)
    ensures var cr := Seen(s, key);
            && (cr == SetDefaults(Resource(s, key)) || cr == WithFinalizer(SetDefaults(Resource(s, key))))
            && HasConsole(cr) && Sound(Marked(s, key, c))
            && Outcomes.DistinctObjects(ConsoleProgram(cr, c))
            && Outcomes.Completed(ConsoleProgram(cr, c), Marked(s, key, c), Reconcile(World(s, []), key, c).0.store)
  {
    hide RunTasks, Outcome, Kept, Single, Reconcile, Resolved, CT.StatusStore, ConsoleProgram, CT.Persisted, Deployable,
         SetDefaults;
    ChildrenCanBeMadeIff(s, key, c);
    MarkingMakesChildren(s, key, c);
    CT.PersistedIsLive(s, key);
    SameConsole(Resource(s, key));
    ConsoleIsStaged(Seen(s, key), c);
    SoloTasks(World(Marked(s, key, c), []), ConsoleProgram(Seen(s, key), c));
  }

  lemma SameConsole(cr: CR)
    requires HasConsole(cr)
    ensures HasConsole(SetDefaults(cr)) && HasConsole(WithFinalizer(SetDefaults(cr)))
  {
  }

  lemma TaskMade(cr: CR, c: Choice, s: Store, s': Store, t: Task)
    requires Outcomes.DistinctObjects(ConsoleProgram(cr, c)) && Outcomes.Completed(ConsoleProgram(cr, c), s, s')
    requires t in ConsoleProgram(cr, c)
    ensures Single(t) && Outcome(t, Object(s, Kept(t))).Some?
    ensures Object(s', Kept(t)) == Outcome(t, Object(s, Kept(t)))
  {
    hide ConsoleProgram, Outcome, Kept, Single;
    var todo := ConsoleProgram(cr, c);
    var i :| 0 <= i < |todo| && todo[i] == t;
  }

  lemma ConsoleMembers(cr: CR, c: Choice)
    requires HasConsole(cr)
    ensures var todo := ConsoleProgram(cr, c);
            && (forall t :: t in ConsoleRbacTasks(cr) ==> t in todo)
            && (AccountOn(cr) ==> CreateOnly(ConsoleAccountObj(cr)) in todo)
            && ConsoleConfigTask(cr) in todo && ConsoleDeploymentTask(cr, c) in todo && ConsoleServiceTask(cr) in todo
  {
    hide ConsoleRbacTasks, ConsoleAccountObj, ConsoleConfigTask, ConsoleDeploymentTask, ConsoleServiceTask;
  }

  // ---- The Deployment ----

  /** One container, once and for all: with the console's image, the controller's pull policy and the controller's user
      environment; the ports the user gives the console count only if the controller is given some. */
  ghost predicate RunsConsole(f: ControllerFields, c: Container) {
    var user := f.controller.env;
    && c.name == "higressconsole" && c.image == f.console.container.repository + ":" + f.console.container.tag
    && c.pullPolicy == f.controller.pullPolicy && c.args == [] && c.resources == Literal("")
    && (f.controller.ports != [] ==> c.ports == f.console.container.ports)
    && (f.controller.ports == [] ==> c.ports == [ContainerPort("http", "TCP", 8080)])
    && (f.console.container.security.Some? ==> c.security == f.console.container.security.value)
    && (f.console.container.security.None? ==> c.security == Literal("default console security context"))
    && c.mounts == [VolumeMount("access-token", "/var/run/secrets/access-token", false)] && c.probe == Literal("none")
    && (forall name :: name in user ==> EnvVar(name, user[name], "") in c.env)
    && (forall e :: e in c.env ==> e.name in user && e == EnvVar(e.name, user[e.name], ""))
  }

  /** The pods bear the controller's labels, not the console's; the container is appended unless one of its name is
      there. */
  ghost predicate ConsolePods(meta: Meta, f: ControllerFields, before: DeploymentSpec, d: DeploymentSpec) {
    var cs, cs' := before.template.containers, d.template.containers;
    && d.replicas == f.replicas && d.selector == f.selectorLabels && d.template.labels == f.selectorLabels
    && d.strategy == before.strategy && d.progressDeadline == before.progressDeadline
    && d.historyLimit == before.historyLimit
    && d.template.name == f.console.name && d.template.ns == meta.ns && d.template.serviceAccount == f.console.name
    && d.template.hostNetwork == before.template.hostNetwork && d.template.dnsPolicy == before.template.dnsPolicy
    && d.template.security == before.template.security && d.template.scheduling == before.template.scheduling
    && d.template.volumes == [Volume("access-token", Literal("istio-ca"))]
    && ((exists i :: 0 <= i < |cs| && cs[i].name == "higressconsole") ==> cs' == cs)
    && ((forall i :: 0 <= i < |cs| ==> cs[i].name != "higressconsole") ==>
          |cs'| == |cs| + 1 && cs <= cs' && RunsConsole(f, cs'[|cs|]))
  }

  lemma UpdatedPods(spec: DeploymentSpec, b: CC.Build, order: ControllerEnv.Order)
    requires ControllerEnv.IsOrder(order, b.fields.controller.env)
    ensures ConsolePods(b.meta, b.fields, spec, CC.UpdateSpec(spec, b, order))
  {
    hide RunsConsole;
    var cs := spec.template.containers;
    BuiltConsole(b.fields, order);
    hide CC.NewContainer;
    if !CC.HasContainer(cs) {
      assert CC.UpdateSpec(spec, b, order).template.containers[|cs|] == CC.NewContainer(b.fields, order);
    }
  }

  lemma BuiltConsole(f: ControllerFields, order: ControllerEnv.Order)
    requires ControllerEnv.IsOrder(order, f.controller.env)
    ensures RunsConsole(f, CC.NewContainer(f, order))
  {
    var user, env := f.controller.env, CC.NewContainer(f, order).env;
    forall name | name in user ensures EnvVar(name, user[name], "") in env {
      assert name in order;
      var i :| 0 <= i < |order| && order[i] == name;
      assert env[i] == EnvVar(name, user[name], "");
    }
  }

  ghost predicate DeploymentAsAsked(cr: CR, before: Option<Obj>, after: Option<Obj>)
    requires cr.spec.ControllerSpec?
  {
    var f := AskedFields(cr.spec.controller);
    && after.Some? && after.value.Deployment?
    && ConsolePods(cr.meta, f,
                   if before.Some? && before.value.Deployment? then before.value.deployment else EMPTY_SPEC,
                   after.value.deployment)
    && (before.None? ==>
          && after.value.meta == Meta(f.console.name, cr.meta.ns, cr.meta.labels, map[])
          && after.value.owner == Some(Key(ControllerKind, cr.meta.ns, cr.meta.name)))
    && (before.Some? && before.value.Deployment? ==>
          after.value.meta == before.value.meta && after.value.owner == before.value.owner)
  }

  /** The orders in which the console's part ranges over the controller's variables. */
  ghost predicate ConsoleOrders(f: ControllerFields, c: Choice) {
    ControllerEnv.IsOrder(c.consoleInit, f.controller.env) && ControllerEnv.IsOrder(c.console, f.controller.env)
  }

  lemma StoredDeployment(s: Store, key: Key, c: Choice)
    requires Installs(s, key, c) && ConsoleOrders(Resource(s, key).spec.controller, c)
    ensures var k := Key(DeploymentKind, key.ns, Resource(s, key).spec.controller.console.name);
            DeploymentAsAsked(Resource(s, key), Object(Marked(s, key, c), k),
                              Object(Reconcile(World(s, []), key, c).0.store, k))
  {
    hide Reconcile, Marked, Seen, Deployable, CT.Persisted, ConsoleProgram, Outcome, DeploymentAsAsked,
         ConsoleDeploymentTask, Kept, Single, SetDefaults, DeploymentTask;
    var cr, d, k := Resource(s, key), Seen(s, key),
                    Key(DeploymentKind, key.ns, Resource(s, key).spec.controller.console.name);
    ConsoleDone(s, key, c);
    ConsoleMembers(d, c);
    TaskMade(d, c, Marked(s, key, c), Reconcile(World(s, []), key, c).0.store, ConsoleDeploymentTask(d, c));
    FoundKind(Marked(s, key, c), k);
    DeploymentTaskOf(cr, d, c);
    DeploymentMade(cr, DeploymentTask(cr, c), c, Object(Marked(s, key, c), k));
  }

  lemma DeploymentMade(cr: CR, t: Task, c: Choice, before: Option<Obj>)
    requires HasConsole(cr) && ConsoleOrders(cr.spec.controller, c)
    requires t == DeploymentTask(cr, c) && (before.Some? ==> KindOf(before.value) == DeploymentKind)
    ensures Single(t) && Kept(t) == Key(DeploymentKind, cr.meta.ns, cr.spec.controller.console.name)
    ensures DeploymentAsAsked(cr, before, Outcome(t, before))
  {
    var b := CC.Build(cr.meta, AskedFields(cr.spec.controller));
    BuiltOutcome(t, b, c.console, before);
    hide CC.UpdateSpec, ConsolePods, AskedLabels, Outcome, Single, Kept;
    if before.Some? {
      UpdatedPods(before.value.deployment, b, c.console);
    } else {
      UpdatedPods(EMPTY_SPEC, b, c.consoleInit);
      CC.UpdateIsIdempotent(EMPTY_SPEC, b, c.consoleInit, c.console);
    }
  }

  /** The task, written out. */
  function DeploymentTask(cr: CR, c: Choice): Task
    requires cr.spec.ControllerSpec?
  {
    var b := CC.Build(cr.meta, AskedFields(cr.spec.controller));
    Ensure(Deployment(Meta(cr.spec.controller.console.name, cr.meta.ns, cr.meta.labels, map[]),
                      Some(Key(ControllerKind, cr.meta.ns, cr.meta.name)),
                      CC.UpdateSpec(EMPTY_SPEC, b, c.consoleInit)),
           MergeConsole(b, c.console))
  }

  lemma BuiltOutcome(t: Task, b: CC.Build, order: ControllerEnv.Order, before: Option<Obj>)
    requires t.Ensure? && t.init.Deployment? && t.mutation == MergeConsole(b, order)
    requires before.Some? ==> before.value.Deployment?
    ensures Single(t) && Kept(t) == KeyOf(t.init)
    ensures var start := if before.Some? then before.value else t.init;
            Outcome(t, before)
            == Some(Deployment(start.meta, start.owner, CC.UpdateSpec(start.deployment, b, order)))
  {
    hide CC.UpdateSpec, CD.UpdateSpec;
  }

  lemma DeploymentTaskOf(cr: CR, d: CR, c: Choice)
    requires HasConsole(cr) && (d == SetDefaults(cr) || d == WithFinalizer(SetDefaults(cr)))
    ensures HasConsole(d) && ConsoleDeploymentTask(d, c) == DeploymentTask(cr, c)
  {
    hide CC.UpdateSpec;
  }

  // ---- The Service ----

  /** A new Service is a ClusterIP, unless the instance's service section has a type, on the port 8080 and for the
      console's own labels; one that is there keeps its selector and its ports. The section's ports with new names
      come behind those. */
  ghost predicate ServiceAsAsked(cr: CR, before: Option<Obj>, after: Option<Obj>)
    requires cr.spec.ControllerSpec?
  {
    var f := cr.spec.controller;
    var was := if before.Some? && before.value.Service? then before.value.service else EMPTY_SERVICE;
    var given := if f.service.Some? then f.service.value.ports else [];
    var base := if was.kind == "" then [ServicePort("http", "TCP", 8080, 0)] else was.ports;
    && after.Some? && after.value.Service?
    && (f.service.Some? && f.service.value.kind != "" ==> after.value.service.kind == f.service.value.kind)
    && (f.service.None? || f.service.value.kind == "" ==>
          after.value.service.kind == if was.kind == "" then "ClusterIP" else was.kind)
    && after.value.service.selector == (if was.kind == "" then f.console.selectorLabels else was.selector)
    && base <= after.value.service.ports
    && (forall p :: p in after.value.service.ports ==> p in base || p in given)
    && (forall name :: CS.First(after.value.service.ports, name) == CS.First(base + given, name))
    && after.value.service.loadBalancerIP == was.loadBalancerIP
    && after.value.service.sourceRanges == was.sourceRanges
    && after.value.service.trafficPolicy == was.trafficPolicy
    && (before.None? ==>
          && after.value.meta == Meta(f.console.name, cr.meta.ns, cr.meta.labels, map[])
          && after.value.owner == Some(Key(ControllerKind, cr.meta.ns, cr.meta.name)))
    && (before.Some? && before.value.Service? ==>
          after.value.meta == before.value.meta && after.value.owner == before.value.owner)
  }

  lemma {:induction false} MissingAreGiven(taken: set<string>, extra: seq<ServicePort>)
    ensures forall p :: p in Ports.Missing(taken, extra) ==> p in extra
  {
    if extra != [] {
      MissingAreGiven(taken, extra[..|extra| - 1]);
    }
  }

  lemma UpdatedService(svc: ServiceSpec, c: CS.ConsoleParams)
    ensures var r, s := CS.Update(svc, c), CS.Initialised(svc, c);
            && s.ports <= r.ports && (forall p :: p in r.ports ==> p in s.ports || p in CS.GivenPorts(c))
            && (forall name :: CS.First(r.ports, name) == CS.First(s.ports + CS.GivenPorts(c), name))
  {
    MissingAreGiven(Ports.Names(CS.Initialised(svc, c).ports), CS.GivenPorts(c));
    hide CS.First, Ports.Missing, Ports.Names;
    forall name ensures CS.First(CS.Update(svc, c).ports, name)
                     == CS.First(CS.Initialised(svc, c).ports + CS.GivenPorts(c), name)
    {
      CS.UpdateFirst(svc, c, name);
    }
  }

  /** The task, written out. */
  function ServiceTask(cr: CR): Task
    requires cr.spec.ControllerSpec?
  {
    var c := CS.ConsoleParams(cr.spec.controller.console.selectorLabels, cr.spec.controller.service);
    Ensure(Service(Meta(cr.spec.controller.console.name, cr.meta.ns, cr.meta.labels, map[]),
                   Some(Key(ControllerKind, cr.meta.ns, cr.meta.name)), CS.Update(EMPTY_SERVICE, c)),
           SetConsoleService(c))
  }

  lemma ServiceTaskOf(cr: CR, d: CR)
    requires HasConsole(cr) && (d == SetDefaults(cr) || d == WithFinalizer(SetDefaults(cr)))
    ensures HasConsole(d) && ConsoleServiceTask(d) == ServiceTask(cr)
  {
    hide CS.Update;
  }

  lemma ServiceMade(cr: CR, before: Option<Obj>)
    requires HasConsole(cr) && (before.Some? ==> KindOf(before.value) == ServiceKind)
    ensures var t := ServiceTask(cr);
            && Single(t) && Kept(t) == Key(ServiceKind, cr.meta.ns, cr.spec.controller.console.name)
            && ServiceAsAsked(cr, before, Outcome(t, before))
  {
    hide CS.First, Ports.Missing, Ports.Names, CD.UpdateSpec;
    var c := CS.ConsoleParams(cr.spec.controller.console.selectorLabels, cr.spec.controller.service);
    if before.Some? {
      UpdatedService(before.value.service, c);
    } else {
      CS.UpdateTwice(EMPTY_SERVICE, c);
      UpdatedService(EMPTY_SERVICE, c);
    }
  }

  lemma StoredService(s: Store, key: Key, c: Choice)
    requires Installs(s, key, c)
    ensures var k := Key(ServiceKind, key.ns, Resource(s, key).spec.controller.console.name);
            ServiceAsAsked(Resource(s, key), Object(Marked(s, key, c), k),
                           Object(Reconcile(World(s, []), key, c).0.store, k))
  {
    hide Reconcile, Marked, Seen, Deployable, CT.Persisted, ConsoleProgram, Outcome, ServiceAsAsked, ConsoleServiceTask,
         Kept, Single, SetDefaults, ServiceTask;
    var cr, d, k := Resource(s, key), Seen(s, key),
                    Key(ServiceKind, key.ns, Resource(s, key).spec.controller.console.name);
    ConsoleDone(s, key, c);
    ConsoleMembers(d, c);
    TaskMade(d, c, Marked(s, key, c), Reconcile(World(s, []), key, c).0.store, ConsoleServiceTask(d));
    FoundKind(Marked(s, key, c), k);
    ServiceTaskOf(cr, d);
    ServiceMade(cr, Object(Marked(s, key, c), k));
  }

  // ---- The config map ----

  /** The user's entries and the ingress class, over the entries that are there. */
  ghost predicate DataAsAsked(f: ControllerFields, was: map<string, Yaml>, data: map<string, Yaml>) {
    && data.Keys == was.Keys + f.console.config.Keys + {"ingressClass"}
    && data["ingressClass"] == PlainText(f.ingressClass)
    && (forall k :: k in f.console.config && k != "ingressClass" ==> data[k] == PlainText(f.console.config[k]))
    && (forall k :: k in was && k !in f.console.config && k != "ingressClass" ==> data[k] == was[k])
  }

  ghost predicate ConfigAsAsked(cr: CR, before: Option<Obj>, after: Option<Obj>)
    requires cr.spec.ControllerSpec?
  {
    && after.Some? && after.value.ConfigMap?
    && DataAsAsked(AskedFields(cr.spec.controller),
                   if before.Some? && before.value.ConfigMap? then before.value.data else map[], after.value.data)
    && (before.None? ==>
          after.value.meta == Meta(cr.spec.controller.console.name, cr.meta.ns, cr.meta.labels, map[]))
    && (before.Some? && before.value.ConfigMap? ==> after.value.meta == before.value.meta)
  }

  lemma UpdatedConfig(f: ControllerFields, was: map<string, Yaml>)
    ensures CC.UpdateConfig(was, f).Some? <==> was != map[]
    ensures was != map[] ==> DataAsAsked(f, was, CC.UpdateConfig(was, f).value)
    ensures var r := CC.UpdateConfig(CC.InitialConfig(f), f); r.Some? && DataAsAsked(f, map[], r.value)
  {
    assert "ingressClass" in CC.InitialConfig(f);
  }

  /** The task, written out. */
  function ConfigTask(cr: CR): Task
    requires cr.spec.ControllerSpec?
  {
    var f := AskedFields(cr.spec.controller);
    Ensure(ConfigMap(Meta(f.console.name, cr.meta.ns, cr.meta.labels, map[]), CC.InitialConfig(f)), SetConsoleData(f))
  }

  lemma ConfigTaskOf(cr: CR, d: CR)
    requires HasConsole(cr) && (d == SetDefaults(cr) || d == WithFinalizer(SetDefaults(cr)))
    ensures HasConsole(d) && ConsoleConfigTask(d) == ConfigTask(cr)
  {
    hide CC.InitialConfig;
  }

  lemma ConfigMade(cr: CR, before: Option<Obj>)
    requires HasConsole(cr) && (before.Some? ==> KindOf(before.value) == ConfigMapKind)
    ensures var t := ConfigTask(cr);
            && Single(t) && Kept(t) == Key(ConfigMapKind, cr.meta.ns, cr.spec.controller.console.name)
            && (Outcome(t, before).Some? ==> ConfigAsAsked(cr, before, Outcome(t, before)))
            && (Outcome(t, before).Some? <==> before.None? || before.value.data != map[])
  {
    hide CD.UpdateSpec, DataAsAsked, CC.UpdateConfig, CC.InitialConfig, AskedLabels;
    var f := AskedFields(cr.spec.controller);
    UpdatedConfig(f, if before.Some? then before.value.data else map[]);
  }

  lemma StoredConfig(s: Store, key: Key, c: Choice)
    requires Installs(s, key, c)
    ensures var k := Key(ConfigMapKind, key.ns, Resource(s, key).spec.controller.console.name);
            ConfigAsAsked(Resource(s, key), Object(Marked(s, key, c), k),
                          Object(Reconcile(World(s, []), key, c).0.store, k))
  {
    hide Reconcile, Marked, Seen, Deployable, CT.Persisted, ConsoleProgram, Outcome, ConfigAsAsked, ConsoleConfigTask,
         Kept, Single, SetDefaults, ConfigTask;
    var cr, d, k := Resource(s, key), Seen(s, key),
                    Key(ConfigMapKind, key.ns, Resource(s, key).spec.controller.console.name);
    ConsoleDone(s, key, c);
    ConsoleMembers(d, c);
    TaskMade(d, c, Marked(s, key, c), Reconcile(World(s, []), key, c).0.store, ConsoleConfigTask(d));
    FoundKind(Marked(s, key, c), k);
    ConfigTaskOf(cr, d);
    ConfigMade(cr, Object(Marked(s, key, c), k));
  }

  // ---- The account and what it may do ----

  /** Whatever the flags say: the ClusterRole has the rules of the Role, and the cluster-wide binding grants it to the
      console's account; the binding in the namespace grants the Role to an account of another name. Unless the
      resource has no namespace, neither of the two cluster-scoped objects was there before. */
  ghost predicate RbacAsAsked(ns: string, name: string, s: Store, s': Store) {
    var group, role := "rbac.authorization.k8s.io", Key(ClusterRoleKind, "", name + "-" + ns);
    var shared, own := Key(ClusterRoleBindingKind, "", ns + "-" + name), Key(RoleBindingKind, ns, name);
    && HasRules(Object(s', role), Literal("console rules"))
    && Binds(RoleRef("ClusterRole", name + "-" + ns, group), Subject("ServiceAccount", "", name, ns),
             Object(s, shared), Object(s', shared))
    && HasRules(Object(s', Key(RoleKind, ns, name)), Literal("console rules"))
    && Binds(RoleRef("Role", name, group), Subject("ServiceAccount", "", name + "-" + ns, ns), Object(s, own),
             Object(s', own))
    && (ns != "" ==> Object(s, role).None? && Object(s, shared).None?)
  }

  lemma StoredRbac(s: Store, key: Key, c: Choice)
    requires Installs(s, key, c)
    ensures RbacAsAsked(key.ns, Resource(s, key).spec.controller.console.name, Marked(s, key, c),
                        Reconcile(World(s, []), key, c).0.store)
  {
    hide Reconcile, Marked, Seen, Deployable, CT.Persisted, ConsoleProgram, Outcome, RbacAsAsked, ConsoleRbacTasks,
         Kept, Single, SetDefaults, Roles, TaskCompleted;
    var d, s', marked := Seen(s, key), Reconcile(World(s, []), key, c).0.store, Marked(s, key, c);
    ConsoleDone(s, key, c);
    ConsoleMembers(d, c);
    forall t | t in ConsoleRbacTasks(d) ensures TaskCompleted(t, marked, s') {
      TaskMade(d, c, marked, s', t);
      CompletedBy(t, marked, s');
    }
    RolesOf(Resource(s, key), d);
    RolesMade(key.ns, Resource(s, key).spec.controller.console.name, marked, s');
  }

  /** The four tasks, written out. */
  function Roles(ns: string, name: string): seq<Task> {
    var group, rules := "rbac.authorization.k8s.io", Literal("console rules");
    var subject, other := Subject("ServiceAccount", "", name, ns), Subject("ServiceAccount", "", name + "-" + ns, ns);
    var shared, own := RoleRef("ClusterRole", name + "-" + ns, group), RoleRef("Role", name, group);
    [ Ensure(ClusterRole(Meta(name + "-" + ns, ns, None, map[]), Literal("console cluster rules")), SetRules(rules)),
      Ensure(ClusterRoleBinding(Meta(ns + "-" + name, ns, None, map[]), shared, [subject]), Bind(shared, subject)),
      Ensure(Role(Meta(name, ns, None, map[]), rules), SetRules(rules)),
      Ensure(RoleBinding(Meta(name, ns, None, map[]), own, [other]), Bind(own, other)) ]
  }

  lemma RolesOf(cr: CR, d: CR)
    requires HasConsole(cr) && (d == SetDefaults(cr) || d == WithFinalizer(SetDefaults(cr)))
    ensures HasConsole(d) && ConsoleRbacTasks(d) == Roles(cr.meta.ns, cr.spec.controller.console.name)
  {
  }

  lemma RulesMade(t: Task, k: Key, rules: Literal, s: Store, s': Store)
    requires Sound(s) && t.Ensure? && (t.init.ClusterRole? || t.init.Role?) && t.mutation == SetRules(rules)
    requires k == Scoped(KeyOf(t.init)) && TaskCompleted(t, s, s')
    ensures HasRules(Object(s', k), rules) && (k != KeyOf(t.init) ==> Object(s, k).None?)
  {
    FoundKind(s, k);
  }

  lemma BindingMade(t: Task, k: Key, ref: RoleRef, subject: Subject, s: Store, s': Store)
    requires Sound(s) && t.Ensure? && (t.init.ClusterRoleBinding? || t.init.RoleBinding?)
    requires t.init.subjects == [subject] && t.mutation == Bind(ref, subject)
    requires t.init.meta.labels.None? && t.init.meta.annotations == map[]
    requires k == Scoped(KeyOf(t.init)) && TaskCompleted(t, s, s')
    ensures Binds(ref, subject, Object(s, k), Object(s', k)) && (k != KeyOf(t.init) ==> Object(s, k).None?)
  {
    FoundKind(s, k);
  }

  lemma RolesMade(ns: string, name: string, s: Store, s': Store)
    requires Sound(s) && forall t :: t in Roles(ns, name) ==> TaskCompleted(t, s, s')
    ensures RbacAsAsked(ns, name, s, s')
  {
    hide TaskCompleted, Binds, HasRules, Object;
    var r, group, rules := Roles(ns, name), "rbac.authorization.k8s.io", Literal("console rules");
    assert r[0] in r && r[1] in r && r[2] in r && r[3] in r;
    RulesMade(r[0], Key(ClusterRoleKind, "", name + "-" + ns), rules, s, s');
    BindingMade(r[1], Key(ClusterRoleBindingKind, "", ns + "-" + name), RoleRef("ClusterRole", name + "-" + ns, group),
        Subject("ServiceAccount", "", name, ns), s, s');
    RulesMade(r[2], Key(RoleKind, ns, name), rules, s, s');
    BindingMade(r[3], Key(RoleBindingKind, ns, name), RoleRef("Role", name, group),
        Subject("ServiceAccount", "", name + "-" + ns, ns), s, s');
  }

  /** With the account section missing or enabled the console's account is there, and belongs to nobody. */
  lemma StoredAccount(s: Store, key: Key, c: Choice)
    requires Installs(s, key, c) && AccountEnabled(Resource(s, key))
    ensures var cr, k := Resource(s, key),
                         Key(ServiceAccountKind, key.ns, Resource(s, key).spec.controller.console.name);
            AccountAsAsked(cr, Object(Marked(s, key, c), k), Object(Reconcile(World(s, []), key, c).0.store, k))
  {
    hide Reconcile, Marked, Seen, Deployable, CT.Persisted, ConsoleProgram, SetDefaults, Outcome, Kept, Single,
         AccountAsAsked;
    var cr, d, k := Resource(s, key), Seen(s, key),
                    Key(ServiceAccountKind, key.ns, Resource(s, key).spec.controller.console.name);
    ConsoleDone(s, key, c);
    ConsoleMembers(d, c);
    AccountMade(cr, d, Object(Marked(s, key, c), k));
    TaskMade(d, c, Marked(s, key, c), Reconcile(World(s, []), key, c).0.store, CreateOnly(ConsoleAccountObj(d)));
  }

  ghost predicate AccountAsAsked(cr: CR, before: Option<Obj>, after: Option<Obj>)
    requires cr.spec.ControllerSpec?
  {
    && (before.Some? ==> after == before)
    && (before.None? ==>
          after == Some(ServiceAccount(
              Meta(cr.spec.controller.console.name, cr.meta.ns, cr.meta.labels,
                   if cr.account.Some? then cr.account.value.annotations else map[]), None)))
  }

  lemma AccountMade(cr: CR, d: CR, before: Option<Obj>)
    requires HasConsole(cr) && (d == SetDefaults(cr) || d == WithFinalizer(SetDefaults(cr)))
    ensures HasConsole(d) && (AccountOn(d) <==> AccountEnabled(cr))
    ensures var t := CreateOnly(ConsoleAccountObj(d));
            && Single(t) && Kept(t) == Key(ServiceAccountKind, cr.meta.ns, cr.spec.controller.console.name)
            && AccountAsAsked(cr, before, Outcome(t, before))
  {
    hide CD.UpdateSpec;
  }

  // ---- How it fits together ----

  predicate Selects(selector: map<string, string>, labels: map<string, string>) {
    forall k | k in selector :: k in labels && labels[k] == selector[k]
  }

  /** The console's pods run as the account that the cluster-wide binding grants its ClusterRole, but they bear the
      controller's labels: a new console Service selects them exactly when its labels are among the controller's, and
      the controller's own Service selects them always. The Role in the namespace is granted to an account that is not
      the pods'. */
  lemma ConsoleFits(s: Store, key: Key, c: Choice)
    requires Installs(s, key, c) && OrdersFit(Resource(s, key).spec.controller, c)
    requires ConsoleOrders(Resource(s, key).spec.controller, c)
    ensures var f, marked, s' := Resource(s, key).spec.controller, Marked(s, key, c),
                                 Reconcile(World(s, []), key, c).0.store;
            var name := f.console.name;
            var service := Key(ServiceKind, key.ns, name);
            var d, v, own := Object(s', Key(DeploymentKind, key.ns, name)), Object(s', service),
                             Object(marked, Key(ServiceKind, key.ns, key.name));
            && d.Some? && d.value.Deployment? && v.Some? && v.value.Service? && own.Some? && own.value.Service?
            && var pods := d.value.deployment.template;
               && pods.ns == key.ns && pods.serviceAccount == name
               && Grants(s', Key(ClusterRoleBindingKind, "", key.ns + "-" + name), pods)
               && (Object(marked, service).None? ==>
                     (Selects(v.value.service.selector, pods.labels)
                      <==> Selects(f.console.selectorLabels, AskedLabels(f))))
               && Selects(own.value.service.selector, pods.labels)
               && (Object(marked, Key(RoleBindingKind, key.ns, name)).None? ==>
                     !Grants(s', Key(RoleBindingKind, key.ns, name), pods))
  {
    hide Reconcile, Marked, Deployable, CT.Persisted, AskedLabels, RunsConsole, CS.First, HasRules, SetDefaults,
         DataAsAsked, OrdersFit, ConsoleOrders;
    var name := Resource(s, key).spec.controller.console.name;
    StoredDeployment(s, key, c);
    StoredService(s, key, c);
    StoredRbac(s, key, c);
    OwnService(s, key, c);
    assert |name + "-" + key.ns| > |name|;
  }

  lemma OwnService(s: Store, key: Key, c: Choice)
    requires Installs(s, key, c)
    ensures var own := Object(Marked(s, key, c), Key(ServiceKind, key.ns, key.name));
            own.Some? && own.value.Service?
            && own.value.service.selector == AskedLabels(Resource(s, key).spec.controller)
  {
    hide Reconcile, Deployable, Resolved, CT.StatusStore, CT.Persisted, SetDefaults;
    ChildrenCanBeMadeIff(s, key, c);
    MarkingMakesChildren(s, key, c);
    ControllerContents.StoredService(s, key, c, Marked(s, key, c));
  }

  // ---- When the console is installed ----

  /** Once every child is made, a reconcile with a console succeeds exactly when neither of the console's two
      cluster-scoped objects is there yet and the console's config map, if it is there, has data. */
  lemma InstallsIff(s: Store, key: Key, c: Choice)
    requires CT.Live(s, key) && NamespaceActive(s, key.ns) && DistinctManifests(c)
    requires Resource(s, key).spec.controller.console.name != "" && Deployable(Resource(s, key), c, s) && key.ns != ""
    ensures CT.Live(CT.Persisted(s, key), key)
    ensures var name, marked := Resource(s, key).spec.controller.console.name, Marked(s, key, c);
            var config := Object(marked, Key(ConfigMapKind, key.ns, name));
            Reconcile(World(s, []), key, c).1
            <==> && Object(marked, Key(ClusterRoleKind, "", name + "-" + key.ns)).None?
                 && Object(marked, Key(ClusterRoleBindingKind, "", key.ns + "-" + name)).None?
                 && (config.Some? && config.value.ConfigMap? ==> config.value.data != map[])
  {
    hide RunTasks, Outcome, Kept, Single, Reconcile, Resolved, CT.StatusStore, ConsoleProgram, CT.Persisted, Deployable,
         SetDefaults, ConsoleRbacTasks, ConsoleConfigTask, ConsoleDeploymentTask, ConsoleServiceTask;
    ChildrenCanBeMadeIff(s, key, c);
    MarkingMakesChildren(s, key, c);
    CT.PersistedIsLive(s, key);
    var cr, d, marked := Resource(s, key), Seen(s, key), Marked(s, key, c);
    SameConsole(cr);
    ConsoleIsStaged(d, c);
    SoloTasks(World(marked, []), ConsoleProgram(d, c));
    ConsoleSucceeds(cr, d, c, marked);
  }

  ghost predicate Succeeds(t: Task, s: Store) {
    Single(t) && Outcome(t, Object(s, Kept(t))).Some?
  }

  lemma ConsoleSucceeds(cr: CR, d: CR, c: Choice, s: Store)
    requires HasConsole(cr) && (d == SetDefaults(cr) || d == WithFinalizer(SetDefaults(cr))) && cr.meta.ns != ""
    requires HasConsole(d) && Outcomes.DistinctObjects(ConsoleProgram(d, c)) && Sound(s)
    ensures var name, ns := cr.spec.controller.console.name, cr.meta.ns;
            var config := Object(s, Key(ConfigMapKind, ns, name));
            Outcomes.Completable(ConsoleProgram(d, c), s)
            <==> && Object(s, Key(ClusterRoleKind, "", name + "-" + ns)).None?
                 && Object(s, Key(ClusterRoleBindingKind, "", ns + "-" + name)).None?
                 && (config.Some? && config.value.ConfigMap? ==> config.value.data != map[])
  {
    hide ConsoleProgram, SetDefaults, ConsoleRbacTasks, ConsoleConfigTask, Roles, ConfigTask, ConsoleDeploymentTask,
         ConsoleServiceTask, Succeeds, ConsoleAccountObj;
    var todo, r := ConsoleProgram(d, c), Roles(cr.meta.ns, cr.spec.controller.console.name);
    ConsoleMembers(d, c);
    RolesOf(cr, d);
    ConfigTaskOf(cr, d);
    RolesSucceed(cr.meta.ns, cr.spec.controller.console.name, s);
    ConfigSucceeds(cr, s);
    SucceedingList(todo, s);
    assert r[0] in r && r[1] in r;
    forall t | t in todo && t !in r && t != ConfigTask(cr) ensures Succeeds(t, s) {
      OneOfConsole(d, c, t);
      OtherSucceeds(cr, d, c, s, t);
    }
  }

  lemma SucceedingList(todo: seq<Task>, s: Store)
    requires Outcomes.DistinctObjects(todo)
    ensures Outcomes.Completable(todo, s) <==> forall t :: t in todo ==> Succeeds(t, s)
  {
    hide Outcome, Single, Kept;
    if forall t :: t in todo ==> Succeeds(t, s) {
      forall i | 0 <= i < |todo| ensures Outcome(todo[i], Object(s, Kept(todo[i]))).Some? {
        assert todo[i] in todo;
      }
    }
  }

  lemma OneOfConsole(cr: CR, c: Choice, t: Task)
    requires HasConsole(cr) && t in ConsoleProgram(cr, c)
    ensures || t in ConsoleRbacTasks(cr) || t == CreateOnly(ConsoleAccountObj(cr)) || t == ConsoleConfigTask(cr)
            || t == ConsoleDeploymentTask(cr, c) || t == ConsoleServiceTask(cr)
  {
    hide ConsoleRbacTasks, ConsoleAccountObj, ConsoleConfigTask, ConsoleDeploymentTask, ConsoleServiceTask;
  }

  lemma RolesSucceed(ns: string, name: string, s: Store)
    requires Sound(s) && ns != ""
    ensures var r := Roles(ns, name);
            && |r| == 4 && (forall t :: t in r ==> t == r[0] || t == r[1] || t == r[2] || t == r[3])
            && (Succeeds(r[0], s) <==> Object(s, Key(ClusterRoleKind, "", name + "-" + ns)).None?)
            && (Succeeds(r[1], s) <==> Object(s, Key(ClusterRoleBindingKind, "", ns + "-" + name)).None?)
            && Succeeds(r[2], s) && Succeeds(r[3], s)
  {
    hide Succeeds;
    var r := Roles(ns, name);
    RoleSucceeds(r[0], s);
    RoleSucceeds(r[1], s);
    RoleSucceeds(r[2], s);
    RoleSucceeds(r[3], s);
  }

  lemma RoleSucceeds(t: Task, s: Store)
    requires Sound(s) && t.Ensure?
    requires || (t.mutation.SetRules? && (t.init.ClusterRole? || t.init.Role?))
             || (t.mutation.Bind? && (t.init.ClusterRoleBinding? || t.init.RoleBinding?))
    ensures Succeeds(t, s) <==> Object(s, Scoped(KeyOf(t.init))).None? || Scoped(KeyOf(t.init)) == KeyOf(t.init)
  {
    FoundKind(s, Scoped(KeyOf(t.init)));
  }

  lemma ConfigSucceeds(cr: CR, s: Store)
    requires HasConsole(cr) && Sound(s)
    ensures var config := Object(s, Key(ConfigMapKind, cr.meta.ns, cr.spec.controller.console.name));
            Succeeds(ConfigTask(cr), s) <==> (config.Some? && config.value.ConfigMap? ==> config.value.data != map[])
  {
    hide Outcome, Kept, Single, ConfigTask, ConfigAsAsked;
    FoundKind(s, Key(ConfigMapKind, cr.meta.ns, cr.spec.controller.console.name));
    ConfigMade(cr, Object(s, Key(ConfigMapKind, cr.meta.ns, cr.spec.controller.console.name)));
  }

  lemma OtherSucceeds(cr: CR, d: CR, c: Choice, s: Store, t: Task)
    requires HasConsole(cr) && (d == SetDefaults(cr) || d == WithFinalizer(SetDefaults(cr))) && Sound(s)
    requires HasConsole(d)
    requires t == CreateOnly(ConsoleAccountObj(d)) || t == ConsoleDeploymentTask(d, c) || t == ConsoleServiceTask(d)
    ensures Succeeds(t, s)
  {
    hide SetDefaults, Outcome, Kept, Single, ConsoleDeploymentTask, ConsoleServiceTask;
    if t == CreateOnly(ConsoleAccountObj(d)) {
      CreateSucceeds(ConsoleAccountObj(d), s);
    } else if t == ConsoleServiceTask(d) {
      ServiceSucceeds(cr, d, s);
    } else {
      DeploymentSucceeds(cr, d, c, s);
    }
  }

  lemma CreateSucceeds(o: Obj, s: Store)
    requires !o.CustomResource?
    ensures Succeeds(CreateOnly(o), s)
  {
  }

  lemma ServiceSucceeds(cr: CR, d: CR, s: Store)
    requires HasConsole(cr) && HasConsole(d) && Sound(s)
    requires d == SetDefaults(cr) || d == WithFinalizer(SetDefaults(cr))
    ensures Succeeds(ConsoleServiceTask(d), s)
  {
    hide SetDefaults, Outcome, Kept, Single, ConsoleServiceTask, ServiceTask;
    FoundKind(s, Key(ServiceKind, cr.meta.ns, cr.spec.controller.console.name));
    ServiceTaskOf(cr, d);
    ServiceMade(cr, Object(s, Key(ServiceKind, cr.meta.ns, cr.spec.controller.console.name)));
  }

  lemma DeploymentSucceeds(cr: CR, d: CR, c: Choice, s: Store)
    requires HasConsole(cr) && HasConsole(d) && Sound(s)
    requires d == SetDefaults(cr) || d == WithFinalizer(SetDefaults(cr))
    ensures Succeeds(ConsoleDeploymentTask(d, c), s)
  {
    hide SetDefaults, Outcome, Kept, Single, ConsoleDeploymentTask, CC.UpdateSpec, AskedFields;
    FoundKind(s, Key(DeploymentKind, cr.meta.ns, cr.spec.controller.console.name));
    DeploymentTaskOf(cr, d, c);
    BuiltOutcome(DeploymentTask(cr, c), CC.Build(cr.meta, AskedFields(cr.spec.controller)), c.console,
        Object(s, Key(DeploymentKind, cr.meta.ns, cr.spec.controller.console.name)));
  }
}
