/** What a completed reconcile of a gateway has put into the cluster, in terms of the resource as the user wrote it. */
module GatewayContents {
  import opened Kubernetes
  import opened ApiStore
  import opened Tasks
  import opened Runs
  import opened Convergence
  import opened GatewayTheorems
  import opened GatewayPods
  import opened Asked
  import ConfigMaps
  import ControllerEnv
  import GC = GatewayChildren
  import GatewayVariables

  // ---- What the user asks for ----

  function AskedReplicas(f: GatewayFields): Option<int> {
    if f.replicas.Some? then f.replicas else Some(1)
  }

  function AskedLabels(meta: Meta, f: GatewayFields): map<string, string> {
    if f.selectorLabels != map[] then f.selectorLabels
    else map["app" := meta.name, "higress" := meta.ns + "-" + meta.name]
  }

  function AskedService(f: GatewayFields): ServiceParams {
    if f.service.Some? then f.service.value
    else ServiceParams("LoadBalancer", [ServicePort("http2", "TCP", 80, 80), ServicePort("https", "TCP", 443, 443)],
                       "", [], "")
  }

  /** The account the pods name; with none the namespace's default account is used. */
  function PodAccount(cr: CR): string {
    if cr.account.None? then cr.meta.name else if cr.account.value.enable then cr.account.value.name else ""
  }

  // ---- Reading off one task ----

  /** The reconcile without failures has succeeded. */
  ghost predicate Succeeds(s: Store, key: Key, c: Choice) {
    Live(s, key) && NamespaceActive(s, key.ns) && Reconcile(World(s, []), key, c).1
  }

  /** The user's resource. */
  ghost function Resource(s: Store, key: Key): (cr: CR)
    requires Live(s, key)
    ensures cr.spec.GatewaySpec? && cr.meta.ns == key.ns && cr.meta.name == key.name
  {
    s.objects[key].obj.cr
  }

  ghost function Afterwards(s: Store, key: Key, c: Choice): Store {
    Reconcile(World(s, []), key, c).0.store
  }

  lemma TaskDone(s: Store, key: Key, c: Choice, t: Task)
    requires Succeeds(s, key, c) && t in Program(Instance(s, key), c)
    ensures !t.Crash? && Plain(t) && Result(t, Object(s, Managed(t))).Some?
    ensures Object(Afterwards(s, key, c), Managed(t)) == Result(t, Object(s, Managed(t)))
  {
    hide Program, Result, Reconcile;
    ReconcileEffect(World(s, []), key, c);
    var todo := Program(Instance(s, key), c);
    var i :| 0 <= i < |todo| && todo[i] == t;
    assert !todo[i].Crash?;
  }

  lemma Members(cr: CR, c: Choice)
    requires cr.spec.GatewaySpec?
    ensures var todo := Program(cr, c);
            && CreateOnly(AccountObj(cr)) in todo && ConfigTask(cr) in todo && GatewayDeploymentTask(cr, c) in todo
            && GatewayServiceTask(cr) in todo && (forall t :: t in RbacTasks(cr) ==> t in todo)
            && (GC.SkywalkingOn(cr.spec.gateway) ==> Crash in todo)
  {
    hide AccountObj, RbacTasks, ConfigTask, GatewayDeploymentTask, GatewayServiceTask;
  }

  // ---- The Deployment ----

  /** The Deployment is the one the user asks for, whatever was there before; a new one belongs to the resource. */
  ghost predicate DeploymentAsAsked(cr: CR, before: Option<Obj>, after: Option<Obj>)
    requires cr.spec.GatewaySpec?
  {
    && after.Some? && after.value.Deployment?
    && PodsAsAsked(cr.meta, cr.spec.gateway, AskedReplicas(cr.spec.gateway), AskedLabels(cr.meta, cr.spec.gateway),
                   PodAccount(cr), after.value.deployment)
    && (before.None? ==>
          after.value.meta == cr.meta && after.value.owner == Some(Key(GatewayKind, cr.meta.ns, cr.meta.name)))
    && (before.Some? && before.value.Deployment? ==>
          after.value.meta == before.value.meta && after.value.owner == before.value.owner)
  }

  lemma StoredDeployment(s: Store, key: Key, c: Choice)
    requires Succeeds(s, key, c)
    requires ControllerEnv.IsOrder(c.gateway, Resource(s, key).spec.gateway.container.env)
    ensures var k := Key(DeploymentKind, key.ns, key.name);
            DeploymentAsAsked(Resource(s, key), Object(s, k), Object(Afterwards(s, key, c), k))
  {
    hide Reconcile, Program, DeploymentAsAsked, GatewayDeploymentTask, Result, SetDefaults;
    var cr, k := Resource(s, key), Key(DeploymentKind, key.ns, key.name);
    DefaultsKeep(cr);
    Members(Instance(s, key), c);
    TaskDone(s, key, c, GatewayDeploymentTask(Instance(s, key), c));
    FoundKind(s, k);
    DeploymentMade(cr, c, Object(s, k));
  }

  lemma DeploymentMade(cr: CR, c: Choice, before: Option<Obj>)
    requires cr.spec.GatewaySpec? && ControllerEnv.IsOrder(c.gateway, cr.spec.gateway.container.env)
    requires before.Some? ==> KindOf(before.value) == DeploymentKind
    ensures var t := GatewayDeploymentTask(SetDefaults(cr), c);
            && Plain(t) && !t.Crash? && Managed(t) == Key(DeploymentKind, cr.meta.ns, cr.meta.name)
            && DeploymentAsAsked(cr, before, Result(t, before))
  {
    hide GC.DeploymentOf, PodsAsAsked;
    BuiltPods(GatewayBuild(SetDefaults(cr)), c.gateway);
    SamePods(cr, GC.DeploymentOf(GatewayBuild(SetDefaults(cr)), c.gateway));
  }

  /** Filling in the defaults changes nothing else. */
  lemma SamePods(cr: CR, d: DeploymentSpec)
    requires cr.spec.GatewaySpec?
    requires var b := GatewayBuild(SetDefaults(cr));
             PodsAsAsked(b.meta, b.fields, b.fields.replicas, b.fields.selectorLabels, b.account, d)
    ensures PodsAsAsked(cr.meta, cr.spec.gateway, AskedReplicas(cr.spec.gateway),
                        AskedLabels(cr.meta, cr.spec.gateway), PodAccount(cr), d)
  {
    SameContainer(cr, d);
    SameStorage(cr, d);
    hide RunsGateway, GatewayStorage, GatewayVariables.Finds;
  }

  lemma SameContainer(cr: CR, d: DeploymentSpec)
    requires cr.spec.GatewaySpec? && |d.template.containers| == 1
    ensures var c, f, f' := d.template.containers[0], cr.spec.gateway, SetDefaults(cr).spec.gateway;
            && (RunsGateway(cr.meta, f', c) ==> RunsGateway(cr.meta, f, c))
            && (GatewayVariables.Finds(f', c.env) ==> GatewayVariables.Finds(f, c.env))
  {
    hide ControllerEnv.Shows;
  }

  lemma SameStorage(cr: CR, d: DeploymentSpec)
    requires cr.spec.GatewaySpec? && |d.template.containers| == 1
    ensures var c, f, f' := d.template.containers[0], cr.spec.gateway, SetDefaults(cr).spec.gateway;
            GatewayStorage(cr.meta, f', d.template, c) ==> GatewayStorage(cr.meta, f, d.template, c)
  {
    hide Mounted;
  }

  // ---- The Service ----

  /** The Service is the one the user asks for, on the ports of the network if there is one; what the user leaves open
      about the load balancer is as it was. The network is also a label. */
  ghost predicate ServiceAsAsked(cr: CR, before: Option<Obj>, after: Option<Obj>)
    requires cr.spec.GatewaySpec?
  {
    var f := cr.spec.gateway;
    && after.Some? && after.value.Service?
    && ServesAsAsked(f, AskedService(f), AskedLabels(cr.meta, f),
                     if before.Some? && before.value.Service? then before.value.service else EMPTY_SERVICE,
                     after.value.service)
    && (f.network != "" ==>
          && after.value.meta.labels.Some? && "topology.istio.io/network" in after.value.meta.labels.value
          && after.value.meta.labels.value["topology.istio.io/network"] == f.network)
    && (before.None? ==>
          && after.value.meta == cr.meta.(labels := after.value.meta.labels)
          && after.value.owner == Some(Key(GatewayKind, cr.meta.ns, cr.meta.name))
          && (f.network == "" ==> after.value.meta.labels == cr.meta.labels))
    && (before.Some? && before.value.Service? ==>
          && after.value.meta == before.value.meta.(labels := after.value.meta.labels)
          && after.value.owner == before.value.owner
          && (f.network == "" ==> after.value.meta.labels == before.value.meta.labels))
  }

  lemma StoredService(s: Store, key: Key, c: Choice)
    requires Succeeds(s, key, c)
    ensures var k := Key(ServiceKind, key.ns, key.name);
            ServiceAsAsked(Resource(s, key), Object(s, k), Object(Afterwards(s, key, c), k))
  {
    hide Reconcile, Program, ServiceAsAsked, GatewayServiceTask, Result, SetDefaults;
    var cr, k := Resource(s, key), Key(ServiceKind, key.ns, key.name);
    DefaultsKeep(cr);
    Members(Instance(s, key), c);
    TaskDone(s, key, c, GatewayServiceTask(Instance(s, key)));
    FoundKind(s, k);
    ServiceMade(cr, Object(s, k));
  }

  lemma ServiceMade(cr: CR, before: Option<Obj>)
    requires cr.spec.GatewaySpec? && (before.Some? ==> KindOf(before.value) == ServiceKind)
    ensures var t := GatewayServiceTask(SetDefaults(cr));
            Plain(t) && !t.Crash? ==>
              && Managed(t) == Key(ServiceKind, cr.meta.ns, cr.meta.name)
              && (Result(t, before).Some? ==> ServiceAsAsked(cr, before, Result(t, before)))
  {
    hide ServesAsAsked, GC.ServiceOf;
    var f, t := SetDefaults(cr).spec.gateway, GatewayServiceTask(SetDefaults(cr));
    if Plain(t) && !t.Crash? && Result(t, before).Some? {
      UpdatedService(GC.ServiceOf(EMPTY_SERVICE, f), f);
      UpdatedService(EMPTY_SERVICE, f);
      GC.ServiceIsIdempotent(EMPTY_SERVICE, cr.meta.labels, f);
      SameService(cr, EMPTY_SERVICE, GC.ServiceOf(EMPTY_SERVICE, f));
      if before.Some? {
        UpdatedService(before.value.service, f);
        SameService(cr, before.value.service, GC.ServiceOf(before.value.service, f));
      }
    }
  }

  lemma SameService(cr: CR, before: ServiceSpec, r: ServiceSpec)
    requires cr.spec.GatewaySpec?
    requires var f := SetDefaults(cr).spec.gateway;
             ServesAsAsked(f, f.service.value, f.selectorLabels, before, r)
    ensures var f := cr.spec.gateway; ServesAsAsked(f, AskedService(f), AskedLabels(cr.meta, f), before, r)
  {
  }

  // ---- The config map ----

  /** The mesh configuration as the user gives it, completed; a new config map bears the resource's labels. */
  ghost predicate ConfigAsAsked(cr: CR, before: Option<Obj>, after: Option<Obj>)
    requires cr.spec.GatewaySpec?
  {
    var f := cr.spec.gateway;
    && after.Some? && after.value.ConfigMap?
    && ConfigMaps.AsAsked(ConfigMaps.Settings(cr.meta.name, cr.meta.ns, f.istio, f.istioNamespace, f.istioAPI,
                                              f.networks, None), f.mesh, after.value.data)
    && (before.None? ==> after.value.meta == Meta("cm-" + cr.meta.name, cr.meta.ns, cr.meta.labels, map[]))
    && (before.Some? && before.value.ConfigMap? ==> after.value.meta == before.value.meta)
  }

  lemma StoredConfig(s: Store, key: Key, c: Choice)
    requires Succeeds(s, key, c)
    ensures var k := Key(ConfigMapKind, key.ns, "cm-" + key.name);
            ConfigAsAsked(Resource(s, key), Object(s, k), Object(Afterwards(s, key, c), k))
  {
    hide Reconcile, Program, ConfigAsAsked, ConfigTask, Result, SetDefaults;
    var cr, k := Resource(s, key), Key(ConfigMapKind, key.ns, "cm-" + key.name);
    DefaultsKeep(cr);
    Members(Instance(s, key), c);
    TaskDone(s, key, c, ConfigTask(Instance(s, key)));
    FoundKind(s, k);
    ConfigMade(cr, Object(s, k));
  }

  lemma ConfigMade(cr: CR, before: Option<Obj>)
    requires cr.spec.GatewaySpec? && (before.Some? ==> KindOf(before.value) == ConfigMapKind)
    ensures var t := ConfigTask(SetDefaults(cr));
            && Plain(t) && !t.Crash? && Managed(t) == Key(ConfigMapKind, cr.meta.ns, "cm-" + cr.meta.name)
            && ConfigAsAsked(cr, before, Result(t, before))
  {
    hide ConfigMaps.Data, ConfigMaps.SettledData, ConfigMaps.AsAsked;
    ConfigMaps.StoredMesh(Settings(SetDefaults(cr)), MeshOf(SetDefaults(cr)));
  }

  // ---- The account and what it may do ----

  /** The account is there, whether it is enabled or not; a new one bears the annotations of the account section. */
  lemma StoredAccount(s: Store, key: Key, c: Choice)
    requires Succeeds(s, key, c)
    ensures var cr, s' := Resource(s, key), Afterwards(s, key, c);
            var k := Key(ServiceAccountKind, key.ns, AskedAccount(cr));
            && (Object(s, k).Some? ==> Object(s', k) == Object(s, k))
            && (Object(s, k).None? ==>
                  Object(s', k) == Some(ServiceAccount(
                      Meta(AskedAccount(cr), key.ns, cr.meta.labels,
                           if cr.account.Some? then cr.account.value.annotations else map[]), Some(key))))
  {
    hide Reconcile, Program, SetDefaults;
    var cr := Resource(s, key);
    DefaultsKeep(cr);
    Members(Instance(s, key), c);
    TaskDone(s, key, c, CreateOnly(AccountObj(Instance(s, key))));
    AccountMade(cr);
    assert KeyOf(s.objects[key].obj) == key;
  }

  lemma AccountMade(cr: CR)
    requires cr.spec.GatewaySpec?
    ensures AccountObj(SetDefaults(cr)) == ServiceAccount(
                Meta(AskedAccount(cr), cr.meta.ns, cr.meta.labels,
                     if cr.account.Some? then cr.account.value.annotations else map[]),
                Some(Key(GatewayKind, cr.meta.ns, cr.meta.name)))
  {
  }

  /** Both roles are there with the gateway's rules and both bindings grant them to the account. */
  ghost predicate RbacAsAsked(cr: CR, s: Store, s': Store) {
    var group, subject := "rbac.authorization.k8s.io", Subject("ServiceAccount", "", AskedAccount(cr), cr.meta.ns);
    var role, binding := Key(RoleKind, cr.meta.ns, "higress-gateway"),
        Key(RoleBindingKind, cr.meta.ns, "higress-gateway");
    var shared := Key(ClusterRoleBindingKind, "", AskedAccount(cr));
    && HasRules(Object(s', Key(ClusterRoleKind, "", "higress-gateway")), Literal("gateway rules"))
    && Binds(RoleRef("ClusterRole", "higress-gateway", group), subject, Object(s, shared), Object(s', shared))
    && HasRules(Object(s', role), Literal("gateway rules"))
    && Binds(RoleRef("Role", "higress-gateway", group), subject, Object(s, binding), Object(s', binding))
  }

  /** With RBAC and the account enabled the account is granted its two roles; with one of the flags off no role and no
      binding is touched. */
  lemma StoredRbac(s: Store, key: Key, c: Choice)
    requires Succeeds(s, key, c)
    ensures var cr, s' := Resource(s, key), Afterwards(s, key, c);
            && (AskedRbac(cr) ==> RbacAsAsked(cr, s, s'))
            && (!AskedRbac(cr) ==> forall k: Key :: RbacKind(k.kind) ==> Object(s', k) == Object(s, k))
  {
    hide Reconcile, Program, SetDefaults, RbacTasks, Binds, Result;
    var cr, d := Resource(s, key), Instance(s, key);
    DefaultsKeep(cr);
    Members(d, c);
    if AskedRbac(cr) {
      forall t | t in RbacTasks(d) ensures TaskCompleted(t, s, Afterwards(s, key, c)) {
        TaskDone(s, key, c, t);
      }
      RolesMade(cr, s, Afterwards(s, key, c));
    } else {
      NoRbac(s, key, c);
    }
  }

  ghost predicate TaskCompleted(t: Task, s: Store, s': Store) {
    !t.Crash? && Plain(t) && Object(s', Managed(t)) == Result(t, Object(s, Managed(t)))
  }

  lemma RulesMade(init: Obj, rules: Literal, s: Store, s': Store)
    requires Sound(s) && (init.ClusterRole? || init.Role?) && TaskCompleted(Ensure(init, SetRules(rules)), s, s')
    ensures HasRules(Object(s', KeyOf(init)), rules)
  {
    FoundKind(s, KeyOf(init));
  }

  lemma BindingMade(init: Obj, ref: RoleRef, subject: Subject, s: Store, s': Store)
    requires Sound(s) && (init.ClusterRoleBinding? || init.RoleBinding?) && init.subjects == [subject]
    requires init.meta.labels.None? && init.meta.annotations == map[]
    requires TaskCompleted(Ensure(init, Bind(ref, subject)), s, s')
    ensures Binds(ref, subject, Object(s, KeyOf(init)), Object(s', KeyOf(init)))
  {
    FoundKind(s, KeyOf(init));
  }

  lemma RolesMade(cr: CR, s: Store, s': Store)
    requires Sound(s) && cr.spec.GatewaySpec? && AskedRbac(cr)
    requires forall t :: t in RbacTasks(SetDefaults(cr)) ==> TaskCompleted(t, s, s')
    ensures RbacAsAsked(cr, s, s')
  {
    AskedRoles(cr);
    hide TaskCompleted, Binds, HasRules, RbacTasks, SetDefaults, AskedAccount;
    var r, group := RbacTasks(SetDefaults(cr)), "rbac.authorization.k8s.io";
    var subject := Subject("ServiceAccount", "", AskedAccount(cr), cr.meta.ns);
    assert r[0] in r && r[1] in r && r[2] in r && r[3] in r;
    RulesMade(r[0].init, Literal("gateway rules"), s, s');
    BindingMade(r[1].init, RoleRef("ClusterRole", "higress-gateway", group), subject, s, s');
    RulesMade(r[2].init, Literal("gateway rules"), s, s');
    BindingMade(r[3].init, RoleRef("Role", "higress-gateway", group), subject, s, s');
  }

  predicate Bare(meta: Meta) {
    meta.labels.None? && meta.annotations == map[]
  }

  /** The four tasks, written out. */
  lemma AskedRoles(cr: CR)
    requires cr.spec.GatewaySpec? && AskedRbac(cr)
    ensures var r, group, ns := RbacTasks(SetDefaults(cr)), "rbac.authorization.k8s.io", cr.meta.ns;
            var subject := Subject("ServiceAccount", "", AskedAccount(cr), ns);
            && |r| == 4 && r[0].Ensure? && r[1].Ensure? && r[2].Ensure? && r[3].Ensure?
            && r[0].init.ClusterRole? && KeyOf(r[0].init) == Key(ClusterRoleKind, "", "higress-gateway")
            && r[0].mutation == SetRules(Literal("gateway rules"))
            && r[1].init.ClusterRoleBinding? && KeyOf(r[1].init) == Key(ClusterRoleBindingKind, "", AskedAccount(cr))
            && r[1].init.subjects == [subject] && Bare(r[1].init.meta)
            && r[1].mutation == Bind(RoleRef("ClusterRole", "higress-gateway", group), subject)
            && r[2].init.Role? && KeyOf(r[2].init) == Key(RoleKind, ns, "higress-gateway")
            && r[2].mutation == SetRules(Literal("gateway rules"))
            && r[3].init.RoleBinding? && KeyOf(r[3].init) == Key(RoleBindingKind, ns, "higress-gateway")
            && r[3].init.subjects == [subject] && Bare(r[3].init.meta)
            && r[3].mutation == Bind(RoleRef("Role", "higress-gateway", group), subject)
  {
  }

  lemma NoRbac(s: Store, key: Key, c: Choice)
    requires Succeeds(s, key, c) && !AskedRbac(Resource(s, key))
    ensures forall k: Key :: RbacKind(k.kind) ==> Object(Afterwards(s, key, c), k) == Object(s, k)
  {
    hide Reconcile, Program;
    var cr := Instance(s, key);
    ReconcileEffect(World(s, []), key, c);
    assert !RbacOn(cr);
    hide SetDefaults;
    DefaultsKeep(Resource(s, key));
    forall k: Key | RbacKind(k.kind) ensures Object(Afterwards(s, key, c), k) == Object(s, k) {
      NoRbacTasks(cr, c, k);
    }
  }

  lemma NoRbacTasks(cr: CR, c: Choice, k: Key)
    requires cr.spec.GatewaySpec? && !RbacOn(cr) && RbacKind(k.kind)
    ensures DistinctTasks(Program(cr, c)) && Unmanaged(Program(cr, c), k)
  {
    hide AccountObj, ConfigTask, GatewayDeploymentTask, GatewayServiceTask;
    ProgramIsDistinct(cr, c);
    TaskKinds(cr, c);
    ServiceKinds(cr);
    assert RbacTasks(cr) == [];
  }

  // ---- The resource itself ----

  /** The resource as the user wrote it, with everything left open filled in. */
  function FilledIn(cr: CR): CR
    requires cr.spec.GatewaySpec?
  {
    var f := cr.spec.gateway;
    cr.(finalizers := cr.finalizers + {"higressgateway.higress.io/finalizer"},
        rbac := if cr.rbac.Some? then cr.rbac else Some(true),
        account := if cr.account.Some? then cr.account else Some(AccountParams(true, cr.meta.name, map[])),
        spec := GatewaySpec(
          f.(replicas := AskedReplicas(f), selectorLabels := AskedLabels(cr.meta, f), service := Some(AskedService(f)),
             skywalking := if f.skywalking.Some? then f.skywalking else Some(Skywalking(false, "")))))
  }

  /** The resource has its finalizer and its status, and nothing else is written into it, except that its defaults go
      with the finalizer. Skywalking is off: with it on no reconcile gets that far. */
  lemma StoredResource(s: Store, key: Key, c: Choice)
    requires Succeeds(s, key, c)
    ensures var cr, f := Resource(s, key), Resource(s, key).spec.gateway;
            && Object(Afterwards(s, key, c), key) == Some(CustomResource(
                 (if "higressgateway.higress.io/finalizer" in cr.finalizers then cr else FilledIn(cr))
                 .(deployed := true)))
            && (f.skywalking.None? || !f.skywalking.value.enable)
  {
    hide Program, Reconcile;
    var cr, s' := Instance(s, key), Afterwards(s, key, c);
    ReconcileEffect(World(s, []), key, c);
    assert Object(s', key) == Some(CustomResource(Marked(Resource(s, key))));
    if GC.SkywalkingOn(cr.spec.gateway) {
      Members(cr, c);
      TaskDone(s, key, c, Crash);
    }
  }

  // ---- How the children fit together ----

  /** The Service selects the pods; the pods read the stored config map; and they run as the account that is granted
      the roles exactly when the account section is missing or names an account: with an empty name they run as the
      namespace's default account, and with the account disabled too. */
  lemma ChildrenFit(s: Store, key: Key, c: Choice)
    requires Succeeds(s, key, c)
    requires ControllerEnv.IsOrder(c.gateway, Resource(s, key).spec.gateway.container.env)
    ensures var cr, s' := Resource(s, key), Afterwards(s, key, c);
            var d, v := Object(s', Key(DeploymentKind, key.ns, key.name)),
                Object(s', Key(ServiceKind, key.ns, key.name));
            && d.Some? && d.value.Deployment? && v.Some? && v.value.Service?
            && var pods := d.value.deployment.template;
               && v.value.service.selector == pods.labels == d.value.deployment.selector
               && Volume("config", Literal("cm-" + key.name)) in pods.volumes
               && Object(s', Key(ConfigMapKind, pods.ns, "cm-" + key.name)).Some?
               && (AskedRbac(cr) ==>
                     (pods.serviceAccount == AskedAccount(cr)
                      <==> cr.account.None? || cr.account.value.name != "" || key.name == ""))
               && (AskedRbac(cr) && pods.serviceAccount == AskedAccount(cr) ==>
                     && Object(s', Key(ServiceAccountKind, pods.ns, pods.serviceAccount)).Some?
                     && Grants(s', Key(ClusterRoleBindingKind, "", AskedAccount(cr)), pods)
                     && Grants(s', Key(RoleBindingKind, pods.ns, "higress-gateway"), pods))
  {
    hide Succeeds, Afterwards, RunsGateway, GatewayVariables.Finds, AskedLabels, AskedService, ConfigMaps.AsAsked,
         AskedReplicas;
    StoredDeployment(s, key, c);
    StoredService(s, key, c);
    StoredConfig(s, key, c);
    StoredAccount(s, key, c);
    StoredRbac(s, key, c);
  }

  /** Without an active namespace nothing at all is written, whatever calls fail; and the reconcile succeeds unless the
      resource itself cannot be read. */
  lemma WithoutNamespace(w: World, key: Key, c: Choice)
    requires Live(w.store, key) && !NamespaceActive(w.store, key.ns)
    ensures var (w', ok) := Reconcile(w, key, c); w'.store == w.store && (ok <==> !Faulty(w))
  {
    hide Program, StartWork;
    ReconcileIsLiveRun(w, key, c);
    DefaultsKeep(w.store.objects[key].obj.cr);
    ActiveIff(w.store, Instance(w.store, key), w.store.objects[key].version, c);
    assert KeyOf(w.store.objects[key].obj) == key;
  }

  // ---- When it succeeds ----

  /** Without failures a reconcile succeeds exactly when Skywalking is off and, with a network, neither the resource
      nor the Service that is there lacks labels: writing the network's label into a missing map is a panic. */
  lemma SucceedsIff(s: Store, key: Key, c: Choice)
    requires Live(s, key) && NamespaceActive(s, key.ns)
    ensures var cr, service := Resource(s, key), Object(s, Key(ServiceKind, key.ns, key.name));
            var f := cr.spec.gateway;
            Reconcile(World(s, []), key, c).1
            <==> && (f.skywalking.None? || !f.skywalking.value.enable)
                 && (f.network != "" ==>
                       cr.meta.labels.Some? && (service.Some? ==> MetaOf(service.value).labels.Some?))
  {
    hide Reconcile, Program, SetDefaults, RbacTasks, ConfigTask, AccountObj, GatewayDeploymentTask, GatewayServiceTask,
         Result, GC.SkywalkingOn;
    var cr, d := Resource(s, key), Instance(s, key);
    DefaultsKeep(cr);
    ReconcileEffect(World(s, []), key, c);
    ServiceSucceeds(cr, s);
    var todo := Program(d, c);
    if Reconcile(World(s, []), key, c).1 {
      StoredResource(s, key, c);
      Members(d, c);
      TaskDone(s, key, c, GatewayServiceTask(d));
    } else {
      var i :| 0 <= i < |todo| && (todo[i].Crash? || Result(todo[i], Object(s, Managed(todo[i]))).None?);
      OneOf(d, c, todo[i]);
      SkywalkingStays(cr);
      if todo[i] != GatewayServiceTask(d) && !(todo[i] == Crash && GC.SkywalkingOn(d.spec.gateway)) {
        OthersSucceed(d, c, s, todo[i]);
      }
    }
  }

  lemma SkywalkingStays(cr: CR)
    requires cr.spec.GatewaySpec?
    ensures var f := cr.spec.gateway;
            GC.SkywalkingOn(SetDefaults(cr).spec.gateway) <==> f.skywalking.Some? && f.skywalking.value.enable
  {
  }

  lemma OneOf(cr: CR, c: Choice, t: Task)
    requires cr.spec.GatewaySpec? && t in Program(cr, c)
    ensures || t == CreateOnly(AccountObj(cr)) || t in RbacTasks(cr) || t == ConfigTask(cr)
            || t == GatewayDeploymentTask(cr, c) || t == GatewayServiceTask(cr)
            || (t == Crash && GC.SkywalkingOn(cr.spec.gateway))
  {
    hide AccountObj, RbacTasks, ConfigTask, GatewayDeploymentTask, GatewayServiceTask;
  }

  /** Every task but the Service's can complete. */
  lemma OthersSucceed(cr: CR, c: Choice, s: Store, t: Task)
    requires cr.spec.GatewaySpec? && Sound(s)
    requires t == CreateOnly(AccountObj(cr)) || t in RbacTasks(cr) || t == ConfigTask(cr)
             || t == GatewayDeploymentTask(cr, c)
    ensures !t.Crash? && Plain(t) && Result(t, Object(s, Managed(t))).Some?
  {
    hide GC.DeploymentOf, ConfigMaps.Data, ConfigMaps.SettledData;
    TaskKinds(cr, c);
    FoundKind(s, Managed(t));
    if t in RbacTasks(cr) {
      RbacSucceeds(cr, s, t);
    }
  }

  lemma RbacSucceeds(cr: CR, s: Store, t: Task)
    requires Sound(s) && t in RbacTasks(cr)
    ensures !t.Crash? && Plain(t) && Result(t, Object(s, Managed(t))).Some?
  {
    FoundKind(s, Managed(t));
  }

  lemma ServiceSucceeds(cr: CR, s: Store)
    requires cr.spec.GatewaySpec? && Sound(s)
    ensures var t, f := GatewayServiceTask(SetDefaults(cr)), cr.spec.gateway;
            var service := Object(s, Key(ServiceKind, cr.meta.ns, cr.meta.name));
            (!t.Crash? && Plain(t) && Result(t, Object(s, Managed(t))).Some?)
            <==> (f.network != "" ==> cr.meta.labels.Some? && (service.Some? ==> MetaOf(service.value).labels.Some?))
  {
    hide GC.ServiceOf;
    FoundKind(s, Key(ServiceKind, cr.meta.ns, cr.meta.name));
  }

  // ---- Under failures ----

  ghost predicate AsBeforeOrAsked(cr: CR, s: Store, s': Store)
    requires cr.spec.GatewaySpec?
  {
    var d, v := Key(DeploymentKind, cr.meta.ns, cr.meta.name), Key(ServiceKind, cr.meta.ns, cr.meta.name);
    var m := Key(ConfigMapKind, cr.meta.ns, "cm-" + cr.meta.name);
    && (Object(s', d) == Object(s, d) || DeploymentAsAsked(cr, Object(s, d), Object(s', d)))
    && (Object(s', v) == Object(s, v) || ServiceAsAsked(cr, Object(s, v), Object(s', v)))
    && (Object(s', m) == Object(s, m) || ConfigAsAsked(cr, Object(s, m), Object(s', m)))
  }

  /** Whatever calls fail and whether the namespace is there or not: Deployment, Service and config map are each as
      they were or as asked. */
  lemma WhateverFails(w: World, key: Key, c: Choice)
    requires Live(w.store, key)
    requires ControllerEnv.IsOrder(c.gateway, Resource(w.store, key).spec.gateway.container.env)
    ensures AsBeforeOrAsked(Resource(w.store, key), w.store, Reconcile(w, key, c).0.store)
  {
    hide Reconcile, Program, SetDefaults, Result, DeploymentAsAsked, ServiceAsAsked, ConfigAsAsked, Stepped,
         GatewayDeploymentTask, GatewayServiceTask, ConfigTask;
    var cr, d, s, s' := Resource(w.store, key), Instance(w.store, key), w.store, Reconcile(w, key, c).0.store;
    DefaultsKeep(cr);
    ReconcileEffect(w, key, c);
    Members(d, c);
    FoundKind(s, Key(DeploymentKind, key.ns, key.name));
    DeploymentMade(cr, c, Object(s, Key(DeploymentKind, key.ns, key.name)));
    Step(Program(d, c), s, s', GatewayDeploymentTask(d, c));
    FoundKind(s, Key(ConfigMapKind, key.ns, "cm-" + key.name));
    ConfigMade(cr, Object(s, Key(ConfigMapKind, key.ns, "cm-" + key.name)));
    Step(Program(d, c), s, s', ConfigTask(d));
    FoundKind(s, Key(ServiceKind, key.ns, key.name));
    ServiceMade(cr, Object(s, Key(ServiceKind, key.ns, key.name)));
    if GatewayServiceTask(d).Crash? {
      NoServiceTask(d, c, Key(ServiceKind, key.ns, key.name));
    } else {
      Step(Program(d, c), s, s', GatewayServiceTask(d));
    }
  }

  lemma Step(todo: seq<Task>, s: Store, s': Store, t: Task)
    requires DistinctTasks(todo) && Between(todo, s, s') && t in todo && !t.Crash?
    ensures Plain(t)
    ensures || Object(s', Managed(t)) == Object(s, Managed(t))
            || (Result(t, Object(s, Managed(t))).Some? && Object(s', Managed(t)) == Result(t, Object(s, Managed(t))))
  {
    hide Result;
    var i :| 0 <= i < |todo| && todo[i] == t;
    assert Stepped(todo[i], Object(s, Managed(todo[i])), Object(s', Managed(todo[i])));
  }

  lemma NoServiceTask(cr: CR, c: Choice, k: Key)
    requires cr.spec.GatewaySpec? && GatewayServiceTask(cr).Crash? && k.kind == ServiceKind
    ensures DistinctTasks(Program(cr, c)) && Unmanaged(Program(cr, c), k)
  {
    hide Program, AccountObj, ConfigTask, GatewayDeploymentTask, GatewayServiceTask, RbacTasks;
    ProgramIsDistinct(cr, c);
    TaskKinds(cr, c);
    RbacKinds(cr);
    var todo := Program(cr, c);
    forall i | 0 <= i < |todo| && !todo[i].Crash? ensures Managed(todo[i]) != k {
      OneOf(cr, c, todo[i]);
    }
  }
}
