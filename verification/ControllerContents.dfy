/** What a completed reconcile of a controller has put into the cluster, in terms of the resource as the user wrote
    it. */
module ControllerContents {
  import opened Kubernetes
  import opened ApiStore
  import opened Tasks
  import opened Runs
  import opened Outcomes
  import opened ControllerPrograms
  import opened ControllerPods
  import opened Asked
  import CD = ControllerDeployment
  import CS = ControllerService
  import CC = ConsoleChildren
  import CT = ControllerTheorems
  import ConfigMaps

  // ---- What the user asks for ----

  function AskedLabels(f: ControllerFields): map<string, string> {
    if f.selectorLabels != map[] then f.selectorLabels else map["app" := f.controller.name]
  }

  function AskedFields(f: ControllerFields): ControllerFields {
    f.(selectorLabels := AskedLabels(f))
  }

  predicate AccountEnabled(cr: CR) {
    cr.account.None? || cr.account.value.enable
  }

  /** Where the Deployment is: under the name of the controller's container if something is there, or else under the
      resource's own name. */
  function DeploymentPlace(cr: CR, s: Store): Key
    requires cr.spec.ControllerSpec?
  {
    var probed := Key(DeploymentKind, cr.meta.ns, cr.spec.controller.controller.name);
    if probed in s.objects then probed else Key(DeploymentKind, cr.meta.ns, cr.meta.name)
  }

  // ---- The resource itself, and its children ----

  /** The resource as the user wrote it, with everything left open filled in. */
  function FilledIn(cr: CR): CR
    requires cr.spec.ControllerSpec?
  {
    cr.(finalizers := cr.finalizers + {"higresscontroller.higress.io/finalizer"},
        rbac := if cr.rbac.Some? then cr.rbac else Some(true),
        account := if cr.account.Some? then cr.account else Some(AccountParams(true, cr.meta.name, map[])),
        spec := ControllerSpec(AskedFields(cr.spec.controller)))
  }

  /** The resource after a reconcile that has made every child: it has its finalizer and its status, and nothing else is
      written into it, except that its defaults go with the finalizer. */
  function Deployed(cr: CR): CR
    requires cr.spec.ControllerSpec?
  {
    (if "higresscontroller.higress.io/finalizer" in cr.finalizers then cr else FilledIn(cr)).(deployed := true)
  }

  // ---- Reading off one task ----

  /** The user's resource. */
  ghost function Resource(s: Store, key: Key): (cr: CR)
    requires CT.Live(s, key)
    ensures cr.spec.ControllerSpec? && cr.meta.ns == key.ns && cr.meta.name == key.name
  {
    s.objects[key].obj.cr
  }

  /** In `s'` every child of the controller that `s` has is as its task wants it. */
  ghost predicate ChildrenMade(s: Store, key: Key, c: Choice, s': Store) {
    && CT.Live(s, key)
    && var todo := Resolved(CT.Instance(s, key), c, s);
       Outcomes.DistinctObjects(todo) && Outcomes.Completed(todo, s, s')
  }

  lemma TaskDone(s: Store, key: Key, c: Choice, s': Store, t: Task)
    requires ChildrenMade(s, key, c, s') && t in Resolved(CT.Instance(s, key), c, s)
    ensures Single(t) && Outcome(t, Object(s, Kept(t))).Some?
    ensures Object(s', Kept(t)) == Outcome(t, Object(s, Kept(t)))
  {
    hide Resolved, Outcome, Kept, Single;
    var todo := Resolved(CT.Instance(s, key), c, s);
    var i :| 0 <= i < |todo| && todo[i] == t;
  }

  lemma Members(cr: CR, c: Choice, s: Store)
    requires cr.spec.ControllerSpec?
    ensures var todo := Resolved(cr, c, s);
            && ConfigTask(cr) in todo && DeployTask(cr, c, s) in todo && IngressTask(cr) in todo
            && ControllerServiceTask(cr) in todo && (AccountOn(cr) ==> CreateOnly(AccountObj(cr)) in todo)
            && (forall t :: t in RbacTasks(cr) || t in DefinitionTasks(c) ==> t in todo)
  {
    hide AccountObj, RbacTasks, ConfigTask, DeployTask, IngressTask, ControllerServiceTask, DefinitionTasks;
  }

  // ---- The Deployment ----

  /** The orders in which the reconcile ranges over the user's variables. */
  ghost predicate OrdersFit(f: ControllerFields, c: Choice) {
    CD.ValidOrders(c.first, f) && CD.ValidOrders(c.second, f)
  }

  /** The Deployment is the one the user asks for, around what was there before. A new one belongs to the resource;
      its pilot has the controller's resources, as has every pilot that was there. */
  ghost predicate DeploymentAsAsked(cr: CR, before: Option<Obj>, after: Option<Obj>)
    requires cr.spec.ControllerSpec?
  {
    var f := AskedFields(cr.spec.controller);
    var spec := if before.Some? && before.value.Deployment? then before.value.deployment else EMPTY_SPEC;
    var cs := spec.template.containers;
    && after.Some? && after.value.Deployment?
    && FrameAsAsked(cr.meta, f, f.selectorLabels, AskedAccount(cr), spec, after.value.deployment)
    && (AskedControllerName(f) != AskedPilotName(f) ==>
          && ManagedAsAsked(cr.meta.ns, f, after.value.deployment.template.containers,
                            if before.None? then f.controller.resources else PilotResources(cs, f))
          && Extends(f, cs, after.value.deployment.template.containers))
    && (before.None? ==>
          && after.value.meta == Meta(cr.meta.name, cr.meta.ns, cr.meta.labels, map[])
          && after.value.owner == Some(Key(ControllerKind, cr.meta.ns, cr.meta.name)))
    && (before.Some? && before.value.Deployment? ==>
          after.value.meta == before.value.meta && after.value.owner == before.value.owner)
  }

  lemma StoredDeployment(s: Store, key: Key, c: Choice, s': Store)
    requires ChildrenMade(s, key, c, s') && OrdersFit(Resource(s, key).spec.controller, c)
    ensures var k := DeploymentPlace(Resource(s, key), s);
            DeploymentAsAsked(Resource(s, key), Object(s, k), Object(s', k))
  {
    hide Resolved, DeploymentAsAsked, DeployTask, Outcome, SetDefaults, OrdersFit, Kept, Single, CD.UpdateSpec;
    var cr, d := Resource(s, key), CT.Instance(s, key);
    DefaultsKeep(cr);
    Members(d, c, s);
    TaskDone(s, key, c, s', DeployTask(d, c, s));
    FoundKind(s, DeploymentPlace(cr, s));
    PlaceIsKept(cr, c, s);
    DeploymentMade(cr, c, s, Object(s, DeploymentPlace(cr, s)));
  }

  lemma PlaceIsKept(cr: CR, c: Choice, s: Store)
    requires cr.spec.ControllerSpec?
    ensures var t := DeployTask(SetDefaults(cr), c, s);
            && Single(t) && Kept(t) == DeploymentPlace(cr, s)
            && Probe(SetDefaults(cr)) == Key(DeploymentKind, cr.meta.ns, cr.spec.controller.controller.name)
  {
    hide DeployTask;
    DeployTaskKept(SetDefaults(cr), c, s);
  }

  lemma DeploymentMade(cr: CR, c: Choice, s: Store, before: Option<Obj>)
    requires cr.spec.ControllerSpec? && OrdersFit(cr.spec.controller, c)
    requires before.Some? ==> KindOf(before.value) == DeploymentKind
    requires before.None? ==> Probe(SetDefaults(cr)) !in s.objects
    ensures var t := DeployTask(SetDefaults(cr), c, s);
            Single(t) && (Outcome(t, before).Some? ==> DeploymentAsAsked(cr, before, Outcome(t, before)))
  {
    hide Outcome, DeployTask, SetDefaults, DeploymentAsAsked, CD.UpdateSpec, OrdersFit;
    var d := SetDefaults(cr);
    DefaultsKeep(cr);
    DeployTaskKept(d, c, s);
    if Outcome(DeployTask(d, c, s), before).Some? {
      if before.None? {
        NewDeployment(cr, c, s);
      } else {
        FoundDeployment(cr, c, s, before.value);
      }
    }
  }

  /** What a build reads of the resource. */
  lemma BuildOf(cr: CR)
    requires cr.spec.ControllerSpec?
    ensures var d, f := SetDefaults(cr), cr.spec.controller;
            && d.spec.ControllerSpec? && KeyOfCR(d) == Key(ControllerKind, cr.meta.ns, cr.meta.name)
            && d.meta == cr.meta
            && ControllerBuild(d) == CD.Build(cr.meta, AskedAccount(cr), AskedFields(f))
            && (forall c :: OrdersFit(f, c) ==> OrdersFit(AskedFields(f), c))
  {
  }

  /** A Deployment that is not there is built twice before it is created. */
  lemma NewShape(d: CR, c: Choice, s: Store)
    requires d.spec.ControllerSpec? && Probe(d) !in s.objects
    ensures var t, b := DeployTask(d, c, s), ControllerBuild(d);
            Single(t) && Outcome(t, None).Some? ==>
              && CD.UpdateSpec(EMPTY_SPEC, b, c.first).Some?
              && var once := CD.UpdateSpec(EMPTY_SPEC, b, c.first).value;
                 && CD.UpdateSpec(once, b, c.second).Some?
                 && Outcome(t, None) == Some(Deployment(Meta(d.meta.name, d.meta.ns, d.meta.labels, map[]),
                                                        Some(KeyOfCR(d)), CD.UpdateSpec(once, b, c.second).value))
  {
    hide CD.UpdateSpec;
  }

  /** One that is there is built from what is there, with the first or the second of the two orders. */
  lemma FoundShape(d: CR, c: Choice, s: Store, found: Obj) returns (o: CD.Orders)
    requires d.spec.ControllerSpec? && found.Deployment?
    ensures o == c.first || o == c.second
    ensures var t, b := DeployTask(d, c, s), ControllerBuild(d);
            Single(t) && Outcome(t, Some(found)).Some? ==>
              && CD.UpdateSpec(found.deployment, b, o).Some?
              && Outcome(t, Some(found))
                  == Some(Deployment(found.meta, found.owner, CD.UpdateSpec(found.deployment, b, o).value))
  {
    hide CD.UpdateSpec;
    var t, b := DeployTask(d, c, s), ControllerBuild(d);
    o := if t.DeployController? && CD.UpdateSpec(found.deployment, b, c.first) == Some(found.deployment) then c.first
         else c.second;
  }

  lemma NewDeployment(cr: CR, c: Choice, s: Store)
    requires cr.spec.ControllerSpec? && OrdersFit(cr.spec.controller, c)
    requires SetDefaults(cr).spec.ControllerSpec? && Probe(SetDefaults(cr)) !in s.objects
    ensures var t := DeployTask(SetDefaults(cr), c, s);
            Single(t) && Outcome(t, None).Some? ==> DeploymentAsAsked(cr, None, Outcome(t, None))
  {
    var d := SetDefaults(cr);
    var t := DeployTask(d, c, s);
    BuildOf(cr);
    NewShape(d, c, s);
    hide Outcome, DeployTask, FrameAsAsked, ManagedAsAsked, Extends, CD.UpdateSpec, AskedControllerName,
         AskedPilotName, SetDefaults, ControllerBuild, AskedFields, AskedAccount;
    if Single(t) && Outcome(t, None).Some? {
      BuiltTwice(ControllerBuild(d), c.first, c.second);
    }
  }

  lemma FoundDeployment(cr: CR, c: Choice, s: Store, found: Obj)
    requires cr.spec.ControllerSpec? && OrdersFit(cr.spec.controller, c) && found.Deployment?
    requires SetDefaults(cr).spec.ControllerSpec?
    ensures var t := DeployTask(SetDefaults(cr), c, s);
            Single(t) && Outcome(t, Some(found)).Some? ==> DeploymentAsAsked(cr, Some(found), Outcome(t, Some(found)))
  {
    var d := SetDefaults(cr);
    var t := DeployTask(d, c, s);
    BuildOf(cr);
    var o := FoundShape(d, c, s, found);
    hide Outcome, DeployTask, CD.UpdateSpec, SetDefaults, ControllerBuild, AskedFields, AskedAccount, Single,
         DeploymentAsAsked;
    if Single(t) && Outcome(t, Some(found)).Some? {
      FoundBuilt(cr, found, o);
    }
  }

  lemma FoundBuilt(cr: CR, found: Obj, o: CD.Orders)
    requires cr.spec.ControllerSpec? && found.Deployment? && CD.ValidOrders(o, cr.spec.controller)
    requires CD.UpdateSpec(found.deployment,
                           CD.Build(cr.meta, AskedAccount(cr), AskedFields(cr.spec.controller)), o).Some?
    ensures var b := CD.Build(cr.meta, AskedAccount(cr), AskedFields(cr.spec.controller));
            DeploymentAsAsked(cr, Some(found),
                Some(Deployment(found.meta, found.owner, CD.UpdateSpec(found.deployment, b, o).value)))
  {
    var b := CD.Build(cr.meta, AskedAccount(cr), AskedFields(cr.spec.controller));
    OrdersStay(cr.spec.controller, o);
    hide FrameAsAsked, ManagedAsAsked, Extends, CD.UpdateSpec, AskedControllerName, AskedPilotName, AskedFields,
         AskedAccount, PilotResources, CD.ValidOrders;
    UpdatedSpec(found.deployment, b, o);
  }

  lemma OrdersStay(f: ControllerFields, o: CD.Orders)
    requires CD.ValidOrders(o, f)
    ensures CD.ValidOrders(o, AskedFields(f))
  {
  }

  /** Two builds from nothing, seen as one. */
  lemma BuiltTwice(b: CD.Build, p: CD.Orders, q: CD.Orders)
    requires CD.UpdateSpec(EMPTY_SPEC, b, p).Some? && CD.ValidOrders(p, b.fields) && CD.ValidOrders(q, b.fields)
    requires CD.UpdateSpec(CD.UpdateSpec(EMPTY_SPEC, b, p).value, b, q).Some?
    ensures var r, f := CD.UpdateSpec(CD.UpdateSpec(EMPTY_SPEC, b, p).value, b, q).value, b.fields;
            && FrameAsAsked(b.meta, f, f.selectorLabels, b.account, EMPTY_SPEC, r)
            && (AskedControllerName(f) != AskedPilotName(f) ==>
                  && ManagedAsAsked(b.meta.ns, f, r.template.containers, f.controller.resources)
                  && Extends(f, [], r.template.containers))
  {
    hide CD.UpdateSpec, VolumesAsAsked, RunsController, RunsPilot;
    var once := CD.UpdateSpec(EMPTY_SPEC, b, p).value;
    UpdatedSpec(EMPTY_SPEC, b, p);
    UpdatedSpec(once, b, q);
  }

  // ---- The Service ----

  /** A NodePort on the user's ports, or else on those that are there, and with Istio off on the default ports whose
      names are free. */
  ghost predicate ServiceAsAsked(cr: CR, before: Option<Obj>, after: Option<Obj>)
    requires cr.spec.ControllerSpec?
  {
    var f := cr.spec.controller;
    var was := if before.Some? && before.value.Service? then before.value.service else EMPTY_SERVICE;
    var given := if f.service.Some? then f.service.value.ports else was.ports;
    var defaults := CS.Gap(given, "grpc-xds", 15010) + CS.Gap(given, "http-service", 8888)
                    + CS.Gap(given, "https-dns", 15012) + CS.Gap(given, "https-webhook", 443)
                    + CS.Gap(given, "https-monitoring", 15014);
    && after.Some? && after.value.Service?
    && after.value.service.kind == "NodePort" && after.value.service.selector == AskedLabels(f)
    && after.value.service.ports == given + (if f.istio then [] else defaults)
    && after.value.service.loadBalancerIP == was.loadBalancerIP
    && after.value.service.sourceRanges == was.sourceRanges
    && after.value.service.trafficPolicy == was.trafficPolicy
    && (before.None? ==>
          && after.value.meta == Meta(cr.meta.name, cr.meta.ns, cr.meta.labels, map[])
          && after.value.owner == Some(Key(ControllerKind, cr.meta.ns, cr.meta.name)))
    && (before.Some? && before.value.Service? ==>
          after.value.meta == before.value.meta && after.value.owner == before.value.owner)
  }

  lemma StoredService(s: Store, key: Key, c: Choice, s': Store)
    requires ChildrenMade(s, key, c, s')
    ensures var k := Key(ServiceKind, key.ns, key.name);
            ServiceAsAsked(Resource(s, key), Object(s, k), Object(s', k))
  {
    hide Resolved, ServiceAsAsked, Outcome, SetDefaults, ControllerServiceTask, ServiceTask, Kept, Single;
    var cr, d := Resource(s, key), CT.Instance(s, key);
    DefaultsKeep(cr);
    Members(d, c, s);
    TaskDone(s, key, c, s', ControllerServiceTask(d));
    FoundKind(s, Key(ServiceKind, key.ns, key.name));
    ServiceTaskOf(cr);
    ServiceMade(cr, Object(s, Key(ServiceKind, key.ns, key.name)));
  }

  /** The task, written out. */
  function ServiceTask(cr: CR): Task
    requires cr.spec.ControllerSpec?
  {
    var f := AskedFields(cr.spec.controller);
    Ensure(Service(Meta(cr.meta.name, cr.meta.ns, cr.meta.labels, map[]),
                   Some(Key(ControllerKind, cr.meta.ns, cr.meta.name)), CS.Update(EMPTY_SERVICE, f)),
           SetControllerService(f))
  }

  lemma ServiceTaskOf(cr: CR)
    requires cr.spec.ControllerSpec?
    ensures var d := SetDefaults(cr); d.spec.ControllerSpec? && ControllerServiceTask(d) == ServiceTask(cr)
  {
    hide CS.Update;
  }

  lemma ServiceMade(cr: CR, before: Option<Obj>)
    requires cr.spec.ControllerSpec? && (before.Some? ==> KindOf(before.value) == ServiceKind)
    ensures var t := ServiceTask(cr);
            && Single(t) && Kept(t) == Key(ServiceKind, cr.meta.ns, cr.meta.name)
            && ServiceAsAsked(cr, before, Outcome(t, before))
  {
    hide CS.Update, CS.Gap, AskedLabels, CD.UpdateSpec;
    var f := AskedFields(cr.spec.controller);
    if before.Some? {
      CS.UpdatedService(before.value.service, f);
    } else {
      CS.UpdatedService(EMPTY_SERVICE, f);
      CS.UpdateIsIdempotent(EMPTY_SERVICE, f);
    }
  }

  // ---- The config map ----

  /** The mesh configuration as the user gives it, completed, and the Higress configuration. */
  ghost predicate ConfigAsAsked(cr: CR, before: Option<Obj>, after: Option<Obj>)
    requires cr.spec.ControllerSpec?
  {
    var f := cr.spec.controller;
    && after.Some? && after.value.ConfigMap?
    && ConfigMaps.AsAsked(ConfigMaps.Settings(cr.meta.name, cr.meta.ns, f.istio, f.istioNamespace, true, f.networks,
                                              Some(f.higress)), f.mesh, after.value.data)
    && (before.None? ==> after.value.meta == Meta("cm-" + cr.meta.name, cr.meta.ns, cr.meta.labels, map[]))
    && (before.Some? && before.value.ConfigMap? ==> after.value.meta == before.value.meta)
  }

  lemma StoredConfig(s: Store, key: Key, c: Choice, s': Store)
    requires ChildrenMade(s, key, c, s')
    ensures var k := Key(ConfigMapKind, key.ns, "cm-" + key.name);
            ConfigAsAsked(Resource(s, key), Object(s, k), Object(s', k))
  {
    hide Resolved, ConfigAsAsked, Outcome, SetDefaults, ConfigTask;
    var cr, d := Resource(s, key), CT.Instance(s, key);
    DefaultsKeep(cr);
    Members(d, c, s);
    TaskDone(s, key, c, s', ConfigTask(d));
    FoundKind(s, Key(ConfigMapKind, key.ns, "cm-" + key.name));
    ConfigMade(cr, Object(s, Key(ConfigMapKind, key.ns, "cm-" + key.name)));
  }

  lemma ConfigMade(cr: CR, before: Option<Obj>)
    requires cr.spec.ControllerSpec? && (before.Some? ==> KindOf(before.value) == ConfigMapKind)
    ensures var t := ConfigTask(SetDefaults(cr));
            && Single(t) && Kept(t) == Key(ConfigMapKind, cr.meta.ns, "cm-" + cr.meta.name)
            && ConfigAsAsked(cr, before, Outcome(t, before))
  {
    hide ConfigMaps.Data, ConfigMaps.SettledData, ConfigMaps.AsAsked;
    ConfigMaps.StoredMesh(Settings(SetDefaults(cr)), MeshOf(SetDefaults(cr)));
  }

  // ---- The ingress class and the definitions ----

  /** An ingress class that is there is left alone; a new one names the operator's controller. */
  lemma StoredClass(s: Store, key: Key, c: Choice, s': Store)
    requires ChildrenMade(s, key, c, s')
    ensures var k := Key(IngressClassKind, "", Resource(s, key).spec.controller.ingressClass);
            ClassAsAsked(Resource(s, key), Object(s, k), Object(s', k))
  {
    hide Resolved, SetDefaults, IngressTask, Outcome, Kept, Single, ClassAsAsked;
    var cr, d := Resource(s, key), CT.Instance(s, key);
    DefaultsKeep(cr);
    Members(d, c, s);
    TaskDone(s, key, c, s', IngressTask(d));
    ClassMade(cr, Object(s, Key(IngressClassKind, "", cr.spec.controller.ingressClass)));
  }

  ghost predicate ClassAsAsked(cr: CR, before: Option<Obj>, after: Option<Obj>)
    requires cr.spec.ControllerSpec?
  {
    var name := cr.spec.controller.ingressClass;
    && (before.Some? ==> after == before)
    && (before.None? ==>
          after == Some(IngressClass(Meta(name, "", cr.meta.labels, map[]),
                                     Some(Key(ControllerKind, cr.meta.ns, cr.meta.name)), "icks.io/" + name)))
  }

  lemma ClassMade(cr: CR, before: Option<Obj>)
    requires cr.spec.ControllerSpec?
    ensures var d := SetDefaults(cr);
            && d.spec.ControllerSpec? && Single(IngressTask(d))
            && Kept(IngressTask(d)) == Key(IngressClassKind, "", cr.spec.controller.ingressClass)
            && ClassAsAsked(cr, before, Outcome(IngressTask(d), before))
  {
    IngressMade(cr);
    hide SetDefaults, IngressTask, CD.UpdateSpec;
  }

  /** A definition has the manifest's specification, whether it was there or not. */
  lemma StoredDefinition(s: Store, key: Key, c: Choice, s': Store, m: Manifest)
    requires ChildrenMade(s, key, c, s') && m in c.manifests
    ensures var k := Key(DefinitionKind, "", m.name); DefinitionAsAsked(m, Object(s, k), Object(s', k))
  {
    hide Resolved, SetDefaults, DefinitionAsAsked, Outcome, Kept, Single, DefinitionTask;
    DefaultsKeep(Resource(s, key));
    Members(CT.Instance(s, key), c, s);
    var i :| 0 <= i < |c.manifests| && c.manifests[i] == m;
    assert DefinitionTasks(c)[i] == DefinitionTask(m) && DefinitionTasks(c)[i] in DefinitionTasks(c);
    TaskDone(s, key, c, s', DefinitionTask(m));
    FoundKind(s, Key(DefinitionKind, "", m.name));
    DefinitionMade(m, Object(s, Key(DefinitionKind, "", m.name)));
  }

  lemma IngressMade(cr: CR)
    requires cr.spec.ControllerSpec?
    ensures var d, name := SetDefaults(cr), cr.spec.controller.ingressClass;
            d.spec.ControllerSpec? && IngressTask(d) == EnsureIfMissing(
              IngressClass(Meta(name, cr.meta.ns, cr.meta.labels, map[]),
                           Some(Key(ControllerKind, cr.meta.ns, cr.meta.name)), "icks.io/" + name),
              SetIngress("icks.io/" + name))
  {
  }

  ghost predicate DefinitionAsAsked(m: Manifest, before: Option<Obj>, after: Option<Obj>) {
    && after.Some? && after.value.Definition? && after.value.spec == m.spec
    && (before.Some? && before.value.Definition? ==> after.value.meta == before.value.meta)
    && (before.None? ==> after.value.meta == Meta(m.name, "", None, map[]))
  }

  lemma DefinitionMade(m: Manifest, before: Option<Obj>)
    requires before.Some? ==> KindOf(before.value) == DefinitionKind
    ensures var t := DefinitionTask(m);
            && Single(t) && Kept(t) == Key(DefinitionKind, "", m.name)
            && DefinitionAsAsked(m, before, Outcome(t, before))
  {
  }

  // ---- The account and what it may do ----

  /** With the account enabled it is there; a new one bears the annotations of the account section. */
  lemma StoredAccount(s: Store, key: Key, c: Choice, s': Store)
    requires ChildrenMade(s, key, c, s') && AccountEnabled(Resource(s, key))
    ensures var cr, k := Resource(s, key), Key(ServiceAccountKind, key.ns, AskedAccount(Resource(s, key)));
            && (Object(s, k).Some? ==> Object(s', k) == Object(s, k))
            && (Object(s, k).None? ==>
                  Object(s', k) == Some(ServiceAccount(
                      Meta(AskedAccount(cr), key.ns, cr.meta.labels,
                           if cr.account.Some? then cr.account.value.annotations else map[]), Some(key))))
  {
    hide Resolved, SetDefaults;
    var cr, d := Resource(s, key), CT.Instance(s, key);
    DefaultsKeep(cr);
    Members(d, c, s);
    AccountMade(cr);
    TaskDone(s, key, c, s', CreateOnly(AccountObj(d)));
    assert KeyOf(s.objects[key].obj) == key;
  }

  lemma AccountMade(cr: CR)
    requires cr.spec.ControllerSpec?
    ensures AccountOn(SetDefaults(cr)) <==> AccountEnabled(cr)
    ensures AccountObj(SetDefaults(cr)) == ServiceAccount(
                Meta(AskedAccount(cr), cr.meta.ns, cr.meta.labels,
                     if cr.account.Some? then cr.account.value.annotations else map[]),
                Some(Key(ControllerKind, cr.meta.ns, cr.meta.name)))
  {
  }

  /** Both roles are there with the controller's rules and both bindings grant them to the account. */
  ghost predicate RbacAsAsked(ns: string, account: string, clusterRole: string, s: Store, s': Store) {
    var group, subject := "rbac.authorization.k8s.io", Subject("ServiceAccount", "", account, ns);
    var role, binding := Key(RoleKind, ns, "higress-controller"), Key(RoleBindingKind, ns, account);
    var shared := Key(ClusterRoleBindingKind, "", ns + "-" + account);
    && HasRules(Object(s', Key(ClusterRoleKind, "", clusterRole)), Literal("controller rules"))
    && Binds(RoleRef("ClusterRole", clusterRole, group), subject, Object(s, shared), Object(s', shared))
    && HasRules(Object(s', role), Literal("controller rules"))
    && Binds(RoleRef("Role", "higress-controller", group), subject, Object(s, binding), Object(s', binding))
  }

  /** With RBAC and the account enabled the account is granted its two roles. */
  lemma StoredRbac(s: Store, key: Key, c: Choice, s': Store)
    requires ChildrenMade(s, key, c, s') && AskedRbac(Resource(s, key))
    ensures var cr := Resource(s, key);
            RbacAsAsked(key.ns, AskedAccount(cr), key.ns + "-" + cr.spec.controller.controller.name, s, s')
  {
    hide Resolved, SetDefaults, RbacTasks, Outcome, TaskCompleted, Kept, Single, Roles, RbacAsAsked, AskedAccount;
    var cr, d := Resource(s, key), CT.Instance(s, key);
    DefaultsKeep(cr);
    Members(d, c, s);
    forall t | t in RbacTasks(d) ensures TaskCompleted(t, s, s') {
      TaskDone(s, key, c, s', t);
      CompletedBy(t, s, s');
    }
    AskedRoles(cr);
    RolesMade(cr.meta.ns, AskedAccount(cr), cr.meta.ns + "-" + cr.spec.controller.controller.name, s, s');
  }

  ghost predicate TaskCompleted(t: Task, s: Store, s': Store) {
    Single(t) && Outcome(t, Object(s, Kept(t))).Some? && Object(s', Kept(t)) == Outcome(t, Object(s, Kept(t)))
  }

  lemma CompletedBy(t: Task, s: Store, s': Store)
    requires Single(t) && Outcome(t, Object(s, Kept(t))).Some? && Object(s', Kept(t)) == Outcome(t, Object(s, Kept(t)))
    ensures TaskCompleted(t, s, s')
  {
  }

  lemma RulesMade(t: Task, k: Key, rules: Literal, s: Store, s': Store)
    requires Sound(s) && t.Ensure? && (t.init.ClusterRole? || t.init.Role?) && t.mutation == SetRules(rules)
    requires KeyOf(t.init) == k == Scoped(k) && TaskCompleted(t, s, s')
    ensures HasRules(Object(s', k), rules)
  {
    FoundKind(s, k);
  }

  lemma BindingMade(t: Task, k: Key, ref: RoleRef, subject: Subject, s: Store, s': Store)
    requires Sound(s) && t.Ensure? && (t.init.ClusterRoleBinding? || t.init.RoleBinding?)
    requires t.init.subjects == [subject] && t.mutation == Bind(ref, subject)
    requires t.init.meta.labels.None? && t.init.meta.annotations == map[]
    requires KeyOf(t.init) == k == Scoped(k) && TaskCompleted(t, s, s')
    ensures Binds(ref, subject, Object(s, k), Object(s', k))
  {
    FoundKind(s, k);
  }

  /** The four tasks, written out. */
  function Roles(ns: string, account: string, clusterRole: string): seq<Task> {
    var group, subject := "rbac.authorization.k8s.io", Subject("ServiceAccount", "", account, ns);
    var rules, shared := Literal("controller rules"), RoleRef("ClusterRole", clusterRole, group);
    var own := RoleRef("Role", "higress-controller", group);
    [ Ensure(ClusterRole(Meta(clusterRole, "", None, map[]), rules), SetRules(rules)),
      Ensure(ClusterRoleBinding(Meta(ns + "-" + account, "", None, map[]), shared, [subject]), Bind(shared, subject)),
      Ensure(Role(Meta("higress-controller", ns, None, map[]), rules), SetRules(rules)),
      Ensure(RoleBinding(Meta(account, ns, None, map[]), own, [subject]), Bind(own, subject)) ]
  }

  lemma AskedRoles(cr: CR)
    requires cr.spec.ControllerSpec? && AskedRbac(cr)
    ensures RbacTasks(SetDefaults(cr))
         == Roles(cr.meta.ns, AskedAccount(cr), cr.meta.ns + "-" + cr.spec.controller.controller.name)
  {
  }

  lemma RolesMade(ns: string, account: string, clusterRole: string, s: Store, s': Store)
    requires Sound(s) && forall t :: t in Roles(ns, account, clusterRole) ==> TaskCompleted(t, s, s')
    ensures RbacAsAsked(ns, account, clusterRole, s, s')
  {
    hide TaskCompleted, Binds, HasRules, Object;
    var r, group := Roles(ns, account, clusterRole), "rbac.authorization.k8s.io";
    var subject, rules := Subject("ServiceAccount", "", account, ns), Literal("controller rules");
    assert r[0] in r && r[1] in r && r[2] in r && r[3] in r;
    PairMade(r[0], r[1], Key(ClusterRoleKind, "", clusterRole), Key(ClusterRoleBindingKind, "", ns + "-" + account),
        rules, RoleRef("ClusterRole", clusterRole, group), subject, s, s');
    PairMade(r[2], r[3], Key(RoleKind, ns, "higress-controller"), Key(RoleBindingKind, ns, account), rules,
        RoleRef("Role", "higress-controller", group), subject, s, s');
  }

  lemma PairMade(t: Task, u: Task, role: Key, binding: Key, rules: Literal, ref: RoleRef, subject: Subject, s: Store,
      s': Store)
    requires Sound(s) && t.Ensure? && (t.init.ClusterRole? || t.init.Role?) && t.mutation == SetRules(rules)
    requires KeyOf(t.init) == role == Scoped(role) && TaskCompleted(t, s, s')
    requires u.Ensure? && (u.init.ClusterRoleBinding? || u.init.RoleBinding?) && u.mutation == Bind(ref, subject)
    requires u.init.subjects == [subject] && KeyOf(u.init) == binding == Scoped(binding) && TaskCompleted(u, s, s')
    requires u.init.meta.labels.None? && u.init.meta.annotations == map[]
    ensures HasRules(Object(s', role), rules) && Binds(ref, subject, Object(s, binding), Object(s', binding))
  {
    hide HasRules, Binds, TaskCompleted, KeyOf, Scoped;
    RulesMade(t, role, rules, s, s');
    BindingMade(u, binding, ref, subject, s, s');
  }

  // ---- When the children are made ----

  /** A reconcile that succeeds has made every child; with a console it may have failed and yet have made them. */
  lemma ReconcileMakesChildren(s: Store, key: Key, c: Choice)
    requires CT.Live(s, key) && NamespaceActive(s, key.ns) && DistinctManifests(c)
        && ConsoleApart(CT.Instance(s, key))
    ensures var (w', ok) := Reconcile(World(s, []), key, c);
            && (ok ==> Deployable(Resource(s, key), c, s))
            && (Deployable(Resource(s, key), c, s) ==>
                  ChildrenMade(s, key, c, w'.store)
                  && (ok || Resource(s, key).spec.controller.console.name != ""))
  {
    hide Resolved, Reconcile, Deployable, ConsoleApart;
    CT.CompletedReconcile(s, key, c);
    ChildrenCanBeMadeIff(s, key, c);
  }

  /** Whatever the console is called, every child is made when the status is written, if each can be made; what follows
      is the console's part alone. */
  lemma MarkingMakesChildren(s: Store, key: Key, c: Choice)
    requires CT.Live(s, key) && NamespaceActive(s, key.ns) && DistinctManifests(c)
    ensures var todo, s1 := Resolved(CT.Instance(s, key), c, s), CT.Persisted(s, key);
            && Outcomes.DistinctObjects(todo) && CT.Live(s1, key)
            && var marked := CT.StatusStore(s1, key, CT.Instance(s1, key), c);
               Outcomes.Completable(todo, s) ==>
                 && ChildrenMade(s, key, c, marked)
                 && CT.Live(marked, key) && marked.objects[key].obj == CustomResource(Deployed(Resource(s, key)))
                 && (forall k :: k != key && Untouched(todo, k) ==> Read(marked, k) == Read(s, k))
                 && Reconcile(World(s, []), key, c)
                     == RunTasks(World(marked, []), ConsoleProgram(CT.Instance(s1, key), c))
  {
    hide RunTasks, Outcome, Kept, Single, SetDefaults, CT.Work, CT.Persisted, Reconcile, Stage, Resolved,
         CT.StatusStore, ConsoleProgram;
    var cr, s1 := CT.Instance(s, key), CT.Persisted(s, key);
    CT.ReconcileIsWork(s, key, c);
    CT.PersistedIsLive(s, key);
    CT.CRStage();
    assert Read(s1, Probe(cr)) == Read(s, Probe(cr));
    SameResolved(cr, CT.Instance(s1, key), c, s, s1);
    ResolvedIsDistinct(cr, c, s);
    CT.KeptElsewhere(Resolved(cr, c, s), s, s1, key);
    CT.WorkUntilMarked(s1, key, c);
    var marked := CT.StatusStore(s1, key, CT.Instance(s1, key), c);
    DefaultsAre(Resource(s, key));
  }

  lemma DefaultsAre(cr: CR)
    requires cr.spec.ControllerSpec?
    ensures WithFinalizer(SetDefaults(cr)) == FilledIn(cr)
    ensures Finalizer(SetDefaults(cr)) == "higresscontroller.higress.io/finalizer"
            && SetDefaults(cr).finalizers == cr.finalizers
  {
  }

  // ---- When they can be made ----

  /** What the Deployment asks of the resource and of what is there: resources for the controller; resources for the
      pilot, unless the lookup finds a Deployment that has one already; and that a Deployment found belongs to nobody
      or to the resource, unless it is as wanted. */
  ghost predicate Deployable(cr: CR, c: Choice, s: Store)
    requires cr.spec.ControllerSpec?
  {
    var f := cr.spec.controller;
    var found := Object(s, Key(DeploymentKind, cr.meta.ns, f.controller.name));
    var there := found.Some? && found.value.Deployment?;
    && f.controller.resources.Some?
    && (f.pilot.resources.Some?
        || (there && AskedControllerName(f) != AskedPilotName(f)
            && Bears(found.value.deployment.template.containers, AskedPilotName(f))))
    && (there && found.value.owner.Some? && found.value.owner.value != Key(ControllerKind, cr.meta.ns, cr.meta.name) ==>
          CD.UpdateSpec(found.value.deployment, CD.Build(cr.meta, AskedAccount(cr), AskedFields(f)), c.first)
          == Some(found.value.deployment))
  }

  /** Every child can be made exactly when the Deployment can. */
  lemma ChildrenCanBeMadeIff(s: Store, key: Key, c: Choice)
    requires CT.Live(s, key) && DistinctManifests(c)
    ensures var todo := Resolved(CT.Instance(s, key), c, s);
            && Outcomes.DistinctObjects(todo)
            && (Outcomes.Completable(todo, s) <==> Deployable(Resource(s, key), c, s))
  {
    hide Resolved, SetDefaults, Outcome, Kept, Single, DeployTask, Deployable;
    var cr, d := Resource(s, key), CT.Instance(s, key);
    var todo := Resolved(d, c, s);
    DefaultsKeep(cr);
    ResolvedIsDistinct(d, c, s);
    Members(d, c, s);
    DeployableIff(cr, c, s);
    forall i | 0 <= i < |todo| && todo[i] != DeployTask(d, c, s)
      ensures Outcome(todo[i], Object(s, Kept(todo[i]))).Some?
    {
      OneOf(d, c, s, todo[i]);
      OthersSucceed(d, c, s, todo[i]);
    }
    var i :| 0 <= i < |todo| && todo[i] == DeployTask(d, c, s);
  }

  lemma OneOf(cr: CR, c: Choice, s: Store, t: Task)
    requires cr.spec.ControllerSpec? && t in Resolved(cr, c, s)
    ensures || t == CreateOnly(AccountObj(cr)) || t in RbacTasks(cr) || t in DefinitionTasks(c)
            || t == ConfigTask(cr) || t == DeployTask(cr, c, s) || t == IngressTask(cr)
            || t == ControllerServiceTask(cr)
  {
    hide AccountObj, RbacTasks, ConfigTask, DeployTask, IngressTask, ControllerServiceTask, DefinitionTasks;
  }

  /** Every task but the Deployment's can complete. */
  lemma OthersSucceed(cr: CR, c: Choice, s: Store, t: Task)
    requires cr.spec.ControllerSpec? && Sound(s)
    requires t == CreateOnly(AccountObj(cr)) || t in RbacTasks(cr) || t in DefinitionTasks(c) || t == ConfigTask(cr)
             || t == IngressTask(cr) || t == ControllerServiceTask(cr)
    ensures Single(t) && Outcome(t, Object(s, Kept(t))).Some?
  {
    if t in DefinitionTasks(c) {
      var i :| 0 <= i < |c.manifests| && DefinitionTasks(c)[i] == t;
      FoundKind(s, Key(DefinitionKind, "", c.manifests[i].name));
      DefinitionMade(c.manifests[i], Object(s, Key(DefinitionKind, "", c.manifests[i].name)));
    } else if t in RbacTasks(cr) {
      RbacSucceeds(cr, s, t);
    } else if t == ConfigTask(cr) {
      EnsureSucceeds(t, s);
    } else if t == ControllerServiceTask(cr) {
      EnsureSucceeds(t, s);
    }
  }

  /** A task that ensures an object of the kind its mutation is for. */
  lemma EnsureSucceeds(t: Task, s: Store)
    requires Sound(s) && t.Ensure? && Scoped(KeyOf(t.init)) == KeyOf(t.init) && !t.init.CustomResource?
    requires || (t.mutation.SetRules? && KindOf(t.init) in {ClusterRoleKind, RoleKind})
             || (t.mutation.Bind? && KindOf(t.init) in {ClusterRoleBindingKind, RoleBindingKind})
             || (t.mutation.SetData? && KindOf(t.init) == ConfigMapKind)
             || (t.mutation.SetControllerService? && KindOf(t.init) == ServiceKind)
    ensures Single(t) && Outcome(t, Object(s, Kept(t))).Some?
  {
    FoundKind(s, Kept(t));
  }

  lemma RbacSucceeds(cr: CR, s: Store, t: Task)
    requires Sound(s) && t in RbacTasks(cr)
    ensures Single(t) && Outcome(t, Object(s, Kept(t))).Some?
  {
    hide Outcome;
    EnsureSucceeds(t, s);
  }

  lemma DeployableIff(cr: CR, c: Choice, s: Store)
    requires cr.spec.ControllerSpec? && Sound(s)
    ensures var t := DeployTask(SetDefaults(cr), c, s);
            Single(t) && (Outcome(t, Object(s, Kept(t))).Some? <==> Deployable(cr, c, s))
  {
    BuildOf(cr);
    var d := SetDefaults(cr);
    DeployTaskKept(d, c, s);
    FoundKind(s, Probe(d));
    FoundKind(s, Named(d));
    hide SetDefaults, DeployTask, Outcome, Deployable, CD.UpdateSpec;
    if Probe(d) in s.objects {
      ProbedIff(cr, d, c, s);
    } else {
      UnprobedIff(cr, d, c, s);
    }
  }

  /** When a build does not dereference a nil pointer. */
  lemma BuildableIff(spec: DeploymentSpec, cr: CR, b: CD.Build, o: CD.Orders)
    requires cr.spec.ControllerSpec? && b.fields == AskedFields(cr.spec.controller)
    ensures var f := cr.spec.controller;
            CD.UpdateSpec(spec, b, o).Some? <==>
              && f.controller.resources.Some?
              && (f.pilot.resources.Some?
                  || (AskedControllerName(f) != AskedPilotName(f)
                      && Bears(spec.template.containers, AskedPilotName(f))))
  {
    CD.PanicsForAnyOrder(spec, b, o, o);
    hide CD.UpdateSpec;
  }

  lemma ProbedIff(cr: CR, d: CR, c: Choice, s: Store)
    requires cr.spec.ControllerSpec? && d.spec.ControllerSpec? && Probe(d) in s.objects
    requires s.objects[Probe(d)].obj.Deployment? && KeyOf(s.objects[Probe(d)].obj) == Probe(d)
    requires Probe(d) == Key(DeploymentKind, cr.meta.ns, cr.spec.controller.controller.name)
    requires ControllerBuild(d) == CD.Build(cr.meta, AskedAccount(cr), AskedFields(cr.spec.controller))
    requires KeyOfCR(d) == Key(ControllerKind, cr.meta.ns, cr.meta.name)
    ensures var t := DeployTask(d, c, s);
            Single(t) && (Outcome(t, Object(s, Kept(t))).Some? <==> Deployable(cr, c, s))
  {
    var found, b := s.objects[Probe(d)].obj, ControllerBuild(d);
    ProbedShape(d, c, s, found);
    hide DeployTask, Outcome, Kept, Single, CD.UpdateSpec, Bears, AskedControllerName, AskedPilotName, AskedFields,
         ControllerBuild;
    BuildableIff(found.deployment, cr, b, c.first);
    BuildableIff(found.deployment, cr, b, c.second);
  }

  lemma ProbedShape(d: CR, c: Choice, s: Store, found: Obj)
    requires d.spec.ControllerSpec? && found.Deployment? && KeyOf(found) == Probe(d)
    requires Probe(d) in s.objects && s.objects[Probe(d)].obj == found
    ensures var t, b := DeployTask(d, c, s), ControllerBuild(d);
            && Single(t) && Kept(t) == Probe(d)
            && (Outcome(t, Some(found)).Some? <==>
                  && CD.UpdateSpec(found.deployment, b, c.first).Some?
                  && (CD.UpdateSpec(found.deployment, b, c.first) == Some(found.deployment)
                      || ((found.owner.Some? ==> found.owner.value == KeyOfCR(d))
                          && CD.UpdateSpec(found.deployment, b, c.second).Some?)))
  {
    hide CD.UpdateSpec;
  }

  lemma UnprobedIff(cr: CR, d: CR, c: Choice, s: Store)
    requires cr.spec.ControllerSpec? && d.spec.ControllerSpec? && Probe(d) !in s.objects && Sound(s)
    requires Probe(d) == Key(DeploymentKind, cr.meta.ns, cr.spec.controller.controller.name)
    requires ControllerBuild(d) == CD.Build(cr.meta, AskedAccount(cr), AskedFields(cr.spec.controller))
    ensures var t := DeployTask(d, c, s);
            Single(t) && (Outcome(t, Object(s, Kept(t))).Some? <==> Deployable(cr, c, s))
  {
    var b := ControllerBuild(d);
    UnprobedShape(d, c, s);
    hide DeployTask, Outcome, Kept, Single, CD.UpdateSpec, AskedControllerName, AskedPilotName, AskedFields,
         ControllerBuild;
    BuildableIff(EMPTY_SPEC, cr, b, c.first);
    if CD.UpdateSpec(EMPTY_SPEC, b, c.first).Some? {
      BuildableIff(CD.UpdateSpec(EMPTY_SPEC, b, c.first).value, cr, b, c.second);
      if Named(d) in s.objects {
        BuildableIff(s.objects[Named(d)].obj.deployment, cr, b, c.second);
      }
    }
  }

  lemma UnprobedShape(d: CR, c: Choice, s: Store)
    requires d.spec.ControllerSpec? && Probe(d) !in s.objects && Sound(s)
    ensures Named(d) in s.objects ==> s.objects[Named(d)].obj.Deployment?
    ensures var t, b := DeployTask(d, c, s), ControllerBuild(d);
            var once := CD.UpdateSpec(EMPTY_SPEC, b, c.first);
            && Single(t)
            && (Outcome(t, Object(s, Kept(t))).Some? <==>
                  && once.Some?
                  && CD.UpdateSpec(if Named(d) in s.objects then s.objects[Named(d)].obj.deployment else once.value,
                                   b, c.second).Some?)
  {
    hide CD.UpdateSpec, ControllerBuild, Outcome, DeployTask, Kept, Single;
    FoundKind(s, Named(d));
    DeployTaskKept(d, c, s);
    if Named(d) in s.objects {
      UnprobedFound(d, c, s, s.objects[Named(d)].obj);
    } else {
      UnprobedNew(d, c, s);
    }
  }

  lemma UnprobedFound(d: CR, c: Choice, s: Store, found: Obj)
    requires d.spec.ControllerSpec? && Probe(d) !in s.objects && Probe(d) != Named(d) && found.Deployment?
    ensures var t, b := DeployTask(d, c, s), ControllerBuild(d);
            && Single(t)
            && (Outcome(t, Some(found)).Some? <==>
                  && CD.UpdateSpec(EMPTY_SPEC, b, c.first).Some?
                  && CD.UpdateSpec(found.deployment, b, c.second).Some?)
  {
    hide CD.UpdateSpec;
  }

  lemma UnprobedNew(d: CR, c: Choice, s: Store)
    requires d.spec.ControllerSpec? && Probe(d) !in s.objects
    ensures var t, b := DeployTask(d, c, s), ControllerBuild(d);
            var once := CD.UpdateSpec(EMPTY_SPEC, b, c.first);
            Single(t) && (Outcome(t, None).Some? <==> once.Some? && CD.UpdateSpec(once.value, b, c.second).Some?)
  {
    hide CD.UpdateSpec;
  }

  // ---- The resource ----

  lemma StoredResource(s: Store, key: Key, c: Choice)
    requires CT.Live(s, key) && NamespaceActive(s, key.ns) && DistinctManifests(c) && Deployable(Resource(s, key), c, s)
    ensures Object(Reconcile(World(s, []), key, c).0.store, key) == Some(CustomResource(Deployed(Resource(s, key))))
  {
    hide RunTasks, Outcome, Kept, Single, CT.Work, CT.Persisted, Reconcile, Stage, Resolved, CT.StatusStore,
         ConsoleProgram, Deployable;
    var s1 := CT.Persisted(s, key);
    ChildrenCanBeMadeIff(s, key, c);
    MarkingMakesChildren(s, key, c);
    var marked := CT.StatusStore(s1, key, CT.Instance(s1, key), c);
    CT.CRStage();
    ConsoleLeaves(CT.Instance(s1, key), c, key);
    SoloFrame(World(marked, []), ConsoleProgram(CT.Instance(s1, key), c), key);
    assert Read(Reconcile(World(s, []), key, c).0.store, key) == Read(marked, key);
  }

  // ---- How the children fit together ----

  /** The Service selects the pods; the pods run as the account that is created and granted the roles; and they read the
      stored config map with Istio off. */
  lemma ChildrenFit(s: Store, key: Key, c: Choice, s': Store)
    requires ChildrenMade(s, key, c, s') && OrdersFit(Resource(s, key).spec.controller, c)
    ensures var cr, d := Resource(s, key), Object(s', DeploymentPlace(Resource(s, key), s));
            var v := Object(s', Key(ServiceKind, key.ns, key.name));
            && d.Some? && d.value.Deployment? && v.Some? && v.value.Service?
            && var pods := d.value.deployment.template;
               && v.value.service.selector == pods.labels == d.value.deployment.selector
               && pods.ns == key.ns && pods.serviceAccount == AskedAccount(cr)
               && Object(s', Key(ConfigMapKind, pods.ns, "cm-" + key.name)).Some?
               && (!cr.spec.controller.istio ==> Volume("config", Literal("cm-" + key.name)) in pods.volumes)
               && (AccountEnabled(cr) ==> Object(s', Key(ServiceAccountKind, pods.ns, pods.serviceAccount)).Some?)
               && (AskedRbac(cr) ==>
                     && Grants(s', Key(ClusterRoleBindingKind, "", pods.ns + "-" + pods.serviceAccount), pods)
                     && Grants(s', Key(RoleBindingKind, pods.ns, pods.serviceAccount), pods))
  {
    hide Resolved, SetDefaults, OrdersFit, ManagedAsAsked, Extends, AskedLabels, AskedAccount, ConfigMaps.AsAsked,
         CS.Gap, AskedControllerName, AskedPilotName, HasRules, DeploymentPlace;
    StoredDeployment(s, key, c, s');
    StoredService(s, key, c, s');
    StoredConfig(s, key, c, s');
    if AccountEnabled(Resource(s, key)) {
      StoredAccount(s, key, c, s');
    }
    if AskedRbac(Resource(s, key)) {
      StoredRbac(s, key, c, s');
    }
  }

  // ---- What stays as it is ----

  /** The flags of one resource and the key of an object they keep the operator from. */
  ghost predicate Spared(cr: CR, k: Key)
    requires cr.spec.ControllerSpec?
  {
    || (k.kind == ServiceAccountKind && !AccountEnabled(cr))
    || (RbacKind(k.kind) && !AskedRbac(cr) && (HasConsole(cr) ==> !ConsoleKey(cr, k)))
  }

  /** With the account disabled no service account is touched; with RBAC or the account disabled no role and no binding
      but those of the console. */
  lemma FlagsOff(s: Store, key: Key, c: Choice, k: Key)
    requires CT.Live(s, key) && NamespaceActive(s, key.ns) && DistinctManifests(c) && Deployable(Resource(s, key), c, s)
    requires Spared(Resource(s, key), k)
    ensures Object(Reconcile(World(s, []), key, c).0.store, k) == Object(s, k)
  {
    hide RunTasks, Outcome, Kept, Single, CT.Work, Reconcile, Stage, Resolved, CT.StatusStore, ConsoleProgram,
         Deployable, SetDefaults, CT.Persisted, ConsoleKey;
    var s1 := CT.Persisted(s, key);
    ChildrenCanBeMadeIff(s, key, c);
    MarkingMakesChildren(s, key, c);
    CT.PersistedIsLive(s, key);
    var cr1, marked := CT.Instance(s1, key), CT.StatusStore(s1, key, CT.Instance(s1, key), c);
    TasksSpare(Resource(s, key), c, s, k);
    ConsoleSpares(Resource(s, key), cr1, c, k);
    SoloFrame(World(marked, []), ConsoleProgram(cr1, c), k);
    assert Read(Reconcile(World(s, []), key, c).0.store, k) == Read(marked, k);
  }

  lemma TasksSpare(cr: CR, c: Choice, s: Store, k: Key)
    requires cr.spec.ControllerSpec? && Spared(cr, k)
    ensures SetDefaults(cr).spec.ControllerSpec? && Untouched(Resolved(SetDefaults(cr), c, s), k)
  {
    var d := SetDefaults(cr);
    assert RbacOn(d) <==> AskedRbac(cr);
    assert AccountOn(d) <==> AccountEnabled(cr);
    hide SetDefaults, ConsoleKey;
    forall i | 0 <= i < |Resolved(d, c, s)|
      ensures Single(Resolved(d, c, s)[i]) && Kept(Resolved(d, c, s)[i]) != k
    {
      TaskSpares(d, c, s, Resolved(d, c, s)[i], k);
    }
  }

  lemma TaskSpares(d: CR, c: Choice, s: Store, t: Task, k: Key)
    requires d.spec.ControllerSpec? && t in Resolved(d, c, s)
    requires (k.kind == ServiceAccountKind && !AccountOn(d)) || (RbacKind(k.kind) && !RbacOn(d))
    ensures Single(t) && Kept(t) != k
  {
    hide ConfigTask, DeployTask, IngressTask, ControllerServiceTask, AccountObj, Kept, Single;
    TailStages(d);
    DeployTaskKept(d, c, s);
    hide DeploymentKey, Probe, Named;
    if t in DefinitionTasks(c) {
      var i :| 0 <= i < |c.manifests| && DefinitionTasks(c)[i] == t;
      DefinitionMade(c.manifests[i], None);
    } else if t in RbacTasks(d) {
      RbacStages(d);
    } else if t == CreateOnly(AccountObj(d)) {
      AccountKind(d);
    }
  }

  lemma AccountKind(d: CR)
    ensures Single(CreateOnly(AccountObj(d))) && Kept(CreateOnly(AccountObj(d))).kind == ServiceAccountKind
  {
  }

  lemma ConsoleSpares(cr: CR, d: CR, c: Choice, k: Key)
    requires cr.spec.ControllerSpec? && Spared(cr, k)
    requires d == SetDefaults(cr) || d == WithFinalizer(SetDefaults(cr))
    ensures Untouched(ConsoleProgram(d, c), k)
  {
    assert AccountOn(d) <==> AccountEnabled(cr);
    assert HasConsole(d) <==> HasConsole(cr);
    assert HasConsole(d) ==> (ConsoleKey(d, k) <==> ConsoleKey(cr, k));
    hide SetDefaults, ConsoleKey;
    if HasConsole(d) {
      ConsoleKeys(d, c);
      if !AccountOn(d) {
        ConsoleNoAccount(d, c);
      }
    }
  }

  lemma ConsoleNoAccount(d: CR, c: Choice)
    requires HasConsole(d) && !AccountOn(d)
    ensures var todo := ConsoleProgram(d, c);
            forall i :: 0 <= i < |todo| ==> Single(todo[i]) && Kept(todo[i]).kind != ServiceAccountKind
  {
    hide CC.InitialConfig, CC.UpdateSpec, ConsoleBuild, ConsoleParams;
  }

  /** Without an active namespace nothing at all is written, whatever calls fail; and the reconcile succeeds unless the
      resource itself cannot be read. */
  lemma WithoutNamespace(w: World, key: Key, c: Choice)
    requires CT.Live(w.store, key) && !NamespaceActive(w.store, key.ns)
    ensures var (w', ok) := Reconcile(w, key, c); w'.store == w.store && (ok <==> !Faulty(w))
  {
    hide Program, ConsoleProgram, StartWork, SetDefaults;
    var cr, version := CT.Instance(w.store, key), w.store.objects[key].version;
    DefaultsKeep(w.store.objects[key].obj.cr);
    if !Faulty(w) {
      var w1 := Tick(w);
      assert Reconcile(w, key, c) == RunToEnd(w1.(store := w.store), key, CheckNamespace(cr, version), c);
      assert w1.(store := w.store) == w1;
      NamespaceSteps(w1, key, cr, version, c);
    }
  }
}
