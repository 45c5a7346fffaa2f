/** The two reconcilers in the source's form: straight-line calls with early returns, each method proved to
    do what the step machine does when nobody interferes. */
module Reconcilers {
  import opened Kubernetes
  import opened ApiStore
  import opened Tasks
  import opened Runs
  import Bindings
  import CD = ControllerDeployment
  import GatewayChildren

  /** RBAC objects, in the order both reconcilers use. */
  method CreateRBAC(api: ApiServer, instance: CR) returns (ok: bool)
    modifies api
    ensures (api.Now(), ok) == RunTasks(old(api.Now()), RbacTasks(instance))
  {
    if !RbacOn(instance) {
      return true;
    }
    ghost var w0 := api.Now();
    var t := RbacTasks(instance);
    ok := CreateOrUpdate(api, t[0].init, t[0].mutation);
    FourTasks(w0, t);
    if !ok {
      return false;
    }
    ok := CreateOrUpdate(api, t[1].init, t[1].mutation);
    if !ok {
      return false;
    }
    ok := CreateOrUpdate(api, t[2].init, t[2].mutation);
    if !ok {
      return false;
    }
    ok := CreateOrUpdate(api, t[3].init, t[3].mutation);
  }

  lemma OneTask(w: World, t: Task)
    ensures RunTasks(w, [t]) == RunTask(w, t)
  {
    var r := RunTask(w, t);
    assert RunTasks(r.0, [t][1..]) == (r.0, true);
  }

  lemma FourTasks(w: World, t: seq<Task>)
    requires |t| == 4
    ensures RunTasks(w, t) ==
            var r0 := RunTask(w, t[0]);
            if !r0.1 then (r0.0, false) else
            var r1 := RunTask(r0.0, t[1]);
            if !r1.1 then (r1.0, false) else
            var r2 := RunTask(r1.0, t[2]);
            if !r2.1 then (r2.0, false) else RunTask(r2.0, t[3])
  {
    assert t == [t[0]] + ([t[1]] + ([t[2]] + [t[3]]));
    OneTask(w, t[0]);
    RunTasksAppend(w, [t[0]], [t[1]] + ([t[2]] + [t[3]]));
    var w1 := RunTask(w, t[0]).0;
    OneTask(w1, t[1]);
    RunTasksAppend(w1, [t[1]], [t[2]] + [t[3]]);
    var w2 := RunTask(w1, t[1]).0;
    OneTask(w2, t[2]);
    RunTasksAppend(w2, [t[2]], [t[3]]);
    OneTask(RunTask(w2, t[2]).0, t[3]);
  }

  class HigressGatewayReconciler {
    const api: ApiServer

    constructor (api: ApiServer)
      ensures this.api == api
    {
      this.api := api;
    }

    method CreateServiceAccount(instance: CR) returns (ok: bool)
      modifies api
      ensures (api.Now(), ok) == RunTask(old(api.Now()), CreateOnly(AccountObj(instance)))
    {
      var there;
      there, ok := CreateIfNotExits(api, AccountObj(instance));
    }

    method CreateConfigMap(instance: CR) returns (ok: bool)
      requires instance.spec.GatewaySpec?
      modifies api
      ensures (api.Now(), ok) ==
              RunTasks(old(api.Now()),
                  [ConfigTask(instance)] + if GatewayChildren.SkywalkingOn(instance.spec.gateway) then [Crash] else [])
    {
      ghost var w0 := api.Now();
      var t := ConfigTask(instance);
      OneTask(w0, t);
      RunTasksAppend(w0, [t], if GatewayChildren.SkywalkingOn(instance.spec.gateway) then [Crash] else []);
      ok := CreateOrUpdate(api, t.init, t.mutation);
      if ok && GatewayChildren.SkywalkingOn(instance.spec.gateway) {
        OneTask(api.Now(), Crash);
        return false;
      }
    }

    method CreateDeployment(instance: CR, c: Choice) returns (ok: bool)
      requires instance.spec.GatewaySpec?
      modifies api
      ensures (api.Now(), ok) == RunTask(old(api.Now()), GatewayDeploymentTask(instance, c))
    {
      var t := GatewayDeploymentTask(instance, c);
      ok := CreateOrUpdate(api, t.init, t.mutation);
    }

    method CreateService(instance: CR) returns (ok: bool)
      requires instance.spec.GatewaySpec?
      modifies api
      ensures (api.Now(), ok) == RunTask(old(api.Now()), GatewayServiceTask(instance))
    {
      var t := GatewayServiceTask(instance);
      if t.Crash? {
        return false;
      }
      ok := CreateOrUpdate(api, t.init, t.mutation);
    }

    /** Removes the subject from the shared binding; an error when the binding does not exist. */
    method Finalize(instance: CR) returns (ok: bool)
      modifies api
      ensures (api.Now(), ok) == RunFinalize(old(api.Now()), instance)
    {
      ok := DropSubject(api, instance);
    }

    /** Everything between the finalizer and the status update. */
    method CreateChildren(instance: CR, c: Choice) returns (ok: bool)
      requires instance.spec.GatewaySpec?
      modifies api
      ensures (api.Now(), ok) == RunTasks(old(api.Now()), GatewayProgram(instance, c))
    {
      ghost var w0 := api.Now();
      SplitGateway(w0, instance, c);
      ok := CreateServiceAccount(instance);
      if !ok {
        return;
      }
      ok := CreateRBAC(api, instance);
      if !ok {
        return;
      }
      ok := CreateConfigMap(instance);
      if !ok {
        return;
      }
      ok := CreateDeployment(instance, c);
      if !ok {
        return;
      }
      ok := CreateService(instance);
    }

    /** The branch of an instance marked for deletion. */
    method Delete(key: Key, instance: CR, version: nat, c: Choice) returns (ok: bool)
      modifies api
      ensures (api.Now(), ok) == RunToEnd(old(api.Now()), key, ReadBinding(instance, version), c)
    {
      FinalizeSteps(api.Now(), key, instance, version, c);
      ok := Finalize(instance);
      if !ok {
        return;
      }
      DropSteps(api.Now(), key, instance, version, c);
      var updated := api.PutIfCurrent(CustomResource(WithoutFinalizer(instance)), version);
      return updated.Ok?;
    }

    /** The children and then the status. */
    method Work(key: Key, instance: CR, version: nat, c: Choice) returns (ok: bool)
      requires instance.spec.GatewaySpec?
      modifies api
      ensures (api.Now(), ok) == RunToEnd(old(api.Now()), key, StartWork(instance, version, c), c)
    {
      hide Call, OnFault, GatewayProgram, RunTasks, UpdateStatus;
      WorkingSteps(api.Now(), key, instance, version, GatewayProgram(instance, c), Some([]), c);
      ok := CreateChildren(instance, c);
      if !ok {
        return;
      }
      MarkSteps(api.Now(), key, instance, version, [], c);
      NoTasks(RunWrite(api.Now(), UpdateStatus(api.store, key, true, version)).0);
      if !instance.deployed {
        var marked := api.PutStatus(key, true, version);
        return marked.Ok?;
      }
    }

    method Reconcile(key: Key, c: Choice) returns (ok: bool)
      requires key.kind == GatewayKind && Sound(api.store)
      modifies api
      ensures (api.Now(), ok) == Runs.Reconcile(old(api.Now()), key, c)
    {
      hide StartWork;
      var reply := api.Get(key);
      if reply.Err? {
        return reply.error == NotFound;
      }
      var instance, version := SetDefaults(reply.value.obj.cr), reply.value.version;
      if instance.deleting {
        if GATEWAY_FINALIZER in instance.finalizers {
          ok := Delete(key, instance, version, c);
          return;
        }
        return true;
      }
      NamespaceSteps(api.Now(), key, instance, version, c);
      var ns := api.Get(Key(NamespaceKind, "", instance.meta.ns));
      if ns.Err? || ns.value.obj.terminating {
        return true;
      }
      if GATEWAY_FINALIZER !in instance.finalizers {
        instance := WithFinalizer(instance);
        var updated := api.PutIfCurrent(CustomResource(instance), version);
        if updated.Err? {
          return false;
        }
        version := updated.value;
      }
      ok := Work(key, instance, version, c);
    }
  }

  /** The gateway's program, method by method. */
  lemma SplitGateway(w: World, instance: CR, c: Choice)
    requires instance.spec.GatewaySpec?
    ensures RunTasks(w, GatewayProgram(instance, c)) ==
            var r0 := RunTask(w, CreateOnly(AccountObj(instance)));
            if !r0.1 then (r0.0, false) else
            var r1 := RunTasks(r0.0, RbacTasks(instance));
            if !r1.1 then (r1.0, false) else
            var r2 := RunTasks(r1.0,
                [ConfigTask(instance)] + if GatewayChildren.SkywalkingOn(instance.spec.gateway) then [Crash] else []);
            if !r2.1 then (r2.0, false) else
            var r3 := RunTask(r2.0, GatewayDeploymentTask(instance, c));
            if !r3.1 then (r3.0, false) else RunTask(r3.0, GatewayServiceTask(instance))
  {
    var config := [ConfigTask(instance)] + if GatewayChildren.SkywalkingOn(instance.spec.gateway) then [Crash] else [];
    GatewayProgramParts(instance, c, config);
    SplitFive(w, CreateOnly(AccountObj(instance)), RbacTasks(instance), config, GatewayDeploymentTask(instance, c),
        GatewayServiceTask(instance));
  }

  lemma GatewayProgramParts(instance: CR, c: Choice, config: seq<Task>)
    requires instance.spec.GatewaySpec?
    requires config == [ConfigTask(instance)]
             + if GatewayChildren.SkywalkingOn(instance.spec.gateway) then [Crash] else []
    ensures GatewayProgram(instance, c) ==
            [CreateOnly(AccountObj(instance))]
            + (RbacTasks(instance) + (config + ([GatewayDeploymentTask(instance, c)] + [GatewayServiceTask(instance)])))
  {
    Regroup([CreateOnly(AccountObj(instance))], RbacTasks(instance), [ConfigTask(instance)],
            if GatewayChildren.SkywalkingOn(instance.spec.gateway) then [Crash] else [],
            GatewayDeploymentTask(instance, c), GatewayServiceTask(instance));
  }

  lemma Regroup<T>(a: seq<T>, b: seq<T>, c: seq<T>, d: seq<T>, e: T, f: T)
    ensures a + b + c + d + [e, f] == a + (b + ((c + d) + ([e] + [f])))
  {
  }

  lemma SplitFive(w: World, a: Task, b: seq<Task>, config: seq<Task>, d: Task, e: Task)
    ensures RunTasks(w, [a] + (b + (config + ([d] + [e])))) ==
            var r0 := RunTask(w, a);
            if !r0.1 then (r0.0, false) else
            var r1 := RunTasks(r0.0, b);
            if !r1.1 then (r1.0, false) else
            var r2 := RunTasks(r1.0, config);
            if !r2.1 then (r2.0, false) else
            var r3 := RunTask(r2.0, d);
            if !r3.1 then (r3.0, false) else RunTask(r3.0, e)
  {
    OneTask(w, a);
    RunTasksAppend(w, [a], b + (config + ([d] + [e])));
    var w1 := RunTask(w, a).0;
    RunTasksAppend(w1, b, config + ([d] + [e]));
    var w2 := RunTasks(w1, b).0;
    RunTasksAppend(w2, config, [d] + [e]);
    var w3 := RunTasks(w2, config).0;
    RunTasksAppend(w3, [d], [e]);
    OneTask(w3, d);
    OneTask(RunTask(w3, d).0, e);
  }

  method DropSubject(api: ApiServer, instance: CR) returns (ok: bool)
    modifies api
    ensures (api.Now(), ok) == RunFinalize(old(api.Now()), instance)
  {
    var reply := api.Get(BindingKey(instance));
    if reply.Err? || !reply.value.obj.ClusterRoleBinding? {
      return false;
    }
    var binding := reply.value.obj;
    var crb := new Bindings.BindingObject(binding.roleRef, binding.subjects);
    crb.Drop(AccountName(instance), instance.meta.ns);
    var updated := api.PutIfCurrent(ClusterRoleBinding(binding.meta, crb.roleRef, crb.subjects), reply.value.version);
    return updated.Ok?;
  }

  class HigressControllerReconciler {
    const api: ApiServer

    constructor (api: ApiServer)
      ensures this.api == api
    {
      this.api := api;
    }

    /** With the account disabled there is nothing to create. */
    method CreateServiceAccount(instance: CR) returns (ok: bool)
      modifies api
      ensures (api.Now(), ok) ==
              RunTasks(old(api.Now()), if AccountOn(instance) then [CreateOnly(AccountObj(instance))] else [])
    {
      if !AccountOn(instance) {
        return true;
      }
      OneTask(api.Now(), CreateOnly(AccountObj(instance)));
      var there;
      there, ok := CreateIfNotExits(api, AccountObj(instance));
    }

    method CreateConfigMap(instance: CR) returns (ok: bool)
      modifies api
      ensures (api.Now(), ok) == RunTask(old(api.Now()), ConfigTask(instance))
    {
      var t := ConfigTask(instance);
      ok := CreateOrUpdate(api, t.init, t.mutation);
    }

    /** The fast path: a Deployment found under the controller's name is left alone when a first build does
        not change it. A failed read is treated like an absent Deployment. */
    method CreateDeployment(instance: CR, c: Choice) returns (ok: bool)
      requires instance.spec.ControllerSpec?
      modifies api
      ensures (api.Now(), ok) == RunTask(old(api.Now()), ControllerDeploymentTask(instance, c))
    {
      hide CD.UpdateSpec, Apply;
      var t := ControllerDeploymentTask(instance, c);
      var reply := api.Get(t.probe);
      if reply.Err? || !reply.value.obj.Deployment? {
        var built := CD.UpdateSpec(EMPTY_SPEC, t.build, t.first);
        if built.None? {
          return false;
        }
        ok := CreateOrUpdate(api, Deployment(t.meta, Some(t.owner), built.value), MergeDeployment(t.build, t.second));
        return;
      }
      var found := reply.value.obj;
      var built := CD.UpdateSpec(found.deployment, t.build, t.first);
      if built.None? {
        return false;
      }
      if built.value == found.deployment {
        return true;
      }
      if found.owner.Some? && found.owner.value != t.owner {
        return false;
      }
      ok := CreateOrUpdate(api, Deployment(found.meta, Some(t.owner), built.value), MergeDeployment(t.build, t.second));
    }

    /** A failed read other than NotFound is swallowed. */
    method CreateIngressClass(instance: CR) returns (ok: bool)
      requires instance.spec.ControllerSpec?
      modifies api
      ensures (api.Now(), ok) == RunTask(old(api.Now()), IngressTask(instance))
    {
      var t := IngressTask(instance);
      var reply := api.Get(KeyOf(t.init));
      if reply.Err? && reply.error == NotFound {
        ok := CreateOrUpdate(api, t.init, t.mutation);
        return;
      }
      return true;
    }

    method CreateService(instance: CR) returns (ok: bool)
      requires instance.spec.ControllerSpec?
      modifies api
      ensures (api.Now(), ok) == RunTask(old(api.Now()), ControllerServiceTask(instance))
    {
      var t := ControllerServiceTask(instance);
      ok := CreateOrUpdate(api, t.init, t.mutation);
    }

    /** With RBAC or the account disabled the binding is not cleaned. */
    method Finalize(instance: CR) returns (ok: bool)
      modifies api
      ensures (api.Now(), ok) ==
              if RbacOn(instance) then RunFinalize(old(api.Now()), instance) else (old(api.Now()), true)
    {
      if !RbacOn(instance) {
        return true;
      }
      ok := DropSubject(api, instance);
    }

    /** Reads, and creates or updates, each definition of the manifests. */
    method CreateCRDs(c: Choice) returns (ok: bool)
      modifies api
      ensures (api.Now(), ok) == RunTasks(old(api.Now()), DefinitionTasks(c))
    {
      ghost var w0 := api.Now();
      var todo := DefinitionTasks(c);
      for i := 0 to |todo|
        invariant RunTasks(w0, todo) == RunTasks(api.Now(), todo[i..])
      {
        assert todo[i..][0] == todo[i] && todo[i..][1..] == todo[i + 1..];
        var written := ApplyDefinition(api, c.manifests[i]);
        if !written {
          return false;
        }
      }
      NoTasks(api.Now());
      return true;
    }

    /** Everything between the finalizer and the status update. */
    method CreateChildren(instance: CR, c: Choice) returns (ok: bool)
      requires instance.spec.ControllerSpec?
      modifies api
      ensures (api.Now(), ok) == RunTasks(old(api.Now()), ControllerProgram(instance, c))
    {
      ghost var w0 := api.Now();
      SplitController(w0, instance, c);
      ok := CreateCRDs(c);
      if !ok {
        return;
      }
      ok := CreateServiceAccount(instance);
      if !ok {
        return;
      }
      ok := CreateRBAC(api, instance);
      if !ok {
        return;
      }
      FourTasks(api.Now(), ControllerTail(instance, c));
      ok := CreateConfigMap(instance);
      if !ok {
        return;
      }
      ok := CreateDeployment(instance, c);
      if !ok {
        return;
      }
      ok := CreateIngressClass(instance);
      if !ok {
        return;
      }
      ok := CreateService(instance);
    }

    /** The branch of an instance marked for deletion. */
    method Delete(key: Key, instance: CR, version: nat, c: Choice) returns (ok: bool)
      modifies api
      ensures (api.Now(), ok) == RunToEnd(old(api.Now()), key,
          if RbacOn(instance) then ReadBinding(instance, version) else DropFinalizer(instance, version), c)
    {
      FinalizeSteps(api.Now(), key, instance, version, c);
      ok := Finalize(instance);
      if !ok {
        return;
      }
      DropSteps(api.Now(), key, instance, version, c);
      var updated := api.PutIfCurrent(CustomResource(WithoutFinalizer(instance)), version);
      return updated.Ok?;
    }

    /** The children and then the status. */
    method Work(key: Key, instance: CR, version: nat, c: Choice) returns (ok: bool)
      requires instance.spec.ControllerSpec?
      modifies api
      ensures (api.Now(), ok) == RunToEnd(old(api.Now()), key, StartWork(instance, version, c), c)
    {
      hide Call, OnFault, ControllerProgram, ConsoleProgram, RunTasks, UpdateStatus;
      var console := ConsoleProgram(instance, c);
      WorkingSteps(api.Now(), key, instance, version, ControllerProgram(instance, c), Some(console), c);
      ok := CreateChildren(instance, c);
      if !ok {
        return;
      }
      MarkSteps(api.Now(), key, instance, version, console, c);
      ConsoleSteps(api.Now(), key, instance, version, console, c);
      if !instance.deployed {
        var marked := api.PutStatus(key, true, version);
        if marked.Err? {
          return false;
        }
      }
      ok := AddOrUpdateConsole(instance, c);
    }

    /** Only when the instance names a console. */
    method AddOrUpdateConsole(instance: CR, c: Choice) returns (ok: bool)
      requires instance.spec.ControllerSpec?
      modifies api
      ensures (api.Now(), ok) == RunTasks(old(api.Now()), ConsoleProgram(instance, c))
    {
      if !HasConsole(instance) {
        NoTasks(api.Now());
        return true;
      }
      var console := new HigressConsole(api);
      ok := console.Reconcile(instance, c);
    }

    method Reconcile(key: Key, c: Choice) returns (ok: bool)
      requires key.kind == ControllerKind && Sound(api.store)
      modifies api
      ensures (api.Now(), ok) == Runs.Reconcile(old(api.Now()), key, c)
    {
      var reply := api.Get(key);
      if reply.Err? {
        return reply.error == NotFound;
      }
      var instance, version := SetDefaults(reply.value.obj.cr), reply.value.version;
      if instance.deleting {
        if CONTROLLER_FINALIZER in instance.finalizers {
          ok := Delete(key, instance, version, c);
          return;
        }
        return true;
      }
      NamespaceSteps(api.Now(), key, instance, version, c);
      var ns := api.Get(Key(NamespaceKind, "", instance.meta.ns));
      if ns.Err? || ns.value.obj.terminating {
        return true;
      }
      if CONTROLLER_FINALIZER !in instance.finalizers {
        instance := WithFinalizer(instance);
        var updated := api.PutIfCurrent(CustomResource(instance), version);
        if updated.Err? {
          return false;
        }
        version := updated.value;
      }
      ok := Work(key, instance, version, c);
    }
  }

  function ControllerTail(instance: CR, c: Choice): seq<Task>
    requires instance.spec.ControllerSpec?
  {
    [ConfigTask(instance), ControllerDeploymentTask(instance, c), IngressTask(instance),
        ControllerServiceTask(instance)]
  }

  /** The controller's program, method by method. */
  lemma SplitController(w: World, instance: CR, c: Choice)
    requires instance.spec.ControllerSpec?
    ensures RunTasks(w, ControllerProgram(instance, c)) ==
            var r0 := RunTasks(w, DefinitionTasks(c));
            if !r0.1 then (r0.0, false) else
            var r1 := RunTasks(r0.0, if AccountOn(instance) then [CreateOnly(AccountObj(instance))] else []);
            if !r1.1 then (r1.0, false) else
            var r2 := RunTasks(r1.0, RbacTasks(instance));
            if !r2.1 then (r2.0, false) else RunTasks(r2.0, ControllerTail(instance, c))
  {
    hide RunTasks, RunTask, RbacTasks, DefinitionTasks;
    var account := if AccountOn(instance) then [CreateOnly(AccountObj(instance))] else [];
    FourParts(w, DefinitionTasks(c), account, RbacTasks(instance), ControllerTail(instance, c));
  }

  lemma FourParts(w: World, d: seq<Task>, a: seq<Task>, r: seq<Task>, z: seq<Task>)
    ensures RunTasks(w, d + a + r + z) ==
            var r0 := RunTasks(w, d);
            if !r0.1 then (r0.0, false) else
            var r1 := RunTasks(r0.0, a);
            if !r1.1 then (r1.0, false) else
            var r2 := RunTasks(r1.0, r);
            if !r2.1 then (r2.0, false) else RunTasks(r2.0, z)
  {
    hide RunTasks, RunTask;
    RunTasksAppend(w, d + a + r, z);
    RunTasksAppend(w, d + a, r);
    RunTasksAppend(w, d, a);
  }

  lemma NoTasks(w: World)
    ensures RunTasks(w, []) == (w, true)
  {
  }

  /** One definition: created as the manifest has it, or given the manifest's specification when it differs. */
  method ApplyDefinition(api: ApiServer, m: Manifest) returns (ok: bool)
    modifies api
    ensures (api.Now(), ok) == RunTask(old(api.Now()), DefinitionTask(m))
  {
    var crd := Definition(Unlabelled("", m.name), m.spec);
    var reply := api.Get(KeyOf(crd));
    if reply.Err? {
      if reply.error != NotFound {
        return false;
      }
      var created := api.Post(crd);
      return created.Ok?;
    }
    var existing := reply.value;
    // What is kept under a key has that key, so neither of the next two returns false in a sound store.
    if !existing.obj.Definition? {
      return false;
    }
    if existing.obj.spec == m.spec {
      return KeyOf(existing.obj) == KeyOf(crd);
    }
    if KeyOf(existing.obj) != KeyOf(crd) {
      return false;
    }
    var updated := api.PutIfCurrent(Definition(existing.obj.meta, m.spec), existing.version);
    return updated.Ok?;
  }

  /** The console, reconciled after its controller. */
  class HigressConsole {
    const api: ApiServer

    constructor (api: ApiServer)
      ensures this.api == api
    {
      this.api := api;
    }

    /** Whatever the RBAC flags say. */
    method CreateRBAC(instance: CR) returns (ok: bool)
      requires HasConsole(instance)
      modifies api
      ensures (api.Now(), ok) == RunTasks(old(api.Now()), ConsoleRbacTasks(instance))
    {
      ghost var w0 := api.Now();
      var t := ConsoleRbacTasks(instance);
      FourTasks(w0, t);
      ok := CreateOrUpdate(api, t[0].init, t[0].mutation);
      if !ok {
        return false;
      }
      ok := CreateOrUpdate(api, t[1].init, t[1].mutation);
      if !ok {
        return false;
      }
      ok := CreateOrUpdate(api, t[2].init, t[2].mutation);
      if !ok {
        return false;
      }
      ok := CreateOrUpdate(api, t[3].init, t[3].mutation);
    }

    method CreateServiceAccount(instance: CR) returns (ok: bool)
      requires HasConsole(instance)
      modifies api
      ensures (api.Now(), ok) ==
              RunTasks(old(api.Now()), if AccountOn(instance) then [CreateOnly(ConsoleAccountObj(instance))] else [])
    {
      if !AccountOn(instance) {
        NoTasks(api.Now());
        return true;
      }
      OneTask(api.Now(), CreateOnly(ConsoleAccountObj(instance)));
      var there;
      there, ok := CreateIfNotExits(api, ConsoleAccountObj(instance));
    }

    method CreateConfigMap(instance: CR) returns (ok: bool)
      requires HasConsole(instance)
      modifies api
      ensures (api.Now(), ok) == RunTask(old(api.Now()), ConsoleConfigTask(instance))
    {
      var t := ConsoleConfigTask(instance);
      ok := CreateOrUpdate(api, t.init, t.mutation);
    }

    method CreateDeployment(instance: CR, c: Choice) returns (ok: bool)
      requires HasConsole(instance)
      modifies api
      ensures (api.Now(), ok) == RunTask(old(api.Now()), ConsoleDeploymentTask(instance, c))
    {
      var t := ConsoleDeploymentTask(instance, c);
      ok := CreateOrUpdate(api, t.init, t.mutation);
    }

    method CreateService(instance: CR) returns (ok: bool)
      requires HasConsole(instance)
      modifies api
      ensures (api.Now(), ok) == RunTask(old(api.Now()), ConsoleServiceTask(instance))
    {
      var t := ConsoleServiceTask(instance);
      ok := CreateOrUpdate(api, t.init, t.mutation);
    }

    method Reconcile(instance: CR, c: Choice) returns (ok: bool)
      requires HasConsole(instance)
      modifies api
      ensures (api.Now(), ok) == RunTasks(old(api.Now()), ConsoleProgram(instance, c))
    {
      hide RunTasks, RunTask, ConsoleRbacTasks, ConsoleConfigTask, ConsoleDeploymentTask, ConsoleServiceTask;
      SplitConsole(api.Now(), instance, c);
      ok := CreateRBAC(instance);
      if !ok {
        return;
      }
      ok := CreateServiceAccount(instance);
      if !ok {
        return;
      }
      ThreeTasks(api.Now(), ConsoleConfigTask(instance), ConsoleDeploymentTask(instance, c),
          ConsoleServiceTask(instance));
      ok := CreateConfigMap(instance);
      if !ok {
        return;
      }
      ok := CreateDeployment(instance, c);
      if !ok {
        return;
      }
      ok := CreateService(instance);
    }
  }

  lemma ThreeTasks(w: World, a: Task, b: Task, c: Task)
    ensures RunTasks(w, [a, b, c]) ==
            var r0 := RunTask(w, a);
            if !r0.1 then (r0.0, false) else
            var r1 := RunTask(r0.0, b);
            if !r1.1 then (r1.0, false) else RunTask(r1.0, c)
  {
    assert [a, b, c] == [a] + ([b] + [c]);
    hide RunTasks, RunTask;
    OneTask(w, a);
    RunTasksAppend(w, [a], [b] + [c]);
    var w1 := RunTask(w, a).0;
    OneTask(w1, b);
    RunTasksAppend(w1, [b], [c]);
    OneTask(RunTask(w1, b).0, c);
  }

  /** The console's program, method by method. */
  lemma SplitConsole(w: World, instance: CR, c: Choice)
    requires HasConsole(instance)
    ensures RunTasks(w, ConsoleProgram(instance, c)) ==
            var r0 := RunTasks(w, ConsoleRbacTasks(instance));
            if !r0.1 then (r0.0, false) else
            var r1 := RunTasks(r0.0, if AccountOn(instance) then [CreateOnly(ConsoleAccountObj(instance))] else []);
            if !r1.1 then (r1.0, false) else
            RunTasks(r1.0, [ConsoleConfigTask(instance), ConsoleDeploymentTask(instance, c),
                ConsoleServiceTask(instance)])
  {
    hide RunTasks, RunTask, ConsoleRbacTasks, ConsoleConfigTask, ConsoleDeploymentTask, ConsoleServiceTask;
    var account := if AccountOn(instance) then [CreateOnly(ConsoleAccountObj(instance))] else [];
    var tail := [ConsoleConfigTask(instance), ConsoleDeploymentTask(instance, c), ConsoleServiceTask(instance)];
    RunTasksAppend(w, ConsoleRbacTasks(instance) + account, tail);
    RunTasksAppend(w, ConsoleRbacTasks(instance), account);
  }
}
