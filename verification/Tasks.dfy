/** The update primitive and the other building blocks of a reconcile, one API call at a time. */
module Tasks {
  import opened Kubernetes
  import opened ApiStore
  import Bindings
  import CC = ConsoleChildren
  import CD = ControllerDeployment
  import ConsoleService
  import ControllerEnv
  import ControllerService
  import GatewayChildren

  /** The mutate functions, as data. */
  datatype Mutation =
    | SetRules(rules: Literal)
    | Bind(ref: RoleRef, subject: Subject)
    | SetData(data: map<string, Yaml>)
    | SetDeployment(spec: DeploymentSpec)
    | SetGatewayService(gateway: GatewayFields)
    | MergeDeployment(build: CD.Build, orders: CD.Orders)
    | SetControllerService(fields: ControllerFields)
    | SetIngress(controller: string)
    | SetDefinition(definition: Literal)
    | SetConsoleData(console: ControllerFields)
    | MergeConsole(params: CC.Build, order: ControllerEnv.Order)
    | SetConsoleService(section: ConsoleService.ConsoleParams)

  /** The object after the mutate function; None where it panics. */
  function Apply(m: Mutation, o: Obj): Option<Obj> {
    match m
    case SetRules(rules) =>
      (match o
       case ClusterRole(meta, _) => Some(ClusterRole(meta, rules))
       case Role(meta, _) => Some(Role(meta, rules))
       case _ => None)
    case Bind(ref, subject) =>
      (match o
       case ClusterRoleBinding(meta, _, subjects) =>
         Some(ClusterRoleBinding(meta, ref, Bindings.AddSubject(subjects, subject)))
       case RoleBinding(meta, _, subjects) => Some(RoleBinding(meta, ref, Bindings.AddSubject(subjects, subject)))
       case _ => None)
    case SetData(data) => if o.ConfigMap? then Some(ConfigMap(o.meta, data)) else None
    case SetDeployment(spec) => if o.Deployment? then Some(Deployment(o.meta, o.owner, spec)) else None
    case SetGatewayService(f) =>
      if !o.Service? then None
      else
        (match GatewayChildren.ServiceLabels(o.meta.labels, f)
         case None => None
         case Some(l) => Some(Service(o.meta.(labels := l), o.owner, GatewayChildren.ServiceOf(o.service, f))))
    case MergeDeployment(b, orders) =>
      if !o.Deployment? then None
      else
        (match CD.UpdateSpec(o.deployment, b, orders)
         case None => None
         case Some(sp) => Some(Deployment(o.meta, o.owner, sp)))
    case SetControllerService(f) =>
      if o.Service? then Some(Service(o.meta, o.owner, ControllerService.Update(o.service, f))) else None
    case SetIngress(c) => if o.IngressClass? then Some(IngressClass(o.meta, o.owner, c)) else None
    case SetDefinition(spec) => if o.Definition? then Some(Definition(o.meta, spec)) else None
    case SetConsoleData(f) =>
      if !o.ConfigMap? then None
      else
        (match CC.UpdateConfig(o.data, f)
         case None => None
         case Some(data) => Some(ConfigMap(o.meta, data)))
    case MergeConsole(b, order) =>
      if o.Deployment? then Some(Deployment(o.meta, o.owner, CC.UpdateSpec(o.deployment, b, order))) else None
    case SetConsoleService(c) =>
      if o.Service? then Some(Service(o.meta, o.owner, ConsoleService.Update(o.service, c))) else None
  }

  /** No mutate function of the operator changes the key of the object it is given, or touches a custom resource. */
  lemma ApplyKeepsKey(m: Mutation, o: Obj)
    ensures Apply(m, o).Some? ==> KeyOf(Apply(m, o).value) == KeyOf(o) && !o.CustomResource?
  {
  }

  // ---- createOrUpdate ----

  /** A pending write, together with the object it was computed from. */
  datatype Write = WCreate(obj: Obj) | WUpdate(existing: Obj, obj: Obj, version: nat)

  datatype Decision = Skip | Abort | Commit(write: Write)

  /** What is computed locally once the first call has answered. */
  function Plan(s: Store, init: Obj, m: Mutation): Decision {
    var key := KeyOf(init);
    if Scoped(key) !in s.objects then
      match Apply(m, init)
      case None => Abort
      case Some(o) => if KeyOf(o) != key then Abort else Commit(WCreate(o))
    else
      var found := s.objects[Scoped(key)];
      match Apply(m, found.obj)
      case None => Abort
      case Some(o) =>
        if KeyOf(o) != key then Abort
        else if o == found.obj then Skip
        else Commit(WUpdate(found.obj, o, found.version))
  }

  function Perform(s: Store, w: Write): Reply<Store> {
    match w
    case WCreate(o) => Create(s, o)
    case WUpdate(_, o, version) => Update(s, o, version)
  }

  // ---- Tasks ----

  datatype Task =
    | CreateOnly(obj: Obj)
    | Ensure(init: Obj, mutation: Mutation)
    | FinishWrite(write: Write)
    | EnsureIfMissing(init: Obj, mutation: Mutation)
    | DeployController(probe: Key, owner: Key, meta: Meta, build: CD.Build, first: CD.Orders, second: CD.Orders)
    | Crash

  datatype TaskStep = More(task: Task) | Finished(ok: bool)

  function Follow(d: Decision): TaskStep {
    match d
    case Skip => Finished(true)
    case Abort => Finished(false)
    case Commit(w) => More(FinishWrite(w))
  }

  /** The controller's Deployment when none was found: built once here and once more by the mutate step. */
  function FreshDeployment(t: Task): TaskStep
    requires t.DeployController?
  {
    match CD.UpdateSpec(EMPTY_SPEC, t.build, t.first)
    case None => Finished(false)
    case Some(sp) => More(Ensure(Deployment(t.meta, Some(t.owner), sp), MergeDeployment(t.build, t.second)))
  }

  /** One successful API call of a task. */
  function TaskCall(s: Store, t: Task): (Store, TaskStep) {
    match t
    case CreateOnly(o) =>
      (match Create(s, o)
       case Ok(s') => (s', Finished(true))
       case Err(_) => (s, Finished(true)))
    case Ensure(init, m) => (s, Follow(Plan(s, init, m)))
    case FinishWrite(w) =>
      (match Perform(s, w)
       case Ok(s') => (s', Finished(true))
       case Err(_) => (s, Finished(false)))
    case EnsureIfMissing(init, m) =>
      (s, if Scoped(KeyOf(init)) in s.objects then Finished(true) else More(Ensure(init, m)))
    case DeployController(probe, owner, _, b, first, second) =>
      if probe !in s.objects || !s.objects[probe].obj.Deployment? then (s, FreshDeployment(t))
      else
        var found := s.objects[probe].obj;
        (match CD.UpdateSpec(found.deployment, b, first)
         case None => (s, Finished(false))
         case Some(sp) =>
           if sp == found.deployment then (s, Finished(true))
           else if found.owner.Some? && found.owner.value != owner then (s, Finished(false))
           else (s, More(Ensure(Deployment(found.meta, Some(owner), sp), MergeDeployment(b, second)))))
    case Crash => (s, Finished(false))
  }

  /** A failed API call of a task. Two reads swallow their errors. */
  function TaskFault(t: Task): TaskStep {
    match t
    case EnsureIfMissing(_, _) => Finished(true)
    case DeployController(_, _, _, _, _, _) => FreshDeployment(t)
    case _ => Finished(false)
  }

  function TaskRank(t: Task): nat {
    match t
    case Ensure(_, _) => 2
    case EnsureIfMissing(_, _) => 3
    case DeployController(_, _, _, _, _, _) => 3
    case _ => 1
  }

  /** A task run without interleaving. A crash spends no call. */
  function RunTask(w: World, t: Task): (World, bool)
    decreases TaskRank(t)
  {
    if t.Crash? then (w, false)
    else if Faulty(w) then
      var w' := Struck(w, TaskCall(w.store, t).0);
      match TaskFault(t)
      case Finished(ok) => (w', ok)
      case More(t') => RunTask(w', t')
    else
      var (s', step) := TaskCall(w.store, t);
      var w' := Tick(w).(store := s');
      match step
      case Finished(ok) => (w', ok)
      case More(t') => RunTask(w', t')
  }

  /** A read that fails ends a task without an effect and fails it, except for two: a failed look at the ingress class
      passes for a success, and a failed look at the Deployment for one that found nothing. */
  lemma FailedReads(w: World, t: Task)
    requires Faulty(w) && (t.Ensure? || t.EnsureIfMissing? || t.DeployController?)
    ensures t.Ensure? ==> RunTask(w, t) == (Tick(w), false)
    ensures t.EnsureIfMissing? ==> RunTask(w, t) == (Tick(w), true)
    ensures t.DeployController? ==>
              RunTask(w, t) ==
              match CD.UpdateSpec(EMPTY_SPEC, t.build, t.first)
              case None => (Tick(w), false)
              case Some(sp) =>
                RunTask(Tick(w), Ensure(Deployment(t.meta, Some(t.owner), sp), MergeDeployment(t.build, t.second)))
  {
    hide Apply, CD.UpdateSpec;
    assert TaskCall(w.store, t).0 == w.store && Tick(w).(store := w.store) == Tick(w);
  }

  function RunTasks(w: World, todo: seq<Task>): (World, bool)
    decreases |todo|
  {
    if todo == [] then (w, true)
    else
      var (w', ok) := RunTask(w, todo[0]);
      if ok then RunTasks(w', todo[1..]) else (w', false)
  }

  lemma {:induction false} RunTasksAppend(w: World, a: seq<Task>, b: seq<Task>)
    ensures RunTasks(w, a + b) ==
            var (w', ok) := RunTasks(w, a);
            if ok then RunTasks(w', b) else (w', false)
    decreases |a|
  {
    if a == [] {
      assert a + b == b;
    } else {
      assert (a + b)[1..] == a[1..] + b;
      RunTasksAppend(RunTask(w, a[0]).0, a[1..], b);
    }
  }

  // ---- The source's methods ----

  /** Read, mutate, and create or update when something changed. */
  method CreateOrUpdate(api: ApiServer, init: Obj, m: Mutation) returns (ok: bool)
    modifies api
    ensures (api.Now(), ok) == RunTask(old(api.Now()), Ensure(init, m))
  {
    hide Apply;
    var key := KeyOf(init);
    var reply := api.Get(key);
    if reply.Err? {
      if reply.error != NotFound {
        return false;
      }
      var mutated := Apply(m, init);
      if mutated.None? || KeyOf(mutated.value) != key {
        return false;
      }
      var created := api.Post(mutated.value);
      return created.Ok?;
    }
    var existing := reply.value;
    var mutated := Apply(m, existing.obj);
    if mutated.None? || KeyOf(mutated.value) != key {
      return false;
    }
    if mutated.value == existing.obj {
      return true;
    }
    var updated := api.PutIfCurrent(mutated.value, existing.version);
    return updated.Ok?;
  }

  /** Create; an object that is already there is left alone. */
  method CreateIfNotExits(api: ApiServer, o: Obj) returns (alreadyThere: bool, ok: bool)
    modifies api
    ensures (api.Now(), ok) == RunTask(old(api.Now()), CreateOnly(o))
    ensures alreadyThere ==> ok && Scoped(KeyOf(o)) in old(api.store).objects && api.store == old(api.store)
  {
    var reply := api.Post(o);
    if reply.Err? && reply.error == AlreadyExists {
      return true, true;
    }
    return false, reply.Ok?;
  }

  /** The object a write would store, if the code gets as far as writing. */
  function Wanted(s: Store, init: Obj, m: Mutation): Option<Obj> {
    var key := KeyOf(init);
    match Apply(m, if Scoped(key) in s.objects then s.objects[Scoped(key)].obj else init)
    case None => None
    case Some(o) => if KeyOf(o) == key then Some(o) else None
  }

  /** Without failures the store changes exactly when there is an object to write, it passes the check of its key,
      and it is not the one already there; it then is what is stored, and nothing else changes. */
  lemma WritesIffChanged(w: World, init: Obj, m: Mutation)
    requires Sound(w.store) && w.fates == []
    ensures var k, wanted := Scoped(KeyOf(init)), Wanted(w.store, init, m);
            var s' := RunTask(w, Ensure(init, m)).0.store;
            if wanted.None? || (k in w.store.objects && w.store.objects[k].obj == wanted.value) then s' == w.store
            else s' != w.store && k in s'.objects && s'.objects[k].obj == Stripped(wanted.value)
                 && forall q :: q != k ==> Read(s', q) == Read(w.store, q)
  {
    hide Apply, Stripped, Perform;
    var plan := Plan(w.store, init, m);
    assert Tick(w).(store := w.store) == w;
    if plan.Commit? {
      CommitStores(w.store, init, m);
      assert RunTask(w, Ensure(init, m)) == RunTask(w, FinishWrite(plan.write));
      assert RunTask(w, FinishWrite(plan.write)).0.store == Perform(w.store, plan.write).value;
    }
  }

  /** A planned write, carried out at once, stores what is wanted. */
  lemma CommitStores(s: Store, init: Obj, m: Mutation)
    requires Sound(s) && Plan(s, init, m).Commit?
    ensures var k, wanted, r := Scoped(KeyOf(init)), Wanted(s, init, m), Perform(s, Plan(s, init, m).write);
            && wanted.Some? && r.Ok? && r.value != s && Sound(r.value) && k in r.value.objects
            && r.value.objects[k].obj == Stripped(wanted.value)
            && forall q :: q != k ==> Read(r.value, q) == Read(s, q)
  {
    hide Apply;
    var k := Scoped(KeyOf(init));
    ApplyKeepsKey(m, if k in s.objects then s.objects[k].obj else init);
  }

  /** The check of the key fires exactly for a cluster-scoped object that was given a namespace and is found: what
      is read back has none. Such an object can be created but never updated. */
  lemma KeyCheckFiresIff(s: Store, init: Obj, m: Mutation)
    requires Sound(s)
    ensures var k := Scoped(KeyOf(init));
            var start := if k in s.objects then s.objects[k].obj else init;
            Apply(m, start).Some? ==>
              (KeyOf(Apply(m, start).value) != KeyOf(init)
               <==> k in s.objects && ClusterScoped(KindOf(init)) && MetaOf(init).ns != "")
  {
    var k := Scoped(KeyOf(init));
    var start := if k in s.objects then s.objects[k].obj else init;
    ApplyKeepsKey(m, start);
    assert k in s.objects ==> KeyOf(start) == k;
  }

  /** When the controller's Deployment is found, the fast path does what the full update would have done, to
      the store and to the outcome, although the two builds range over the user's maps in unrelated orders. */
  lemma FastPathIsFullPath(w: World, t: Task, init: Obj)
    requires Sound(w.store) && w.fates == [] && t.DeployController?
    requires t.probe in w.store.objects && w.store.objects[t.probe].obj.Deployment? && KeyOf(init) == t.probe
    requires var owner := w.store.objects[t.probe].obj.owner; owner.Some? ==> owner.value == t.owner
    requires CD.StableEnv(t.build) && CD.ValidOrders(t.first, t.build.fields)
        && CD.ValidOrders(t.second, t.build.fields)
    ensures RunTask(w, t) == RunTask(w, Ensure(init, MergeDeployment(t.build, t.second)))
  {
    hide CD.UpdateSpec, CD.StableEnv, CD.ValidOrders, Stripped;
    var found := w.store.objects[t.probe].obj;
    CD.FastPathRefines(found.deployment, t.build, t.first, t.second);
    CD.PanicsForAnyOrder(found.deployment, t.build, t.first, t.second);
    assert Tick(w).(store := w.store) == w;
    var full := Ensure(init, MergeDeployment(t.build, t.second));
    var built := CD.UpdateSpec(found.deployment, t.build, t.first);
    if built.Some? && built.value != found.deployment {
      var next := Ensure(Deployment(found.meta, Some(t.owner), built.value), MergeDeployment(t.build, t.second));
      assert TaskCall(w.store, t) == (w.store, More(next));
      SameKeySameTask(w, next, full);
    }
  }

  /** What `createOrUpdate` does to an object that exists does not depend on the object it was given. */
  lemma SameKeySameTask(w: World, t: Task, u: Task)
    requires t.Ensure? && u.Ensure? && KeyOf(t.init) == KeyOf(u.init) && t.mutation == u.mutation
    requires Scoped(KeyOf(t.init)) in w.store.objects
    ensures RunTask(w, t) == RunTask(w, u)
  {
    assert Plan(w.store, t.init, t.mutation) == Plan(w.store, u.init, u.mutation);
  }
}
