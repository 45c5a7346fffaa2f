/** One reconcile of either custom resource as a machine that makes one API call per step. */
module Runs {
  import opened Kubernetes
  import opened ApiStore
  import opened Tasks
  import Bindings
  import CC = ConsoleChildren
  import CD = ControllerDeployment
  import ConsoleService
  import ControllerService
  import ConfigMaps
  import GatewayChildren

  const GATEWAY_FINALIZER: string := "higressgateway.higress.io/finalizer"
  const CONTROLLER_FINALIZER: string := "higresscontroller.higress.io/finalizer"
  const GATEWAY_ROLE: string := "higress-gateway"
  const CONTROLLER_ROLE: string := "higress-controller"

  // ---- The instance ----

  function Finalizer(cr: CR): string {
    if cr.spec.GatewaySpec? then GATEWAY_FINALIZER else CONTROLLER_FINALIZER
  }

  function AccountName(cr: CR): string {
    if cr.account.Some? && cr.account.value.name != "" then cr.account.value.name else cr.meta.name
  }

  /** The name of the shared ClusterRoleBinding. */
  function BindingName(cr: CR): string {
    if cr.spec.GatewaySpec? then AccountName(cr) else cr.meta.ns + "-" + AccountName(cr)
  }

  function BindingKey(cr: CR): Key {
    Key(ClusterRoleBindingKind, "", BindingName(cr))
  }

  function OwnSubject(cr: CR): Subject {
    Bindings.AccountSubject(AccountName(cr), cr.meta.ns)
  }

  function AccountOn(cr: CR): bool {
    cr.account.None? || cr.account.value.enable
  }

  function RbacOn(cr: CR): bool {
    (cr.rbac.None? || cr.rbac.value) && AccountOn(cr)
  }

  /** A gateway cleans its binding whatever its flags say, a controller only while they are on. */
  function CleansUp(cr: CR): bool {
    cr.spec.GatewaySpec? || RbacOn(cr)
  }

  function GatewayDefaults(f: GatewayFields, meta: Meta): GatewayFields {
    f.(replicas := if f.replicas.None? then Some(1) else f.replicas,
       selectorLabels := if f.selectorLabels == map[]
                         then map["app" := meta.name, "higress" := meta.ns + "-" + meta.name] else f.selectorLabels,
       service := if f.service.None?
                  then Some(ServiceParams("LoadBalancer",
                      [ServicePort("http2", "TCP", 80, 80), ServicePort("https", "TCP", 443, 443)], "", [], ""))
                  else f.service,
       skywalking := if f.skywalking.None? then Some(Skywalking(false, "")) else f.skywalking)
  }

  function ControllerDefaults(f: ControllerFields): ControllerFields {
    f.(selectorLabels := if f.selectorLabels == map[] then map["app" := f.controller.name] else f.selectorLabels)
  }

  function SetDefaults(cr: CR): CR {
    cr.(rbac := if cr.rbac.None? then Some(true) else cr.rbac,
        account := if cr.account.None? then Some(AccountParams(true, cr.meta.name, map[])) else cr.account,
        spec := match cr.spec
                case GatewaySpec(f) => GatewaySpec(GatewayDefaults(f, cr.meta))
                case ControllerSpec(f) => ControllerSpec(ControllerDefaults(f)))
  }

  lemma DefaultsTwice(cr: CR)
    ensures SetDefaults(SetDefaults(cr)) == SetDefaults(cr)
    ensures SetDefaults(WithFinalizer(SetDefaults(cr))) == WithFinalizer(SetDefaults(cr))
  {
  }

  lemma DefaultsKeep(cr: CR)
    ensures var d := SetDefaults(cr);
            && d.meta == cr.meta && d.deleting == cr.deleting && d.deployed == cr.deployed
            && d.finalizers == cr.finalizers && d.spec.GatewaySpec? == cr.spec.GatewaySpec?
            && Finalizer(d) == Finalizer(cr)
  {
  }

  // ---- The children ----

  /** A custom resource definition read from the manifests. */
  datatype Manifest = Manifest(name: string, spec: Literal)

  /** What one run finds outside the store: the iteration orders, one per build, and the manifests. */
  datatype Choice = Choice(
    gatewayInit: seq<string>, gateway: seq<string>, first: CD.Orders, second: CD.Orders,
    consoleInit: seq<string>, console: seq<string>, manifests: seq<Manifest>)

  function Owner(cr: CR): Option<Key> {
    Some(KeyOfCR(cr))
  }

  function Child(cr: CR, name: string): Meta {
    Meta(name, cr.meta.ns, cr.meta.labels, cr.meta.annotations)
  }

  function Unlabelled(ns: string, name: string): Meta {
    Meta(name, ns, None, map[])
  }

  /** A service account has the annotations of the instance's account section, not the instance's own. */
  function AccountMeta(cr: CR, name: string): Meta {
    Meta(name, cr.meta.ns, cr.meta.labels, if cr.account.Some? then cr.account.value.annotations else map[])
  }

  function AccountObj(cr: CR): Obj {
    ServiceAccount(AccountMeta(cr, AccountName(cr)), Owner(cr))
  }

  function RoleName(cr: CR): string {
    if cr.spec.GatewaySpec? then GATEWAY_ROLE else CONTROLLER_ROLE
  }

  function ClusterRoleName(cr: CR): string {
    match cr.spec
    case GatewaySpec(_) => GATEWAY_ROLE
    case ControllerSpec(f) => cr.meta.ns + "-" + f.controller.name
  }

  function Rules(cr: CR): Literal {
    if cr.spec.GatewaySpec? then Literal("gateway rules") else Literal("controller rules")
  }

  function ClusterRoleRef(cr: CR): RoleRef {
    RoleRef("ClusterRole", ClusterRoleName(cr), Bindings.API_GROUP)
  }

  function NamespacedRoleRef(cr: CR): RoleRef {
    RoleRef("Role", RoleName(cr), Bindings.API_GROUP)
  }

  function RoleBindingName(cr: CR): string {
    if cr.spec.GatewaySpec? then GATEWAY_ROLE else AccountName(cr)
  }

  /** The gateway first builds its RoleBinding with a reference to a Role named after the account, which
      nobody creates; the mutate step replaces it before anything is written. */
  function InitialRoleRef(cr: CR): RoleRef {
    if cr.spec.GatewaySpec? then RoleRef("Role", AccountName(cr), Bindings.API_GROUP) else NamespacedRoleRef(cr)
  }

  function RbacTasks(cr: CR): seq<Task> {
    if !RbacOn(cr) then []
    else
      [ Ensure(ClusterRole(Unlabelled("", ClusterRoleName(cr)), Rules(cr)), SetRules(Rules(cr))),
        Ensure(ClusterRoleBinding(Unlabelled("", BindingName(cr)), ClusterRoleRef(cr), [OwnSubject(cr)]),
               Bind(ClusterRoleRef(cr), OwnSubject(cr))),
        Ensure(Role(Unlabelled(cr.meta.ns, RoleName(cr)), Rules(cr)), SetRules(Rules(cr))),
        Ensure(RoleBinding(Unlabelled(cr.meta.ns, RoleBindingName(cr)), InitialRoleRef(cr), [OwnSubject(cr)]),
               Bind(NamespacedRoleRef(cr), OwnSubject(cr))) ]
  }

  function Settings(cr: CR): ConfigMaps.Settings {
    match cr.spec
    case GatewaySpec(f) =>
      ConfigMaps.Settings(cr.meta.name, cr.meta.ns, f.istio, f.istioNamespace, f.istioAPI, f.networks, None)
    case ControllerSpec(f) =>
      ConfigMaps.Settings(cr.meta.name, cr.meta.ns, f.istio, f.istioNamespace, true, f.networks, Some(f.higress))
  }

  function MeshOf(cr: CR): MeshConfig {
    match cr.spec case GatewaySpec(f) => f.mesh case ControllerSpec(f) => f.mesh
  }

  /** Initialised with the first build, mutated with the second. */
  function ConfigTask(cr: CR): Task {
    Ensure(ConfigMap(Child(cr, "cm-" + cr.meta.name).(annotations := map[]), ConfigMaps.Data(Settings(cr), MeshOf(cr))),
           SetData(ConfigMaps.SettledData(Settings(cr), MeshOf(cr))))
  }

  function GatewayBuild(cr: CR): GatewayChildren.Build
    requires cr.spec.GatewaySpec?
  {
    GatewayChildren.Build(
      cr.meta, if AccountOn(cr) && cr.account.Some? then cr.account.value.name else "", cr.spec.gateway)
  }

  function GatewayDeploymentTask(cr: CR, c: Choice): Task
    requires cr.spec.GatewaySpec?
  {
    Ensure(Deployment(Child(cr, cr.meta.name), Owner(cr),
        GatewayChildren.DeploymentOf(GatewayBuild(cr), c.gatewayInit)),
           SetDeployment(GatewayChildren.DeploymentOf(GatewayBuild(cr), c.gateway)))
  }

  /** The init function already panics when it has to label an instance without labels. */
  function GatewayServiceTask(cr: CR): Task
    requires cr.spec.GatewaySpec?
  {
    var f := cr.spec.gateway;
    match GatewayChildren.ServiceLabels(cr.meta.labels, f)
    case None => Crash
    case Some(l) =>
      Ensure(Service(Child(cr, cr.meta.name).(labels := l), Owner(cr),
          GatewayChildren.ServiceOf(EMPTY_SERVICE, f)),
             SetGatewayService(f))
  }

  /** With Skywalking on, the second config map is written through a nil map, or refused for lack of a
      bootstrap script: the run never gets past it. */
  function GatewayProgram(cr: CR, c: Choice): seq<Task>
    requires cr.spec.GatewaySpec?
  {
    [CreateOnly(AccountObj(cr))] + RbacTasks(cr) + [ConfigTask(cr)]
    + (if GatewayChildren.SkywalkingOn(cr.spec.gateway) then [Crash] else [])
    + [GatewayDeploymentTask(cr, c), GatewayServiceTask(cr)]
  }

  function ControllerBuild(cr: CR): CD.Build
    requires cr.spec.ControllerSpec?
  {
    CD.Build(cr.meta, AccountName(cr), cr.spec.controller)
  }

  function ControllerDeploymentTask(cr: CR, c: Choice): Task
    requires cr.spec.ControllerSpec?
  {
    DeployController(Key(DeploymentKind, cr.meta.ns, cr.spec.controller.controller.name), KeyOfCR(cr),
                     Child(cr, cr.meta.name).(annotations := map[]), ControllerBuild(cr), c.first, c.second)
  }

  function IngressTask(cr: CR): Task
    requires cr.spec.ControllerSpec?
  {
    var name := cr.spec.controller.ingressClass;
    EnsureIfMissing(IngressClass(Child(cr, name).(annotations := map[]), Owner(cr), "icks.io/" + name),
        SetIngress("icks.io/" + name))
  }

  function ControllerServiceTask(cr: CR): Task
    requires cr.spec.ControllerSpec?
  {
    var f := cr.spec.controller;
    Ensure(Service(Child(cr, cr.meta.name).(annotations := map[]), Owner(cr),
                   ControllerService.Update(EMPTY_SERVICE, f)),
           SetControllerService(f))
  }

  function DefinitionTask(m: Manifest): Task {
    Ensure(Definition(Unlabelled("", m.name), m.spec), SetDefinition(m.spec))
  }

  function DefinitionTasks(c: Choice): seq<Task> {
    seq(|c.manifests|, i requires 0 <= i < |c.manifests| => DefinitionTask(c.manifests[i]))
  }

  function ControllerProgram(cr: CR, c: Choice): seq<Task>
    requires cr.spec.ControllerSpec?
  {
    DefinitionTasks(c) + (if AccountOn(cr) then [CreateOnly(AccountObj(cr))] else []) + RbacTasks(cr)
    + [ConfigTask(cr), ControllerDeploymentTask(cr, c), IngressTask(cr), ControllerServiceTask(cr)]
  }

  function Program(cr: CR, c: Choice): seq<Task> {
    if cr.spec.GatewaySpec? then GatewayProgram(cr, c) else ControllerProgram(cr, c)
  }

  // ---- The console ----

  predicate HasConsole(cr: CR) {
    cr.spec.ControllerSpec? && cr.spec.controller.console.name != ""
  }

  function ConsoleName(cr: CR): string
    requires HasConsole(cr)
  {
    cr.spec.controller.console.name
  }

  /** The console's ClusterRoleBinding is named by the controllers' scheme, whatever account the controller has. */
  function ConsoleBindingName(cr: CR): string
    requires HasConsole(cr)
  {
    cr.meta.ns + "-" + ConsoleName(cr)
  }

  function ConsoleSubject(cr: CR): Subject
    requires HasConsole(cr)
  {
    Bindings.AccountSubject(ConsoleName(cr), cr.meta.ns)
  }

  function ConsoleRoleRef(cr: CR): RoleRef
    requires HasConsole(cr)
  {
    RoleRef("ClusterRole", ConsoleName(cr) + "-" + cr.meta.ns, Bindings.API_GROUP)
  }

  const CONSOLE_RULES: Literal := Literal("console rules")

  /** Not guarded by the RBAC flags. The cluster-scoped objects are built with a namespace, and the rules of the
      ClusterRole are replaced by those of the Role before anything is written. */
  function ConsoleRbacTasks(cr: CR): (todo: seq<Task>)
    requires HasConsole(cr)
    ensures |todo| == 4
  {
    var ns, name := cr.meta.ns, ConsoleName(cr);
    [ Ensure(ClusterRole(Unlabelled(ns, name + "-" + ns), Literal("console cluster rules")), SetRules(CONSOLE_RULES)),
      Ensure(ClusterRoleBinding(Unlabelled(ns, ConsoleBindingName(cr)), ConsoleRoleRef(cr), [ConsoleSubject(cr)]),
             Bind(ConsoleRoleRef(cr), ConsoleSubject(cr))),
      Ensure(Role(Unlabelled(ns, name), CONSOLE_RULES), SetRules(CONSOLE_RULES)),
      Ensure(RoleBinding(Unlabelled(ns, name), RoleRef("Role", name, Bindings.API_GROUP),
                         [Bindings.AccountSubject(name + "-" + ns, ns)]),
             Bind(RoleRef("Role", name, Bindings.API_GROUP), Bindings.AccountSubject(name + "-" + ns, ns))) ]
  }

  function ConsoleBuild(cr: CR): CC.Build
    requires cr.spec.ControllerSpec?
  {
    CC.Build(cr.meta, cr.spec.controller)
  }

  function ConsoleParams(cr: CR): ConsoleService.ConsoleParams
    requires cr.spec.ControllerSpec?
  {
    ConsoleService.ConsoleParams(cr.spec.controller.console.selectorLabels, cr.spec.controller.service)
  }

  function ConsoleAccountObj(cr: CR): Obj
    requires HasConsole(cr)
  {
    ServiceAccount(AccountMeta(cr, ConsoleName(cr)), None)
  }

  function ConsoleConfigTask(cr: CR): Task
    requires HasConsole(cr)
  {
    Ensure(ConfigMap(Child(cr, ConsoleName(cr)).(annotations := map[]), CC.InitialConfig(cr.spec.controller)),
           SetConsoleData(cr.spec.controller))
  }

  function ConsoleDeploymentTask(cr: CR, c: Choice): Task
    requires HasConsole(cr)
  {
    Ensure(Deployment(Child(cr, ConsoleName(cr)).(annotations := map[]), Owner(cr),
                      CC.UpdateSpec(EMPTY_SPEC, ConsoleBuild(cr), c.consoleInit)),
           MergeConsole(ConsoleBuild(cr), c.console))
  }

  function ConsoleServiceTask(cr: CR): Task
    requires HasConsole(cr)
  {
    Ensure(Service(Child(cr, ConsoleName(cr)).(annotations := map[]), Owner(cr),
                   ConsoleService.Update(EMPTY_SERVICE, ConsoleParams(cr))),
           SetConsoleService(ConsoleParams(cr)))
  }

  /** What a controller's run does after the status update. */
  function ConsoleProgram(cr: CR, c: Choice): seq<Task> {
    if !HasConsole(cr) then []
    else ConsoleRbacTasks(cr) + (if AccountOn(cr) then [CreateOnly(ConsoleAccountObj(cr))] else [])
         + [ConsoleConfigTask(cr), ConsoleDeploymentTask(cr, c), ConsoleServiceTask(cr)]
  }

  // ---- The machine ----

  datatype Phase =
    | Fetch
    | CheckNamespace(cr: CR, version: nat)
    | PersistFinalizer(cr: CR, version: nat)
    | Working(cr: CR, version: nat, todo: seq<Task>, later: Option<seq<Task>>)
    | MarkDeployed(cr: CR, version: nat, console: seq<Task>)
    | ReadBinding(cr: CR, version: nat)
    | WriteBinding(cr: CR, version: nat, existing: Obj, bindingVersion: nat)
    | DropFinalizer(cr: CR, version: nat)
    | Done(ok: bool)

  /** What is left after the status update. */
  function StartConsole(cr: CR, version: nat, console: seq<Task>): Phase {
    if console == [] then Done(true)
    else if console[0].Crash? then Done(false)
    else Working(cr, version, console, None)
  }

  /** The next phase with these tasks left. Before the status update `later` has the console's tasks, for
      afterwards; after it, nothing. */
  function Advance(cr: CR, version: nat, todo: seq<Task>, later: Option<seq<Task>>): Phase {
    if todo != [] then (if todo[0].Crash? then Done(false) else Working(cr, version, todo, later))
    else
      match later
      case None => Done(true)
      case Some(console) =>
        if cr.deployed then StartConsole(cr, version, console) else MarkDeployed(cr, version, console)
  }

  function AfterTask(cr: CR, version: nat, todo: seq<Task>, later: Option<seq<Task>>, step: TaskStep): Phase
    requires todo != []
  {
    match step
    case More(t) => Working(cr, version, [t] + todo[1..], later)
    case Finished(ok) => if ok then Advance(cr, version, todo[1..], later) else Done(false)
  }

  /** A run begins its work. */
  function StartWork(cr: CR, version: nat, c: Choice): Phase {
    Advance(cr, version, Program(cr, c), Some(ConsoleProgram(cr, c)))
  }

  function OnFetch(s: Store, key: Key): Phase {
    if key !in s.objects || !s.objects[key].obj.CustomResource? then Done(true)
    else
      var cr := SetDefaults(s.objects[key].obj.cr);
      var version := s.objects[key].version;
      if !cr.deleting then CheckNamespace(cr, version)
      else if Finalizer(cr) !in cr.finalizers then Done(true)
      else if CleansUp(cr) then ReadBinding(cr, version)
      else DropFinalizer(cr, version)
  }

  ghost predicate NamespaceActive(s: Store, ns: string) {
    var k := Key(NamespaceKind, "", ns);
    k in s.objects && s.objects[k].obj.Namespace? && !s.objects[k].obj.terminating
  }

  function OnNamespace(s: Store, cr: CR, version: nat, c: Choice): Phase {
    var key := Key(NamespaceKind, "", cr.meta.ns);
    if key !in s.objects || !s.objects[key].obj.Namespace? || s.objects[key].obj.terminating then Done(true)
    else if Finalizer(cr) in cr.finalizers then StartWork(cr, version, c)
    else PersistFinalizer(cr, version)
  }

  function WithFinalizer(cr: CR): CR {
    cr.(finalizers := cr.finalizers + {Finalizer(cr)})
  }

  function WithoutFinalizer(cr: CR): CR {
    cr.(finalizers := cr.finalizers - {Finalizer(cr)})
  }

  /** The binding after the finalizer's loop. */
  function Cleaned(o: Obj, cr: CR): Obj
    requires o.ClusterRoleBinding?
  {
    ClusterRoleBinding(o.meta, o.roleRef, Bindings.RemoveSubject(o.subjects, AccountName(cr), cr.meta.ns))
  }

  /** One successful API call. */
  function Call(s: Store, key: Key, ph: Phase, c: Choice): (Store, Phase) {
    match ph
    case Fetch => (s, OnFetch(s, key))
    case CheckNamespace(cr, version) => (s, OnNamespace(s, cr, version, c))
    case PersistFinalizer(cr, version) =>
      (match Update(s, CustomResource(WithFinalizer(cr)), version)
       case Ok(s') => (s', StartWork(WithFinalizer(cr), s.next, c))
       case Err(_) => (s, Done(false)))
    case Working(cr, version, todo, later) =>
      if todo == [] then (s, Done(false))
      else
        var (s', step) := TaskCall(s, todo[0]);
        (s', AfterTask(cr, version, todo, later, step))
    case MarkDeployed(cr, version, console) =>
      (match UpdateStatus(s, key, true, version)
       case Ok(s') => (s', Advance(cr, version, console, None))
       case Err(_) => (s, Done(false)))
    case ReadBinding(cr, version) =>
      var bk := BindingKey(cr);
      if bk !in s.objects || !s.objects[bk].obj.ClusterRoleBinding? then (s, Done(false))
      else (s, WriteBinding(cr, version, s.objects[bk].obj, s.objects[bk].version))
    case WriteBinding(cr, version, existing, bindingVersion) =>
      if !existing.ClusterRoleBinding? then (s, Done(false))
      else
        (match Update(s, Cleaned(existing, cr), bindingVersion)
         case Ok(s') => (s', DropFinalizer(cr, version))
         case Err(_) => (s, Done(false)))
    case DropFinalizer(cr, version) =>
      (match Update(s, CustomResource(WithoutFinalizer(cr)), version)
       case Ok(s') => (s', Done(true))
       case Err(_) => (s, Done(false)))
    case Done(_) => (s, ph)
  }

  /** A failed API call ends the run, except where the code goes on or reports success. */
  function OnFault(ph: Phase): Phase {
    match ph
    case CheckNamespace(_, _) => Done(true)
    case Working(cr, version, todo, later) =>
      if todo == [] then Done(false) else AfterTask(cr, version, todo, later, TaskFault(todo[0]))
    case Done(_) => ph
    case _ => Done(false)
  }

  function PhaseRank(ph: Phase): nat {
    match ph
    case Fetch => 9
    case CheckNamespace(_, _) => 8
    case PersistFinalizer(_, _) => 7
    case Working(_, _, _, later) => if later.Some? then 6 else 4
    case MarkDeployed(_, _, _) => 5
    case ReadBinding(_, _) => 3
    case WriteBinding(_, _, _, _) => 2
    case DropFinalizer(_, _) => 1
    case Done(_) => 0
  }

  function TodoRank(todo: seq<Task>): nat {
    if todo == [] then 0 else TaskRank(todo[0]) + TodoRank(todo[1..])
  }

  function WorkRank(ph: Phase): nat {
    if ph.Working? then TodoRank(ph.todo) else 0
  }

  predicate Closer(ph': Phase, ph: Phase) {
    PhaseRank(ph') < PhaseRank(ph) || (PhaseRank(ph') == PhaseRank(ph) && WorkRank(ph') < WorkRank(ph))
  }

  lemma AdvanceDescends(cr: CR, version: nat, todo: seq<Task>, later: Option<seq<Task>>)
    ensures var ph := Advance(cr, version, todo, later);
            || PhaseRank(ph) < (if later.Some? then 6 else 4)
            || (PhaseRank(ph) == (if later.Some? then 6 else 4) && ph.Working? && ph.todo == todo)
  {
  }

  lemma AfterTaskDescends(cr: CR, version: nat, todo: seq<Task>, later: Option<seq<Task>>, step: TaskStep)
    requires todo != [] && (step.More? ==> TaskRank(step.task) < TaskRank(todo[0]))
    ensures Closer(AfterTask(cr, version, todo, later, step), Working(cr, version, todo, later))
  {
    if step.More? {
      assert ([step.task] + todo[1..])[1..] == todo[1..];
    } else {
      AdvanceDescends(cr, version, todo[1..], later);
    }
  }

  lemma TaskDescends(s: Store, t: Task)
    ensures TaskCall(s, t).1.More? ==> TaskRank(TaskCall(s, t).1.task) < TaskRank(t)
    ensures TaskFault(t).More? ==> TaskRank(TaskFault(t).task) < TaskRank(t)
  {
    hide Apply, CD.UpdateSpec;
  }

  /** Every call brings a run closer to its end, whatever becomes of it. */
  lemma StepsDescend(s: Store, key: Key, ph: Phase, c: Choice)
    requires !ph.Done?
    ensures Closer(Call(s, key, ph, c).1, ph) && Closer(OnFault(ph), ph)
  {
    hide Program, ConsoleProgram, TaskCall, TaskFault, Apply;
    match ph
    case Working(cr, version, todo, later) =>
      if todo != [] {
        TaskDescends(s, todo[0]);
        AfterTaskDescends(cr, version, todo, later, TaskCall(s, todo[0]).1);
        AfterTaskDescends(cr, version, todo, later, TaskFault(todo[0]));
      }
    case CheckNamespace(cr, version) => AdvanceDescends(cr, version, Program(cr, c), Some(ConsoleProgram(cr, c)));
    case PersistFinalizer(cr, version) =>
      var cr' := WithFinalizer(cr);
      AdvanceDescends(cr', s.next, Program(cr', c), Some(ConsoleProgram(cr', c)));
    case MarkDeployed(cr, version, console) => AdvanceDescends(cr, version, console, None);
    case _ =>
  }

  /** A run with nobody else acting, to its end: the world it leaves and whether it reported success. */
  function RunToEnd(w: World, key: Key, ph: Phase, c: Choice): (World, bool)
    decreases PhaseRank(ph), WorkRank(ph)
  {
    if ph.Done? then (w, ph.ok)
    else
      StepsDescend(w.store, key, ph, c);
      var (s', ph') := Call(w.store, key, ph, c);
      if Faulty(w) then RunToEnd(Struck(w, s'), key, OnFault(ph), c)
      else RunToEnd(Tick(w).(store := s'), key, ph', c)
  }

  function Reconcile(w: World, key: Key, c: Choice): (World, bool) {
    RunToEnd(w, key, Fetch, c)
  }

  /** A resource that is not there is left alone, and that is a success unless it cannot be read. */
  lemma MissingResource(w: World, key: Key, c: Choice)
    requires key !in w.store.objects
    ensures Reconcile(w, key, c) == (Tick(w), !Faulty(w))
  {
    hide Program, ConsoleProgram;
    assert Tick(w).(store := w.store) == Tick(w);
    assert !Faulty(w) ==> Reconcile(w, key, c) == RunToEnd(Tick(w).(store := w.store), key, Done(true), c);
  }

  /** The steps of one task add up to `RunTask`. */
  lemma {:induction false} TaskSteps(
      w: World, key: Key, cr: CR, version: nat, todo: seq<Task>, later: Option<seq<Task>>, c: Choice)
    requires todo != [] && !todo[0].Crash?
    ensures RunToEnd(w, key, Working(cr, version, todo, later), c) ==
            var (w', ok) := RunTask(w, todo[0]);
            if ok then RunToEnd(w', key, Advance(cr, version, todo[1..], later), c) else (w', false)
    decreases TaskRank(todo[0])
  {
    hide Program, ConsoleProgram, CD.UpdateSpec, Apply, TaskCall;
    var (s', step) := TaskCall(w.store, todo[0]);
    var w' := Tick(w).(store := s');
    if Faulty(w) {
      step, w' := TaskFault(todo[0]), Struck(w, s');
    }
    if step.More? {
      TaskDescends(w.store, todo[0]);
      var rest := [step.task] + todo[1..];
      assert rest[1..] == todo[1..] && rest[0] == step.task;
      NoCrashNext(w.store, todo[0]);
      TaskSteps(w', key, cr, version, rest, later, c);
    }
  }

  lemma NoCrashNext(s: Store, t: Task)
    ensures TaskCall(s, t).1.More? ==> !TaskCall(s, t).1.task.Crash?
    ensures TaskFault(t).More? ==> !TaskFault(t).task.Crash?
  {
    hide Apply, CD.UpdateSpec;
  }

  /** Interleaving aside, the machine and the straight-line tasks are the same thing. */
  lemma {:induction false} WorkingSteps(
      w: World, key: Key, cr: CR, version: nat, todo: seq<Task>, later: Option<seq<Task>>, c: Choice)
    ensures RunToEnd(w, key, Advance(cr, version, todo, later), c) ==
            var (w', ok) := RunTasks(w, todo);
            if ok then RunToEnd(w', key, Advance(cr, version, [], later), c) else (w', false)
    decreases |todo|
  {
    hide Program, ConsoleProgram, RunTask, Call, OnFault;
    if todo != [] {
      if todo[0].Crash? {
        CrashRun(w, todo[0]);
      } else {
        TaskSteps(w, key, cr, version, todo, later, c);
        var (w', ok) := RunTask(w, todo[0]);
        if ok {
          WorkingSteps(w', key, cr, version, todo[1..], later, c);
        }
      }
    }
  }

  lemma CrashRun(w: World, t: Task)
    requires t.Crash?
    ensures RunTask(w, t) == (w, false)
  {
  }

  /** A failed look at the namespace ends a reconcile without an effect, and as a success. */
  lemma FailedNamespaceRead(w: World, key: Key, c: Choice)
    requires key in w.store.objects && w.store.objects[key].obj.CustomResource?
    requires !w.store.objects[key].obj.cr.deleting && !Faulty(w) && Faulty(Tick(w))
    ensures Reconcile(w, key, c) == (Tick(Tick(w)), true)
  {
    hide Program, ConsoleProgram, OnNamespace, SetDefaults;
    var cr, version := SetDefaults(w.store.objects[key].obj.cr), w.store.objects[key].version;
    DefaultsKeep(w.store.objects[key].obj.cr);
    assert Tick(w).(store := w.store) == Tick(w);
    assert Reconcile(w, key, c) == RunToEnd(Tick(w).(store := w.store), key, CheckNamespace(cr, version), c);
    NamespaceSteps(Tick(w), key, cr, version, c);
  }

  /** The read and the write of the finalizers. */
  function RunFinalize(w: World, cr: CR): (World, bool) {
    if Faulty(w) then (Tick(w), false)
    else
      var found := Read(w.store, BindingKey(cr));
      if found.Err? || !found.value.obj.ClusterRoleBinding? then (Tick(w), false)
      else RunWrite(Tick(w), Update(w.store, Cleaned(found.value.obj, cr), found.value.version))
  }

  lemma FinalizeSteps(w: World, key: Key, cr: CR, version: nat, c: Choice)
    ensures RunToEnd(w, key, ReadBinding(cr, version), c) ==
            var (w', ok) := RunFinalize(w, cr);
            if ok then RunToEnd(w', key, DropFinalizer(cr, version), c) else (w', false)
  {
    hide Program, ConsoleProgram, Update;
    if !Faulty(w) {
      var (s', ph) := Call(w.store, key, ReadBinding(cr, version), c);
      var w' := Tick(w).(store := s');
      assert w' == Tick(w);
      assert RunToEnd(w, key, ReadBinding(cr, version), c) == RunToEnd(w', key, ph, c);
    }
  }

  lemma NamespaceSteps(w: World, key: Key, cr: CR, version: nat, c: Choice)
    ensures RunToEnd(w, key, CheckNamespace(cr, version), c) ==
            var next := OnNamespace(w.store, cr, version, c);
            if Faulty(w) || next == Done(true) then (Tick(w), true)
            else RunToEnd(Tick(w), key, next, c)
  {
    hide OnNamespace;
    assert !Faulty(w) ==> RunToEnd(w, key, CheckNamespace(cr, version), c)
                          == RunToEnd(Tick(w).(store := w.store), key, OnNamespace(w.store, cr, version, c), c);
    assert Tick(w).(store := w.store) == Tick(w);
  }

  lemma DropSteps(w: World, key: Key, cr: CR, version: nat, c: Choice)
    ensures RunToEnd(w, key, DropFinalizer(cr, version), c)
         == RunWrite(w, Update(w.store, CustomResource(WithoutFinalizer(cr)), version))
  {
    hide Program, ConsoleProgram, Update;
  }

  /** The status update and what follows it. */
  lemma MarkSteps(w: World, key: Key, cr: CR, version: nat, console: seq<Task>, c: Choice)
    ensures RunToEnd(w, key, MarkDeployed(cr, version, console), c) ==
            var (w', ok) := RunWrite(w, UpdateStatus(w.store, key, true, version));
            if ok then RunTasks(w', console) else (w', false)
  {
    hide Program, ConsoleProgram, RunTasks, UpdateStatus;
    var (w', ok) := RunWrite(w, UpdateStatus(w.store, key, true, version));
    if ok {
      ConsoleSteps(w', key, cr, version, console, c);
    }
  }

  lemma ConsoleSteps(w: World, key: Key, cr: CR, version: nat, console: seq<Task>, c: Choice)
    ensures RunToEnd(w, key, Advance(cr, version, console, None), c) == RunTasks(w, console)
  {
    hide RunTasks, Call, OnFault;
    WorkingSteps(w, key, cr, version, console, None, c);
  }
}
