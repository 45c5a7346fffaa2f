/** The objects behind role references and behind the reported status, over all executions. */
module ProtocolChildren {
  import opened Kubernetes
  import opened ApiStore
  import opened Tasks
  import opened Runs
  import opened Protocol
  import CD = ControllerDeployment
  import GatewayChildren

  // ---- What a list of tasks will have ensured ----

  /** Whether the task cannot succeed without leaving an object under `k`. A crash never succeeds. */
  predicate Makes(t: Task, k: Key) {
    match t
    case CreateOnly(o) => Scoped(KeyOf(o)) == k
    case Ensure(init, _) => Scoped(KeyOf(init)) == k
    case FinishWrite(w) => Scoped(KeyOf(w.obj)) == k
    case Crash => true
    case _ => false
  }

  ghost predicate WillMake(todo: seq<Task>, k: Key) {
    exists j :: 0 <= j < |todo| && Makes(todo[j], k)
  }

  lemma TaskMakes(s: Store, cr: CR, t: Task, late: bool, k: Key)
    requires Sound(s) && TaskOk(s, cr, t, late) && Makes(t, k)
    ensures var (s', step) := TaskCall(s, t);
            && (step == Finished(true) ==> k in s'.objects)
            && (step.More? ==> Makes(step.task, k))
    ensures !TaskFault(t).More? && TaskFault(t) != Finished(true)
  {
    hide Apply, Perform;
    match t
    case CreateOnly(o) => CreateEffect(s, o);
    case Ensure(init, m) => PlanOk(s, cr, init, m, late);
    case FinishWrite(w) =>
      if Perform(s, w).Ok? {
        PerformIsChildWrite(s, cr, w, late, Key(GatewayKind, "", ""));
      }
    case Crash =>
  }

  lemma WillMakeConcat(a: seq<Task>, b: seq<Task>, k: Key)
    ensures WillMake(a, k) || WillMake(b, k) ==> WillMake(a + b, k)
  {
    if WillMake(a, k) {
      var j :| 0 <= j < |a| && Makes(a[j], k);
      assert (a + b)[j] == a[j];
    }
    if WillMake(b, k) {
      var j :| 0 <= j < |b| && Makes(b[j], k);
      assert (a + b)[|a| + j] == b[j];
    }
  }

  // ---- Role references ----

  function RefTarget(ns: string, ref: RoleRef): Key {
    if ref.kind == "Role" then Key(RoleKind, ns, ref.name) else Key(ClusterRoleKind, "", ref.name)
  }

  predicate IsBinding(o: Obj) {
    o.ClusterRoleBinding? || o.RoleBinding?
  }

  /** The role that a binding refers to. */
  function BindingTarget(o: Obj): (k: Key)
    requires IsBinding(o)
    ensures !IsCRKind(k.kind)
  {
    RefTarget(Scoped(KeyOf(o)).ns, o.roleRef)
  }

  /** The role that the binding a task writes will refer to. */
  function Target(t: Task): Option<Key> {
    match t
    case Ensure(init, m) => if m.Bind? && IsBinding(init) then Some(RefTarget(Scoped(KeyOf(init)).ns, m.ref)) else None
    case FinishWrite(w) => if IsBinding(w.obj) then Some(BindingTarget(w.obj)) else None
    case _ => None
  }

  ghost predicate ReadyAt(s: Store, todo: seq<Task>, i: nat)
    requires i < |todo|
  {
    Target(todo[i]).Some? ==> Target(todo[i]).value in s.objects || WillMake(todo[..i], Target(todo[i]).value)
  }

  /** Every role is there before the binding that refers to it is written. */
  ghost predicate Ready(s: Store, todo: seq<Task>) {
    forall i :: 0 <= i < |todo| ==> ReadyAt(s, todo, i)
  }

  ghost predicate Pending(s: Store, cr: CR, todo: seq<Task>) {
    forall q :: q in Required(cr) ==> q in s.objects || WillMake(todo, q)
  }

  lemma TaskTarget(s: Store, cr: CR, t: Task, late: bool)
    requires Sound(s) && TaskOk(s, cr, t, late)
    ensures var step := TaskCall(s, t).1; step.More? && Target(step.task).Some? ==> Target(step.task) == Target(t)
    ensures TaskFault(t).More? ==> Target(TaskFault(t).task).None?
  {
    hide Apply, CD.UpdateSpec;
    match t
    case Ensure(init, m) =>
      if Plan(s, init, m).Commit? {
        PlannedTarget(s, init, m);
      }
    case DeployController(_, _, _, _, _, _) => DeployTarget(s, t);
    case _ =>
  }

  /** Only `Bind` writes bindings, and what it writes has the reference it was given. */
  lemma PlannedTarget(s: Store, init: Obj, m: Mutation)
    requires Sound(s) && Plan(s, init, m).Commit?
    ensures var o := Plan(s, init, m).write.obj;
            IsBinding(o) ==> IsBinding(init) && m.Bind? && BindingTarget(o) == RefTarget(Scoped(KeyOf(init)).ns, m.ref)
  {
    var k := Scoped(KeyOf(init));
    var start := if k in s.objects then s.objects[k].obj else init;
    hide CD.UpdateSpec;
    ApplyKeepsKey(m, start);
    assert KindOf(start) == KindOf(init);
  }

  lemma DeployTarget(s: Store, t: Task)
    requires t.DeployController?
    ensures TaskCall(s, t).1.More? ==> Target(TaskCall(s, t).1.task).None?
    ensures FreshDeployment(t).More? ==> Target(FreshDeployment(t).task).None?
  {
    hide CD.UpdateSpec;
  }

  lemma ReadyGrows(s: Store, s': Store, todo: seq<Task>)
    requires Ready(s, todo) && NothingLost(s, s')
    ensures Ready(s', todo)
  {
    forall i | 0 <= i < |todo| ensures ReadyAt(s', todo, i) {
      assert ReadyAt(s, todo, i);
    }
  }

  /** The first task is over, or replaced by what is left of it. */
  lemma ReadyMoves(s: Store, todo: seq<Task>, rest: seq<Task>)
    requires Ready(s, todo) && todo != []
    requires |rest| <= 1 && forall t :: t in rest ==> Target(t).Some? ==> Target(t) == Target(todo[0])
    requires forall k :: Makes(todo[0], k) ==> k in s.objects || WillMake(rest, k)
    ensures Ready(s, rest + todo[1..])
  {
    var moved := rest + todo[1..];
    forall i | 0 <= i < |moved| ensures ReadyAt(s, moved, i) {
      if i < |rest| {
        assert moved[i] == rest[0] && ReadyAt(s, todo, 0);
      } else {
        var o := i - |rest| + 1;
        assert moved[i] == todo[o] && ReadyAt(s, todo, o);
        assert moved[..i] == rest + todo[1..o];
        if Target(todo[o]).Some? && WillMake(todo[..o], Target(todo[o]).value) {
          WillMakeSplit(s, todo, rest, o, Target(todo[o]).value);
        }
      }
    }
  }

  lemma WillMakeSplit(s: Store, todo: seq<Task>, rest: seq<Task>, o: nat, k: Key)
    requires 0 < o <= |todo| && WillMake(todo[..o], k)
    requires Makes(todo[0], k) ==> k in s.objects || WillMake(rest, k)
    ensures k in s.objects || WillMake(rest + todo[1..o], k)
  {
    var j :| 0 <= j < o && Makes(todo[..o][j], k);
    if j > 0 {
      assert todo[1..o][j - 1] == todo[j];
    }
    WillMakeConcat(rest, todo[1..o], k);
  }

  lemma PendingMoves(s: Store, cr: CR, todo: seq<Task>, rest: seq<Task>)
    requires Pending(s, cr, todo) && todo != []
    requires forall k :: Makes(todo[0], k) ==> k in s.objects || WillMake(rest, k)
    ensures Pending(s, cr, rest + todo[1..])
  {
    assert todo[..|todo|] == todo && todo[1..|todo|] == todo[1..];
    forall q | q in Required(cr) ensures q in s.objects || WillMake(rest + todo[1..], q) {
      if q !in s.objects {
        WillMakeSplit(s, todo, rest, |todo|, q);
      }
    }
  }

  // ---- The programs are in order ----

  lemma ReadyConcat(s: Store, a: seq<Task>, b: seq<Task>)
    requires Ready(s, a) && Ready(s, b)
    ensures Ready(s, a + b)
  {
    forall i | 0 <= i < |a + b| ensures ReadyAt(s, a + b, i) {
      if i < |a| {
        assert (a + b)[..i] == a[..i] && ReadyAt(s, a, i);
      } else {
        var o := i - |a|;
        assert (a + b)[..i] == a + b[..o] && (a + b)[i] == b[o] && ReadyAt(s, b, o);
        if Target(b[o]).Some? {
          WillMakeConcat(a, b[..o], Target(b[o]).value);
        }
      }
    }
  }

  lemma RbacReady(s: Store, cr: CR)
    ensures Ready(s, RbacTasks(cr))
    ensures RbacOn(cr) ==> && WillMake(RbacTasks(cr), Key(ClusterRoleKind, "", ClusterRoleName(cr)))
                           && WillMake(RbacTasks(cr), BindingKey(cr))
                           && WillMake(RbacTasks(cr), Key(RoleKind, cr.meta.ns, RoleName(cr)))
                           && WillMake(RbacTasks(cr), Key(RoleBindingKind, cr.meta.ns, RoleBindingName(cr)))
  {
    if RbacOn(cr) {
      var todo := RbacTasks(cr);
      assert Makes(todo[..1][0], Key(ClusterRoleKind, "", ClusterRoleName(cr)));
      assert ReadyAt(s, todo, 1);
      assert Makes(todo[..3][2], Key(RoleKind, cr.meta.ns, RoleName(cr)));
      assert ReadyAt(s, todo, 3);
      assert Makes(todo[0], Key(ClusterRoleKind, "", ClusterRoleName(cr))) && Makes(todo[1], BindingKey(cr));
      assert Makes(todo[2], Key(RoleKind, cr.meta.ns, RoleName(cr)))
          && Makes(todo[3], Key(RoleBindingKind, cr.meta.ns, RoleBindingName(cr)));
    }
  }

  /** The tasks before and after the RBAC ones. */
  function Opening(cr: CR, c: Choice): seq<Task> {
    (if cr.spec.ControllerSpec? then DefinitionTasks(c) else [])
    + (if AccountOn(cr) || cr.spec.GatewaySpec? then [CreateOnly(AccountObj(cr))] else [])
  }

  function Closing(cr: CR, c: Choice): seq<Task> {
    if cr.spec.GatewaySpec?
    then [ConfigTask(cr)] + (if GatewayChildren.SkywalkingOn(cr.spec.gateway) then [Crash] else [])
         + [GatewayDeploymentTask(cr, c), GatewayServiceTask(cr)]
    else [ConfigTask(cr), ControllerDeploymentTask(cr, c), IngressTask(cr), ControllerServiceTask(cr)]
  }

  lemma ProgramShape(cr: CR, c: Choice)
    ensures Program(cr, c) == Opening(cr, c) + RbacTasks(cr) + Closing(cr, c)
  {
    if cr.spec.GatewaySpec? {
      GatewayShape(cr, c, RbacTasks(cr));
    } else {
      ControllerShape(cr, c, RbacTasks(cr));
    }
  }

  lemma GatewayShape(cr: CR, c: Choice, rbac: seq<Task>)
    requires cr.spec.GatewaySpec? && rbac == RbacTasks(cr)
    ensures GatewayProgram(cr, c) == Opening(cr, c) + rbac + Closing(cr, c)
  {
    hide RbacTasks, ConfigTask, GatewayDeploymentTask, GatewayServiceTask;
  }

  lemma ControllerShape(cr: CR, c: Choice, rbac: seq<Task>)
    requires cr.spec.ControllerSpec? && rbac == RbacTasks(cr)
    ensures ControllerProgram(cr, c) == Opening(cr, c) + rbac + Closing(cr, c)
  {
    hide RbacTasks, DefinitionTasks, ConfigTask, ControllerDeploymentTask, IngressTask, ControllerServiceTask;
  }

  lemma OpeningReady(s: Store, cr: CR, c: Choice)
    ensures Ready(s, Opening(cr, c))
    ensures AccountOn(cr) || cr.spec.GatewaySpec? ==> WillMake(Opening(cr, c), KeyOf(AccountObj(cr)))
  {
    forall i | 0 <= i < |Opening(cr, c)| ensures Target(Opening(cr, c)[i]).None? {
      if cr.spec.ControllerSpec? && i < |c.manifests| {
        assert Opening(cr, c)[i] == DefinitionTask(c.manifests[i]);
      }
    }
    if AccountOn(cr) || cr.spec.GatewaySpec? {
      assert Makes(Opening(cr, c)[|Opening(cr, c)| - 1], KeyOf(AccountObj(cr)));
    }
  }

  lemma ConfigReady(cr: CR)
    ensures Makes(ConfigTask(cr), Key(ConfigMapKind, cr.meta.ns, "cm-" + cr.meta.name)) && Target(ConfigTask(cr)).None?
  {
  }

  lemma GatewayChildrenReady(cr: CR, c: Choice)
    requires cr.spec.GatewaySpec?
    ensures Makes(GatewayDeploymentTask(cr, c), Key(DeploymentKind, cr.meta.ns, cr.meta.name))
        && Target(GatewayDeploymentTask(cr, c)).None?
    ensures Makes(GatewayServiceTask(cr), Key(ServiceKind, cr.meta.ns, cr.meta.name))
        && Target(GatewayServiceTask(cr)).None?
  {
  }

  lemma ControllerChildrenReady(cr: CR, c: Choice)
    requires cr.spec.ControllerSpec?
    ensures Makes(ControllerServiceTask(cr), Key(ServiceKind, cr.meta.ns, cr.meta.name))
        && Target(ControllerServiceTask(cr)).None?
    ensures Target(ControllerDeploymentTask(cr, c)).None? && Target(IngressTask(cr)).None?
  {
  }

  lemma ClosingReady(s: Store, cr: CR, c: Choice)
    ensures Ready(s, Closing(cr, c))
    ensures WillMake(Closing(cr, c), Key(ConfigMapKind, cr.meta.ns, "cm-" + cr.meta.name))
    ensures WillMake(Closing(cr, c), Key(ServiceKind, cr.meta.ns, cr.meta.name))
    ensures cr.spec.GatewaySpec? ==> WillMake(Closing(cr, c), Key(DeploymentKind, cr.meta.ns, cr.meta.name))
  {
    hide ConfigTask, GatewayDeploymentTask, GatewayServiceTask, ControllerDeploymentTask, IngressTask,
        ControllerServiceTask;
    var todo := Closing(cr, c);
    ConfigReady(cr);
    assert Makes(todo[0], Key(ConfigMapKind, cr.meta.ns, "cm-" + cr.meta.name));
    if cr.spec.GatewaySpec? {
      GatewayChildrenReady(cr, c);
      assert todo[|todo| - 2] == GatewayDeploymentTask(cr, c) && todo[|todo| - 1] == GatewayServiceTask(cr);
    } else {
      ControllerChildrenReady(cr, c);
      assert todo[3] == ControllerServiceTask(cr);
    }
  }

  lemma ThreeParts(s: Store, cr: CR, a: seq<Task>, r: seq<Task>, z: seq<Task>)
    requires Ready(s, a) && Ready(s, r) && Ready(s, z)
    requires forall q :: q in Required(cr) ==> WillMake(a, q) || WillMake(r, q) || WillMake(z, q)
    ensures Ready(s, a + r + z) && Pending(s, cr, a + r + z)
  {
    ReadyConcat(s, a, r);
    ReadyConcat(s, a + r, z);
    forall q | q in Required(cr) ensures WillMake(a + r + z, q) {
      WillMakeConcat(a, r, q);
      WillMakeConcat(a + r, z, q);
    }
  }

  lemma RequiredCovered(cr: CR, a: seq<Task>, r: seq<Task>, z: seq<Task>)
    requires AccountOn(cr) || cr.spec.GatewaySpec? ==> WillMake(a, KeyOf(AccountObj(cr)))
    requires RbacOn(cr) ==> && WillMake(r, Key(ClusterRoleKind, "", ClusterRoleName(cr))) && WillMake(r, BindingKey(cr))
                            && WillMake(r, Key(RoleKind, cr.meta.ns, RoleName(cr)))
                            && WillMake(r, Key(RoleBindingKind, cr.meta.ns, RoleBindingName(cr)))
    requires WillMake(z, Key(ConfigMapKind, cr.meta.ns, "cm-" + cr.meta.name))
    requires WillMake(z, Key(ServiceKind, cr.meta.ns, cr.meta.name))
    requires cr.spec.GatewaySpec? ==> WillMake(z, Key(DeploymentKind, cr.meta.ns, cr.meta.name))
    ensures forall q :: q in Required(cr) ==> WillMake(a, q) || WillMake(r, q) || WillMake(z, q)
  {
  }

  lemma ProgramReady(s: Store, cr: CR, c: Choice)
    ensures Ready(s, Program(cr, c)) && Pending(s, cr, Program(cr, c))
  {
    hide Program, Opening, RbacTasks, Closing, Required, Ready, Pending;
    ProgramShape(cr, c);
    OpeningReady(s, cr, c);
    RbacReady(s, cr);
    ClosingReady(s, cr, c);
    RequiredCovered(cr, Opening(cr, c), RbacTasks(cr), Closing(cr, c));
    ThreeParts(s, cr, Opening(cr, c), RbacTasks(cr), Closing(cr, c));
  }

  lemma ConsoleRbacReady(s: Store, cr: CR)
    requires HasConsole(cr)
    ensures Ready(s, ConsoleRbacTasks(cr))
  {
    var todo := ConsoleRbacTasks(cr);
    assert Makes(todo[..1][0], Key(ClusterRoleKind, "", ConsoleName(cr) + "-" + cr.meta.ns));
    assert ReadyAt(s, todo, 1);
    assert Makes(todo[..3][2], Key(RoleKind, cr.meta.ns, ConsoleName(cr)));
    assert ReadyAt(s, todo, 3);
  }

  lemma ConsoleTailReady(s: Store, cr: CR, c: Choice)
    requires HasConsole(cr)
    ensures Ready(s, if AccountOn(cr) then [CreateOnly(ConsoleAccountObj(cr))] else [])
    ensures Ready(s, [ConsoleConfigTask(cr), ConsoleDeploymentTask(cr, c), ConsoleServiceTask(cr)])
  {
  }

  lemma ConsoleReady(s: Store, cr: CR, c: Choice)
    ensures Ready(s, ConsoleProgram(cr, c))
  {
    if HasConsole(cr) {
      hide Ready, ConsoleRbacTasks, ConsoleConfigTask, ConsoleDeploymentTask, ConsoleServiceTask;
      var account := if AccountOn(cr) then [CreateOnly(ConsoleAccountObj(cr))] else [];
      ConsoleRbacReady(s, cr);
      ConsoleTailReady(s, cr, c);
      ReadyConcat(s, ConsoleRbacTasks(cr), account);
      ReadyConcat(s, ConsoleRbacTasks(cr) + account,
                  [ConsoleConfigTask(cr), ConsoleDeploymentTask(cr, c), ConsoleServiceTask(cr)]);
    }
  }

  // ---- Runs ----

  /** What a run has ensured so far, or is going to. */
  ghost predicate RunFull(s: Store, ph: Phase) {
    match ph
    case Working(cr, _, todo, later) =>
      Ready(s, todo) && (later.Some? ==> Pending(s, cr, todo) && Ready(s, later.value))
    case MarkDeployed(cr, _, console) => Ready(s, console) && forall q :: q in Required(cr) ==> q in s.objects
    case _ => true
  }

  lemma AdvanceFull(s: Store, cr: CR, version: nat, todo: seq<Task>, later: Option<seq<Task>>)
    requires Ready(s, todo) && (later.Some? ==> Pending(s, cr, todo) && Ready(s, later.value))
    ensures RunFull(s, Advance(cr, version, todo, later))
  {
    hide Ready, Required;
  }

  lemma StartFull(s: Store, cr: CR, version: nat, c: Choice)
    ensures RunFull(s, StartWork(cr, version, c))
  {
    hide Program, ConsoleProgram, RunFull, Ready, Pending;
    ProgramReady(s, cr, c);
    ConsoleReady(s, cr, c);
    AdvanceFull(s, cr, version, Program(cr, c), Some(ConsoleProgram(cr, c)));
  }

  lemma AfterTaskFull(s: Store, cr: CR, version: nat, todo: seq<Task>, later: Option<seq<Task>>, step: TaskStep)
    requires todo != [] && Ready(s, todo) && (later.Some? ==> Pending(s, cr, todo) && Ready(s, later.value))
    requires step.More? && Target(step.task).Some? ==> Target(step.task) == Target(todo[0])
    requires forall k :: Makes(todo[0], k) ==>
               (step == Finished(true) ==> k in s.objects) && (step.More? ==> Makes(step.task, k))
    ensures RunFull(s, AfterTask(cr, version, todo, later, step))
  {
    hide Ready, Pending, Target;
    if step.More? || step == Finished(true) {
      var rest := if step.More? then [step.task] else [];
      forall k | Makes(todo[0], k) ensures k in s.objects || WillMake(rest, k) {
        assert step.More? ==> Makes(rest[0], k);
      }
      ReadyMoves(s, todo, rest);
      if later.Some? {
        PendingMoves(s, cr, todo, rest);
      }
      assert [] + todo[1..] == todo[1..];
      if step == Finished(true) {
        AdvanceFull(s, cr, version, todo[1..], later);
      }
    }
  }

  lemma RunFullStable(s: Store, s': Store, ph: Phase)
    requires RunFull(s, ph) && NothingLost(s, s')
    ensures RunFull(s', ph)
  {
    hide Ready;
    match ph
    case Working(cr, _, todo, later) =>
      ReadyGrows(s, s', todo);
      if later.Some? {
        ReadyGrows(s, s', later.value);
        PendingGrows(s, s', cr, todo);
      }
    case MarkDeployed(cr, _, console) =>
      ReadyGrows(s, s', console);
      PendingGrows(s, s', cr, []);
    case _ =>
  }

  lemma PendingGrows(s: Store, s': Store, cr: CR, todo: seq<Task>)
    requires NothingLost(s, s')
    ensures forall q :: q in Required(cr) && q in s.objects ==> q in s'.objects
    ensures Pending(s, cr, todo) ==> Pending(s', cr, todo)
  {
    RequiredHasBasics(cr, cr);
    hide Required;
  }

  lemma CallFull(s: Store, key: Key, ph: Phase, c: Choice)
    requires Sound(s) && IsCRKind(key.kind) && RunOk(s, key, ph) && RunFull(s, ph)
    ensures RunFull(Call(s, key, ph, c).0, Call(s, key, ph, c).1)
  {
    match ph
    case CheckNamespace(cr, version) => NamespaceFull(s, cr, version, c);
    case PersistFinalizer(cr, version) => PersistFull(s, key, cr, version, c);
    case Working(_, _, _, _) => WorkFull(s, key, ph, c);
    case MarkDeployed(cr, version, console) => MarkFull(s, key, cr, version, console, c);
    case _ => OtherFull(s, key, ph, c);
  }

  lemma NamespaceFull(s: Store, cr: CR, version: nat, c: Choice)
    ensures RunFull(s, OnNamespace(s, cr, version, c))
  {
    hide StartWork;
    StartFull(s, cr, version, c);
  }

  lemma PersistFull(s: Store, key: Key, cr: CR, version: nat, c: Choice)
    ensures var (s', ph') := Call(s, key, PersistFinalizer(cr, version), c); RunFull(s', ph')
  {
    hide StartWork, Update;
    var cr' := WithFinalizer(cr);
    var r := Update(s, CustomResource(cr'), version);
    if r.Ok? {
      StartFull(r.value, cr', s.next, c);
    }
  }

  lemma MarkFull(s: Store, key: Key, cr: CR, version: nat, console: seq<Task>, c: Choice)
    requires Sound(s) && Ready(s, console)
    ensures var (s', ph') := Call(s, key, MarkDeployed(cr, version, console), c); RunFull(s', ph')
  {
    hide Ready;
    var r := UpdateStatus(s, key, true, version);
    if r.Ok? {
      assert NothingLost(s, r.value);
      ReadyGrows(s, r.value, console);
      AdvanceFull(r.value, cr, version, console, None);
    }
  }

  lemma OtherFull(s: Store, key: Key, ph: Phase, c: Choice)
    requires !ph.CheckNamespace? && !ph.PersistFinalizer? && !ph.Working? && !ph.MarkDeployed?
    ensures RunFull(Call(s, key, ph, c).0, Call(s, key, ph, c).1)
  {
    hide SetDefaults, Update;
  }

  lemma WorkFull(s: Store, key: Key, ph: Phase, c: Choice)
    requires Sound(s) && IsCRKind(key.kind) && RunOk(s, key, ph) && RunFull(s, ph) && ph.Working?
    ensures RunFull(Call(s, key, ph, c).0, Call(s, key, ph, c).1)
  {
    hide TaskCall, TaskOk, Rely, Ready, Pending, Makes, Target;
    var cr, todo, later := ph.cr, ph.todo, ph.later;
    var (s', step) := TaskCall(s, todo[0]);
    TaskCallOk(s, cr, todo[0], later.None?, key);
    RelyLosesNothing(s, s', key);
    RunFullStable(s, s', ph);
    TaskTarget(s, cr, todo[0], later.None?);
    forall k | Makes(todo[0], k)
      ensures (step == Finished(true) ==> k in s'.objects) && (step.More? ==> Makes(step.task, k))
    {
      TaskMakes(s, cr, todo[0], later.None?, k);
    }
    AfterTaskFull(s', cr, ph.version, todo, later, step);
  }

  lemma RelyLosesNothing(s: Store, s': Store, k: Key)
    requires Rely(s, s', k)
    ensures NothingLost(s, s')
  {
  }

  lemma FaultFull(s: Store, key: Key, ph: Phase)
    requires Sound(s) && RunOk(s, key, ph) && RunFull(s, ph)
    ensures RunFull(s, OnFault(ph))
  {
    hide TaskOk, Ready, Pending, Makes, Target, TaskFault;
    if ph.Working? {
      var late := ph.later.None?;
      TaskTarget(s, ph.cr, ph.todo[0], late);
      forall k | Makes(ph.todo[0], k) ensures !TaskFault(ph.todo[0]).More? && TaskFault(ph.todo[0]) != Finished(true) {
        TaskMakes(s, ph.cr, ph.todo[0], late, k);
      }
      AfterTaskFull(s, ph.cr, ph.version, ph.todo, ph.later, TaskFault(ph.todo[0]));
    }
  }

  // ---- No dangling role references ----

  /** Every binding written by the operator refers to a role that is there. */
  ghost predicate NoDangling(st: State) {
    forall b :: b in st.bound ==>
      && !IsCRKind(b.kind) && b in st.store.objects && IsBinding(st.store.objects[b].obj)
      && BindingTarget(st.store.objects[b].obj) in st.store.objects
  }

  /** A call that writes a binding writes it with a role that is there, or with the reference it had. */
  lemma CallBinding(s: Store, key: Key, ph: Phase, c: Choice, b: Key)
    requires Sound(s) && IsCRKind(key.kind) && RunOk(s, key, ph) && RunFull(s, ph)
    requires b in s.objects && IsBinding(s.objects[b].obj) && BindingTarget(s.objects[b].obj) in s.objects
    ensures var s' := Call(s, key, ph, c).0;
            b in s'.objects && IsBinding(s'.objects[b].obj) && BindingTarget(s'.objects[b].obj) in s'.objects
  {
    hide Program, ConsoleProgram, TaskCall, Advance, BindingTarget;
    CallLosesNothing(s, key, ph, c);
    match ph
    case Working(cr, _, todo, later) => TaskBinding(s, key, cr, todo, later.None?, b);
    case WriteBinding(_, _, _, _) => RevokeBinding(s, key, ph, c, b);
    case _ => OwnCallBinding(s, key, ph, c, b);
  }

  lemma OwnCallBinding(s: Store, key: Key, ph: Phase, c: Choice, b: Key)
    requires Sound(s) && IsCRKind(key.kind) && !ph.Working? && !ph.WriteBinding?
    requires b in s.objects && IsBinding(s.objects[b].obj)
    ensures var s' := Call(s, key, ph, c).0; b in s'.objects && s'.objects[b] == s.objects[b]
  {
    hide StartWork, Update, Advance;
    match ph
    case PersistFinalizer(cr, version) => UpdateElsewhere(s, CustomResource(WithFinalizer(cr)), version, b);
    case DropFinalizer(cr, version) => UpdateElsewhere(s, CustomResource(WithoutFinalizer(cr)), version, b);
    case _ =>
  }

  /** The finalizer leaves the role reference alone. */
  lemma RevokeBinding(s: Store, key: Key, ph: Phase, c: Choice, b: Key)
    requires Sound(s) && ph.WriteBinding? && RunOk(s, key, ph)
    requires b in s.objects && IsBinding(s.objects[b].obj)
    ensures var s' := Call(s, key, ph, c).0;
            b in s'.objects && IsBinding(s'.objects[b].obj)
                && BindingTarget(s'.objects[b].obj) == BindingTarget(s.objects[b].obj)
  {
    var o := Cleaned(ph.existing, ph.cr);
    UpdateEffect(s, o, ph.bindingVersion);
    if KeyOf(o) != b {
      UpdateElsewhere(s, o, ph.bindingVersion, b);
    }
  }

  lemma UpdateElsewhere(s: Store, o: Obj, version: nat, b: Key)
    requires Sound(s) && b in s.objects && Scoped(KeyOf(o)) != b
    ensures Update(s, o, version).Ok? ==>
              b in Update(s, o, version).value.objects && Update(s, o, version).value.objects[b] == s.objects[b]
  {
  }

  lemma CallLosesNothing(s: Store, key: Key, ph: Phase, c: Choice)
    requires Sound(s) && IsCRKind(key.kind) && RunOk(s, key, ph)
    ensures NothingLost(s, Call(s, key, ph, c).0)
  {
    hide Program;
    CallOk(s, key, ph, c);
    var other := Key(key.kind, key.ns, key.name + "x");
    assert |other.name| == |key.name| + 1;
    assert Rely(s, Call(s, key, ph, c).0, other);
  }

  lemma TaskBinding(s: Store, key: Key, cr: CR, todo: seq<Task>, late: bool, b: Key)
    requires Sound(s) && IsCRKind(key.kind) && todo != [] && TaskOk(s, cr, todo[0], late) && Ready(s, todo)
    requires b in s.objects && IsBinding(s.objects[b].obj) && BindingTarget(s.objects[b].obj) in s.objects
    ensures var s' := TaskCall(s, todo[0]).0;
            b in s'.objects && IsBinding(s'.objects[b].obj) && BindingTarget(s'.objects[b].obj) in s'.objects
  {
    hide Apply, CD.UpdateSpec, Perform;
    assert ReadyAt(s, todo, 0);
    TaskCallOk(s, cr, todo[0], late, key);
    match todo[0]
    case CreateOnly(o) => CreateEffect(s, o);
    case FinishWrite(w) =>
      if Perform(s, w).Ok? {
        PerformIsChildWrite(s, cr, w, late, key);
        assert b != Scoped(KeyOf(w.obj)) ==> Read(Perform(s, w).value, b) == Read(s, b);
      }
    case DeployController(_, _, _, _, _, _) => DeployOk(s, cr, todo[0], late);
    case _ =>
  }

  /** What is found as `Bind` wants it is a binding with the reference wanted. */
  lemma BoundAsWanted(m: Mutation, o: Obj)
    requires m.Bind? && Apply(m, o) == Some(o)
    ensures IsBinding(o) && o.roleRef == m.ref
  {
  }

  lemma FoundBindingTarget(s: Store, init: Obj, m: Mutation)
    requires Sound(s) && m.Bind? && Plan(s, init, m).Skip?
    ensures var b := Scoped(KeyOf(init));
            && b in s.objects && IsBinding(s.objects[b].obj) && IsBinding(init) && !IsCRKind(b.kind)
            && Target(Ensure(init, m)) == Some(BindingTarget(s.objects[b].obj))
  {
    hide Apply;
    var b := Scoped(KeyOf(init));
    BoundAsWanted(m, s.objects[b].obj);
    assert KeyOf(s.objects[b].obj) == b;
  }

  lemma WrittenBindingTarget(s: Store, cr: CR, w: Write, late: bool, key: Key)
    requires Sound(s) && IsCRKind(key.kind) && WriteOk(s, cr, w, late) && Perform(s, w).Ok? && IsBinding(w.obj)
    ensures var s', b := Perform(s, w).value, Scoped(KeyOf(w.obj));
            && b in s'.objects && IsBinding(s'.objects[b].obj) && !IsCRKind(b.kind)
            && Target(FinishWrite(w)) == Some(BindingTarget(s'.objects[b].obj))
  {
    hide Perform, WriteOk;
    PerformIsChildWrite(s, cr, w, late, key);
  }

  /** What a run has just finished binding is there, and so is its role. */
  lemma FinishedBindingTarget(s: Store, key: Key, ph: Phase)
    requires Sound(s) && IsCRKind(key.kind) && RunOk(s, key, ph) && RunFull(s, ph)
    requires FinishedBinding(s, ph).Some?
    ensures var (s', b) := (TaskCall(s, ph.todo[0]).0, FinishedBinding(s, ph).value);
            !IsCRKind(b.kind) && b in s'.objects && IsBinding(s'.objects[b].obj)
            && BindingTarget(s'.objects[b].obj) in s'.objects
  {
    hide Perform, Plan, BindingTarget, RefTarget, Held, Pending;
    var t, late := ph.todo[0], ph.later.None?;
    assert ReadyAt(s, ph.todo, 0) && TaskOk(s, ph.cr, t, late);
    TaskCallOk(s, ph.cr, t, late, key);
    RelyLosesNothing(s, TaskCall(s, t).0, key);
    if t.FinishWrite? {
      WrittenBindingTarget(s, ph.cr, t.write, late, key);
    } else {
      FoundBindingTarget(s, t.init, t.mutation);
    }
  }

  ghost predicate AllFull(st: State) {
    forall k :: k in st.runs ==> RunFull(st.store, st.runs[k])
  }

  lemma NothingLostByAny(st: State, a: Action)
    requires Base(st) && Enabled(st, a)
    ensures NothingLost(st.store, Do(st, a).store)
  {
    match a
    case Begin(_) =>
    case Fail(_) =>
    case Step(key, c) => CallLosesNothing(st.store, key, st.runs[key], c);
    case Lose(key, c) => CallLosesNothing(st.store, key, st.runs[key], c);
    case _ => UserRely(st, a, Key(GatewayKind, "", ""));
  }

  lemma FullKept(st: State, a: Action)
    requires Base(st) && AllFull(st) && Enabled(st, a)
    ensures AllFull(Do(st, a))
  {
    var st' := Do(st, a);
    NothingLostByAny(st, a);
    forall k | k in st'.runs ensures RunFull(st'.store, st'.runs[k]) {
      if (CarriedOut(a) || a.Fail? || a.Begin?) && a.key == k {
        match a
        case Step(_, c) => CallFull(st.store, k, st.runs[k], c);
        case Fail(_) => FaultFull(st.store, k, st.runs[k]);
        case Lose(_, c) =>
          FaultEndsWrites(st.store, k, st.runs[k], c);
          FaultFull(st.store, k, st.runs[k]);
        case Begin(_) =>
      } else {
        RunFullStable(st.store, st'.store, st.runs[k]);
      }
    }
  }

  lemma NoDanglingKept(st: State, a: Action)
    requires Base(st) && AllFull(st) && NoDangling(st) && Enabled(st, a)
    ensures NoDangling(Do(st, a))
  {
    var st' := Do(st, a);
    forall b | b in st'.bound
      ensures !IsCRKind(b.kind) && b in st'.store.objects && IsBinding(st'.store.objects[b].obj)
              && BindingTarget(st'.store.objects[b].obj) in st'.store.objects
    {
      if CarriedOut(a) {
        var ph := st.runs[a.key];
        if b in st.bound {
          CallBinding(st.store, a.key, ph, a.choice, b);
        } else {
          FinishedBindingTarget(st.store, a.key, ph);
        }
      } else {
        UserBinding(st, a, b);
      }
    }
  }

  lemma UserBinding(st: State, a: Action, b: Key)
    requires Base(st) && Enabled(st, a) && !CarriedOut(a)
    requires b in st.store.objects && IsBinding(st.store.objects[b].obj)
        && BindingTarget(st.store.objects[b].obj) in st.store.objects
    ensures var s' := Do(st, a).store;
            b in s'.objects && s'.objects[b] == st.store.objects[b]
                && BindingTarget(st.store.objects[b].obj) in s'.objects
  {
    assert KeyOf(st.store.objects[b].obj) == b;
    NothingLostByAny(st, a);
  }

  // ---- Honest status ----

  /** What a resource needs whatever its RBAC settings. */
  function Basics(cr: CR): set<Key> {
    (if cr.spec.GatewaySpec? then {KeyOf(AccountObj(cr)), Key(DeploymentKind, cr.meta.ns, cr.meta.name)} else {})
    + {Key(ConfigMapKind, cr.meta.ns, "cm-" + cr.meta.name), Key(ServiceKind, cr.meta.ns, cr.meta.name)}
  }

  /** A resource marked deployed has a receipt for its basics, and what is receipted is there. */
  ghost predicate Honest(st: State) {
    && (forall k :: Holds(st.store, k) && Resource(st.store, k).deployed ==>
          k in st.receipts && Basics(Resource(st.store, k)) <= st.receipts[k])
    && (forall k :: k in st.receipts ==> ReceiptStands(st.store, st.receipts[k]))
  }

  ghost predicate ReceiptStands(s: Store, keys: set<Key>) {
    forall q :: q in keys ==> !IsCRKind(q.kind) && q in s.objects
  }

  lemma RequiredHasBasics(cr: CR, held: CR)
    requires KeyOfCR(cr) == KeyOfCR(held) && AccountName(cr) == AccountName(held)
    ensures Basics(held) <= Required(cr)
    ensures forall q :: q in Required(cr) || q in DeploymentPlaces(cr) ==> !IsCRKind(q.kind)
  {
  }

  lemma SameBasics(a: CR, b: CR)
    requires KeyOfCR(a) == KeyOfCR(b) && AccountName(a) == AccountName(b)
    ensures Basics(a) == Basics(b)
  {
  }

  lemma HonestThroughCall(st: State, a: Action, k: Key)
    requires Base(st) && AllFull(st) && Honest(st) && Enabled(st, a) && CarriedOut(a)
    requires Holds(Do(st, a).store, k) && Resource(Do(st, a).store, k).deployed
    ensures var st' := Do(st, a); k in st'.receipts && Basics(Resource(st'.store, k)) <= st'.receipts[k]
  {
    hide Call, RunOk, RunFull, Rely, OnFault, Required, Basics, FinishedBinding, NextGranted, NextConsoled;
    var s, key, ph, st' := st.store, a.key, st.runs[a.key], Do(st, a);
    CallOk(s, key, ph, a.choice);
    CallHeld(s, key, ph);
    assert KeyOf(st'.store.objects[k].obj) == k;
    if k != key {
      CallElsewhere(s, key, ph, a.choice, k);
      assert Read(st'.store, k) == Read(s, k);
    } else {
      CallOnOwnResource(s, key, ph, a.choice);
      assert KeyOf(s.objects[k].obj) == k;
      SameBasics(Resource(s, k), Resource(st'.store, k));
      if ph.MarkDeployed? {
        RequiredHasBasics(ph.cr, Resource(s, k));
      }
    }
  }

  lemma CallHeld(s: Store, key: Key, ph: Phase)
    requires RunOk(s, key, ph)
    ensures ph.MarkDeployed? ==> Held(s, key, ph.cr)
  {
  }

  lemma UserHonest(st: State, a: Action, k: Key)
    requires Base(st) && Honest(st) && Enabled(st, a) && !CarriedOut(a)
    requires Holds(Do(st, a).store, k) && Resource(Do(st, a).store, k).deployed
    ensures Do(st, a).receipts == st.receipts && k in st.receipts
    ensures Basics(Resource(Do(st, a).store, k)) <= st.receipts[k]
  {
    hide Basics, RunOk, OnFault;
    if Holds(st.store, k) {
      assert KeyOf(st.store.objects[k].obj) == k;
      SameBasics(Resource(st.store, k), Resource(Do(st, a).store, k));
    }
  }

  lemma HonestKept(st: State, a: Action)
    requires Base(st) && AllFull(st) && Honest(st) && Enabled(st, a)
    ensures Honest(Do(st, a))
  {
    var st' := Do(st, a);
    NothingLostByAny(st, a);
    forall k | Holds(st'.store, k) && Resource(st'.store, k).deployed
      ensures k in st'.receipts && Basics(Resource(st'.store, k)) <= st'.receipts[k]
    {
      if CarriedOut(a) {
        HonestThroughCall(st, a, k);
      } else {
        UserHonest(st, a, k);
      }
    }
    forall k | k in st'.receipts ensures ReceiptStands(st'.store, st'.receipts[k]) {
      if k in st.receipts && st'.receipts[k] == st.receipts[k] {
        assert ReceiptStands(st.store, st.receipts[k]);
      } else {
        var ph := st.runs[a.key];
        assert RunFull(st.store, ph);
        RequiredHasBasics(ph.cr, ph.cr);
      }
    }
  }

  // ---- Over whole executions ----

  lemma {:induction false} ChildrenFrom(st: State, actions: seq<Action>)
    requires Base(st) && AllFull(st) && NoDangling(st) && Honest(st) && Legal(st, actions)
    ensures NoDangling(Execute(st, actions)) && Honest(Execute(st, actions)) && AllFull(Execute(st, actions))
    decreases |actions|
  {
    if actions != [] {
      var a := actions[0];
      BaseKept(st, a);
      FullKept(st, a);
      NoDanglingKept(st, a);
      HonestKept(st, a);
      ChildrenFrom(Do(st, a), actions[1..]);
    }
  }

  /** In every reachable state each binding the operator has written or confirmed is in the store and names a
      role that is in the store, although the gateway first builds its RoleBinding with another reference. */
  lemma RolesAreThere(st: State, actions: seq<Action>, b: Key)
    requires Start(st) && Legal(st, actions) && b in Execute(st, actions).bound
    ensures var s := Execute(st, actions).store;
            b in s.objects && IsBinding(s.objects[b].obj) && BindingTarget(s.objects[b].obj) in s.objects
  {
    ChildrenFrom(st, actions);
  }

  /** In every reachable state a resource marked deployed has its basic children, and everything the run that
      marked it had ensured. */
  lemma StatusIsHonest(st: State, actions: seq<Action>, k: Key)
    requires Start(st) && Legal(st, actions)
    requires var s := Execute(st, actions).store; Holds(s, k) && Resource(s, k).deployed
    ensures var st' := Execute(st, actions);
            && k in st'.receipts && st'.receipts[k] <= st'.store.objects.Keys
            && Basics(Resource(st'.store, k)) <= st'.store.objects.Keys
  {
    ChildrenFrom(st, actions);
    var st' := Execute(st, actions);
    assert ReceiptStands(st'.store, st'.receipts[k]);
  }

  /** The run that marks a resource deployed leaves as its receipt all it has to ensure, the four RBAC objects
      included if RBAC was on, and all of it is there at that moment. */
  lemma MarkingNeedsEverything(st: State, actions: seq<Action>, a: Action)
    requires Start(st) && Legal(st, actions) && Enabled(Execute(st, actions), a) && CarriedOut(a)
    requires Execute(st, actions).runs[a.key].MarkDeployed?
    ensures var (now, after) := (Execute(st, actions), Do(Execute(st, actions), a));
            var cr := now.runs[a.key].cr;
            && Required(cr) <= now.store.objects.Keys
            && (Holds(after.store, a.key) && Resource(after.store, a.key).deployed ==>
                  Resource(now.store, a.key).deployed || after.receipts[a.key] == Ensured(now.store, cr))
  {
    hide Call, Required, OnFault, RunOk;
    var now := Execute(st, actions);
    ChildrenFrom(st, actions);
    BaseAlways(st, actions);
    assert RunFull(now.store, now.runs[a.key]);
    CallOnOwnResource(now.store, a.key, now.runs[a.key], a.choice);
  }

  /** Nobody takes a status back: it lasts as long as the resource. */
  lemma StatusIsMonotone(st: State, actions: seq<Action>, a: Action, k: Key)
    requires Start(st) && Legal(st, actions) && Enabled(Execute(st, actions), a)
    requires Holds(Execute(st, actions).store, k) && Resource(Execute(st, actions).store, k).deployed
    requires Holds(Do(Execute(st, actions), a).store, k)
    ensures Resource(Do(Execute(st, actions), a).store, k).deployed
  {
    var now := Execute(st, actions);
    BaseAlways(st, actions);
    if CarriedOut(a) {
      if k == a.key {
        CallOnOwnResource(now.store, k, now.runs[k], a.choice);
      } else {
        assert KeyOf(now.store.objects[k].obj) == k;
        CallElsewhere(now.store, a.key, now.runs[a.key], a.choice, k);
        assert Read(Do(now, a).store, k) == Read(now.store, k);
      }
    }
  }
}
