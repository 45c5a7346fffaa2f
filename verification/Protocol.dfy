/** Any number of custom resources reconciled over one store: at most one run per resource, API calls of all
    runs interleaved, users creating, editing and deleting resources at any time, calls failing at any time. */
module Protocol {
  import opened Kubernetes
  import opened ApiStore
  import opened Tasks
  import opened Runs
  import Bindings
  import CC = ConsoleChildren
  import CD = ControllerDeployment
  import ConsoleService
  import GatewayChildren

  /** The store and the runs in flight, with four records of the past: the resources whose subject was put in
      their binding since they were last not being deleted, the subjects put in a binding for a console and not
      taken out by a controller's finalizer since, the bindings written, and for every resource ever marked
      deployed the objects its run had ensured. */
  datatype State = State(
    store: Store, runs: map<Key, Phase>, granted: set<Key>, consoled: set<Subject>, bound: set<Key>,
    receipts: map<Key, set<Key>>)

  datatype Action =
    | CreateCR(cr: CR)
    | EditSpec(key: Key, cr: CR)
    | MarkDeleted(key: Key)
    | SetNamespace(ns: Obj)
    | Begin(key: Key)
    | Step(key: Key, choice: Choice)
    | Fail(key: Key)
    | Lose(key: Key, choice: Choice)

  predicate Holds(s: Store, k: Key) {
    k in s.objects && s.objects[k].obj.CustomResource?
  }

  function Resource(s: Store, k: Key): CR
    requires Holds(s, k)
  {
    s.objects[k].obj.cr
  }

  predicate InFlight(st: State, k: Key) {
    k in st.runs && !st.runs[k].Done?
  }

  /** A run's next call is answered (Step), refused (Fail), or carried out with its answer lost (Lose). What users
      may do: the account name of a resource is fixed, and a controller's RBAC is never switched from on to off.
      Finalizers and status are the operator's. */
  ghost predicate Enabled(st: State, a: Action) {
    match a
    case CreateCR(cr) => KeyOfCR(cr) !in st.store.objects && !cr.deleting && !cr.deployed
    case EditSpec(key, cr) =>
      && Holds(st.store, key) && KeyOfCR(cr) == key
      && (var before := Resource(st.store, key);
          && cr.deleting == before.deleting && cr.finalizers == before.finalizers && cr.deployed == before.deployed
          && AccountName(cr) == AccountName(before)
          && (CleansUp(before) ==> CleansUp(cr)))
    case MarkDeleted(key) => Holds(st.store, key)
    case SetNamespace(ns) => ns.Namespace?
    case Begin(key) => IsCRKind(key.kind) && !InFlight(st, key)
    case Step(key, _) => InFlight(st, key)
    case Fail(key) => InFlight(st, key)
    case Lose(key, _) => InFlight(st, key)
  }

  /** The actions by which a run's call is carried out. */
  predicate CarriedOut(a: Action) {
    a.Step? || a.Lose?
  }

  function AfterMarking(s: Store, k: Key): Store
    requires Holds(s, k)
  {
    var o := CustomResource(Resource(s, k).(deleting := true));
    if Reaped(o) then Remove(s, k) else Put(s, o)
  }

  // ---- What a step finishes ----

  /** The binding a working run has just finished writing or found as wanted, if any. */
  function FinishedBinding(s: Store, ph: Phase): Option<Key> {
    if !ph.Working? || ph.todo == [] || TaskCall(s, ph.todo[0]).1 != Finished(true) then None
    else
      match ph.todo[0]
      case Ensure(init, m) => if m.Bind? then Some(Scoped(KeyOf(init))) else None
      case FinishWrite(w) =>
        if w.obj.ClusterRoleBinding? || w.obj.RoleBinding? then Some(Scoped(KeyOf(w.obj))) else None
      case _ => None
  }

  /** The objects a run ensures on its way to the status update. */
  function Required(cr: CR): set<Key> {
    (if AccountOn(cr) || cr.spec.GatewaySpec? then {KeyOf(AccountObj(cr))} else {})
    + (if RbacOn(cr) then
         { Key(ClusterRoleKind, "", ClusterRoleName(cr)), BindingKey(cr),
           Key(RoleKind, cr.meta.ns, RoleName(cr)), Key(RoleBindingKind, cr.meta.ns, RoleBindingName(cr)) }
       else {})
    + {Key(ConfigMapKind, cr.meta.ns, "cm-" + cr.meta.name), Key(ServiceKind, cr.meta.ns, cr.meta.name)}
    + (if cr.spec.GatewaySpec? then {Key(DeploymentKind, cr.meta.ns, cr.meta.name)} else {})
  }

  /** Where a controller's Deployment may be: under the name of the container, where it is looked up, or under the
      instance's own, where it is created. */
  function DeploymentPlaces(cr: CR): set<Key> {
    match cr.spec
    case GatewaySpec(_) => {}
    case ControllerSpec(f) =>
      {Key(DeploymentKind, cr.meta.ns, f.controller.name), Key(DeploymentKind, cr.meta.ns, cr.meta.name)}
  }

  /** The receipt of a run that marks its resource. */
  function Ensured(s: Store, cr: CR): set<Key> {
    Required(cr) + (DeploymentPlaces(cr) * s.objects.Keys)
  }

  /** Whether the run has just finished a ClusterRoleBinding, before or after the status update. */
  predicate JustBound(s: Store, ph: Phase) {
    var b := FinishedBinding(s, ph); b.Some? && b.value.kind == ClusterRoleBindingKind
  }

  /** The call by which a finalizer takes the subject of its resource out of its binding. */
  predicate Revokes(ph: Phase, ph': Phase) {
    ph.WriteBinding? && ph'.DropFinalizer?
  }

  function NextGranted(st: State, key: Key, s': Store): set<Key>
    requires key in st.runs
  {
    var ph := st.runs[key];
    if JustBound(st.store, ph) && ph.later.Some? && Holds(s', key) && !Resource(s', key).deleting
    then st.granted + {key} else st.granted
  }

  function NextConsoled(st: State, key: Key, ph': Phase): set<Subject>
    requires key in st.runs
  {
    var ph := st.runs[key];
    if JustBound(st.store, ph) && ph.later.None? && HasConsole(ph.cr) then st.consoled + {ConsoleSubject(ph.cr)}
    else if Revokes(ph, ph') && ph.cr.spec.ControllerSpec? then st.consoled - {OwnSubject(ph.cr)}
    else st.consoled
  }

  /** A call that is carried out, whether or not the run hears of it. */
  function AfterStep(st: State, key: Key, c: Choice, lost: bool): State
    requires key in st.runs
  {
    var ph := st.runs[key];
    var (s', ph') := Call(st.store, key, ph, c);
    var b := FinishedBinding(st.store, ph);
    State(s', st.runs[key := if lost then OnFault(ph) else ph'],
          NextGranted(st, key, s'), NextConsoled(st, key, ph'),
          if b.Some? then st.bound + {b.value} else st.bound,
          if ph.MarkDeployed? && UpdateStatus(st.store, key, true, ph.version).Ok?
          then st.receipts[key := Ensured(st.store, ph.cr)] else st.receipts)
  }

  function Do(st: State, a: Action): State
    requires Enabled(st, a)
  {
    match a
    case CreateCR(cr) => st.(store := Put(st.store, CustomResource(cr)))
    case EditSpec(_, cr) => st.(store := Put(st.store, CustomResource(cr)))
    case MarkDeleted(key) => st.(store := AfterMarking(st.store, key), granted := st.granted - {key})
    case SetNamespace(ns) => st.(store := Put(st.store, ns))
    case Begin(key) => st.(runs := st.runs[key := Fetch])
    case Step(key, c) => AfterStep(st, key, c, false)
    case Fail(key) => st.(runs := st.runs[key := OnFault(st.runs[key])])
    case Lose(key, c) => AfterStep(st, key, c, true)
  }

  /** An execution: every action is enabled when it happens. */
  ghost predicate Legal(st: State, actions: seq<Action>)
    decreases |actions|
  {
    actions == [] || (Enabled(st, actions[0]) && Legal(Do(st, actions[0]), actions[1..]))
  }

  ghost function Execute(st: State, actions: seq<Action>): State
    requires Legal(st, actions)
    decreases |actions|
  {
    if actions == [] then st else Execute(Do(st, actions[0]), actions[1..])
  }

  // ---- What each run may rely on ----

  /** An entry either stays as it is or gets a version never seen before. */
  ghost predicate FreshChanges(s: Store, s': Store) {
    s.next <= s'.next
    && forall k :: k in s'.objects ==>
         (k in s.objects && s'.objects[k] == s.objects[k]) || s'.objects[k].version >= s.next
  }

  /** Only custom resources are ever removed. */
  ghost predicate NothingLost(s: Store, s': Store) {
    forall k :: k in s.objects && !IsCRKind(k.kind) ==> k in s'.objects
  }

  /** The resource under `k` carries its finalizer and agrees with the instance a run works on. */
  ghost predicate Held(s: Store, k: Key, cr: CR) {
    && Holds(s, k) && KeyOfCR(cr) == k
    && Resource(s, k).spec.GatewaySpec? == cr.spec.GatewaySpec?
    && Finalizer(cr) in Resource(s, k).finalizers
    && AccountName(Resource(s, k)) == AccountName(cr)
    && (CleansUp(cr) ==> CleansUp(Resource(s, k)))
  }

  /** What others leave alone: while `k` carries its finalizer it stays, with its account name; its RBAC is not
      switched off and its deletion mark not taken back. */
  ghost predicate KeepsResource(s: Store, s': Store, k: Key) {
    Holds(s, k) && Finalizer(Resource(s, k)) in Resource(s, k).finalizers ==>
      && Holds(s', k)
      && Resource(s', k).spec.GatewaySpec? == Resource(s, k).spec.GatewaySpec?
      && Finalizer(Resource(s, k)) in Resource(s', k).finalizers
      && AccountName(Resource(s', k)) == AccountName(Resource(s, k))
      && (CleansUp(Resource(s, k)) ==> CleansUp(Resource(s', k)))
      && (Resource(s, k).deleting ==> Resource(s', k).deleting)
  }

  ghost predicate Rely(s: Store, s': Store, k: Key) {
    FreshChanges(s, s') && NothingLost(s, s') && KeepsResource(s, s', k)
  }

  /** If the entry still has the version read, it still is what was read. */
  ghost predicate Current(s: Store, k: Key, o: Obj, version: nat) {
    version < s.next && (k in s.objects && s.objects[k].version == version ==> s.objects[k].obj == o)
  }

  /** The same for a resource of which a run keeps a defaulted copy. */
  ghost predicate Copied(s: Store, k: Key, cr: CR, version: nat) {
    && KeyOfCR(cr) == k && version < s.next
    && (k in s.objects && s.objects[k].version == version ==>
          Holds(s, k) && SetDefaults(Resource(s, k)) == cr)
  }

  /** Before the status update a run grants its own subject in its own binding, afterwards its console's. */
  predicate Granting(cr: CR, late: bool) {
    if late then HasConsole(cr) else RbacOn(cr)
  }

  function GrantName(cr: CR, late: bool): string
    requires Granting(cr, late)
  {
    if late then ConsoleBindingName(cr) else BindingName(cr)
  }

  function GrantSubject(cr: CR, late: bool): Subject
    requires Granting(cr, late)
  {
    if late then ConsoleSubject(cr) else OwnSubject(cr)
  }

  predicate OwnGrant(cr: CR, late: bool, binding: Obj) {
    Granting(cr, late) && Scoped(KeyOf(binding)) == Key(ClusterRoleBindingKind, "", GrantName(cr, late))
  }

  /** The write a run is about to make touches its own binding or no binding, with its own subject. */
  ghost predicate WriteOk(s: Store, cr: CR, w: Write, late: bool) {
    && !IsCRKind(KindOf(w.obj)) && KindOf(w.obj) != NamespaceKind
    && (w.WUpdate? ==>
          && Scoped(KeyOf(w.existing)) == Scoped(KeyOf(w.obj))
          && Current(s, Scoped(KeyOf(w.obj)), w.existing, w.version))
    && (w.obj.ClusterRoleBinding? ==>
          && OwnGrant(cr, late, w.obj)
          && w.obj.subjects ==
             Bindings.AddSubject(if w.WUpdate? then w.existing.subjects else [], GrantSubject(cr, late)))
  }

  ghost predicate TaskOk(s: Store, cr: CR, t: Task, late: bool) {
    match t
    case CreateOnly(o) => o.ServiceAccount?
    case Ensure(init, m) =>
      && !IsCRKind(KindOf(init)) && KindOf(init) != NamespaceKind
      && (init.ClusterRoleBinding? ==>
            && OwnGrant(cr, late, init) && init.subjects == [GrantSubject(cr, late)]
            && m.Bind? && m.subject == GrantSubject(cr, late))
    case FinishWrite(w) => WriteOk(s, cr, w, late)
    case EnsureIfMissing(init, m) => init.IngressClass?
    case DeployController(probe, _, _, _, _, _) => probe.kind == DeploymentKind
    case Crash => true
  }

  ghost predicate RunOk(s: Store, k: Key, ph: Phase) {
    match ph
    case Fetch => true
    case CheckNamespace(cr, version) =>
      !cr.deleting && Copied(s, k, cr, version) && (Finalizer(cr) in cr.finalizers ==> Held(s, k, cr))
    case PersistFinalizer(cr, version) => !cr.deleting && Copied(s, k, cr, version)
    case Working(cr, version, todo, later) =>
      && todo != [] && Held(s, k, cr) && TasksOk(s, cr, todo, later.None?)
      && (later.Some? ==> TasksOk(s, cr, later.value, true))
    case MarkDeployed(cr, version, console) => Held(s, k, cr) && TasksOk(s, cr, console, true)
    case ReadBinding(cr, version) => Held(s, k, cr) && Resource(s, k).deleting && CleansUp(cr)
    case WriteBinding(cr, version, existing, bindingVersion) =>
      && Held(s, k, cr) && Resource(s, k).deleting && CleansUp(cr)
      && existing.ClusterRoleBinding? && KeyOf(existing) == BindingKey(cr)
      && Current(s, BindingKey(cr), existing, bindingVersion)
    case DropFinalizer(cr, version) => Held(s, k, cr) && Resource(s, k).deleting
    case Done(_) => true
  }

  ghost predicate Base(st: State) {
    Sound(st.store) && forall k :: k in st.runs ==> IsCRKind(k.kind) && RunOk(st.store, k, st.runs[k])
  }

  // ---- Base is kept ----

  lemma TaskOkStable(s: Store, s': Store, cr: CR, t: Task, late: bool)
    requires TaskOk(s, cr, t, late) && FreshChanges(s, s')
    ensures TaskOk(s', cr, t, late)
  {
  }

  lemma TasksOkStable(s: Store, s': Store, cr: CR, todo: seq<Task>, late: bool)
    requires TasksOk(s, cr, todo, late) && FreshChanges(s, s')
    ensures TasksOk(s', cr, todo, late)
  {
    forall i | 0 <= i < |todo| ensures TaskOk(s', cr, todo[i], late) {
      TaskOkStable(s, s', cr, todo[i], late);
    }
  }

  /** A run's knowledge survives whatever others do. */
  lemma RunOkStable(s: Store, s': Store, k: Key, ph: Phase)
    requires RunOk(s, k, ph) && Rely(s, s', k)
    ensures RunOk(s', k, ph)
  {
    hide TasksOk;
    match ph
    case Working(cr, _, todo, later) =>
      TasksOkStable(s, s', cr, todo, later.None?);
      if later.Some? {
        TasksOkStable(s, s', cr, later.value, true);
      }
    case MarkDeployed(cr, _, console) => TasksOkStable(s, s', cr, console, true);
    case _ =>
  }

  lemma RelyReflexive(s: Store, k: Key)
    ensures Rely(s, s, k)
  {
  }

  /** The user's actions, as every run sees them. */
  lemma UserRely(st: State, a: Action, k: Key)
    requires Sound(st.store) && Enabled(st, a) && (a.CreateCR? || a.EditSpec? || a.MarkDeleted? || a.SetNamespace?)
    ensures Rely(st.store, Do(st, a).store, k) && Sound(Do(st, a).store)
  {
    hide SetDefaults, AccountName, RbacOn;
    match a
    case CreateCR(cr) => StoredByUser(st.store, CustomResource(cr), k);
    case EditSpec(_, cr) => StoredByUser(st.store, CustomResource(cr), k);
    case MarkDeleted(key) => MarkedByUser(st.store, key, k);
    case SetNamespace(ns) => StoredByUser(st.store, ns, k);
  }

  lemma MarkedByUser(s: Store, key: Key, k: Key)
    requires Sound(s) && Holds(s, key)
    ensures Rely(s, AfterMarking(s, key), k) && Sound(AfterMarking(s, key))
  {
    var cr := Resource(s, key).(deleting := true);
    assert AccountName(cr) == AccountName(Resource(s, key)) && CleansUp(cr) == CleansUp(Resource(s, key));
    hide AccountName, CleansUp;
  }

  lemma StoredByUser(s: Store, o: Obj, k: Key)
    requires Sound(s)
    requires Scoped(KeyOf(o)) == k && Holds(s, k) ==>
               && o.CustomResource?
               && AccountName(o.cr) == AccountName(Resource(s, k)) && (CleansUp(Resource(s, k)) ==> CleansUp(o.cr))
               && o.cr.deleting == Resource(s, k).deleting && o.cr.finalizers == Resource(s, k).finalizers
    ensures Rely(s, Put(s, o), k) && Sound(Put(s, o))
  {
    hide AccountName, CleansUp;
    assert Holds(s, k) ==> KeyOf(s.objects[k].obj) == k;
  }

  lemma DefaultsAgree(cr: CR)
    ensures var d := SetDefaults(cr);
            && KeyOfCR(d) == KeyOfCR(cr) && AccountName(d) == AccountName(cr) && RbacOn(d) == RbacOn(cr)
                && CleansUp(d) == CleansUp(cr)
            && d.deleting == cr.deleting && d.finalizers == cr.finalizers && d.deployed == cr.deployed
            && Finalizer(d) == Finalizer(cr) && d.spec.GatewaySpec? == cr.spec.GatewaySpec?
  {
  }

  // ---- What one call changes ----

  /** An update of another kind of object is no concern of any run over custom resources. */
  lemma ChildWrite(s: Store, s': Store, k: Key, written: Key)
    requires Sound(s) && IsCRKind(k.kind) && !IsCRKind(written.kind)
    requires s'.next == s.next + 1 && s'.objects.Keys == s.objects.Keys + {written}
    requires s'.objects[written].version == s.next
    requires forall q :: q != written ==> Read(s', q) == Read(s, q)
    ensures Rely(s, s', k)
  {
    forall q | q in s'.objects
      ensures (q in s.objects && s'.objects[q] == s.objects[q]) || s'.objects[q].version >= s.next
    {
      assert q != written ==> Read(s', q) == Read(s, q);
    }
    assert Read(s', k) == Read(s, k);
  }

  lemma PerformIsChildWrite(s: Store, cr: CR, w: Write, late: bool, k: Key)
    requires Sound(s) && IsCRKind(k.kind) && WriteOk(s, cr, w, late) && Perform(s, w).Ok?
    ensures var s', q := Perform(s, w).value, Scoped(KeyOf(w.obj));
            && Sound(s') && Rely(s, s', k)
            && q in s'.objects && s'.objects[q].obj == Stripped(w.obj)
            && (w.WUpdate? ==> q in s.objects && s.objects[q].obj == w.existing)
            && (w.WCreate? ==> q !in s.objects)
            && forall x :: x != q ==> Read(s', x) == Read(s, x)
  {
    var q := Scoped(KeyOf(w.obj));
    match w
    case WCreate(o) =>
      CreateEffect(s, o);
      assert forall x :: x != q ==> Read(Perform(s, w).value, x) == Read(s, x);
      ChildWrite(s, Perform(s, w).value, k, q);
    case WUpdate(e, o, version) =>
      UpdateEffect(s, o, version);
      KeysAfter(s, Perform(s, w).value, q);
      ChildWrite(s, Perform(s, w).value, k, q);
  }

  lemma KeysAfter(s: Store, s': Store, q: Key)
    requires q in s'.objects && forall x :: x != q ==> Read(s', x) == Read(s, x)
    ensures s'.objects.Keys == s.objects.Keys + {q}
  {
    forall x ensures x in s'.objects <==> x in s.objects || x == q {
      assert x != q ==> Read(s', x) == Read(s, x);
    }
  }

  /** One call of a task: others can rely on what it does, and what is left of the task is still in order. */
  lemma TaskCallOk(s: Store, cr: CR, t: Task, late: bool, k: Key)
    requires Sound(s) && IsCRKind(k.kind) && TaskOk(s, cr, t, late)
    ensures var (s', step) := TaskCall(s, t);
            Sound(s') && Rely(s, s', k) && (step.More? ==> TaskOk(s', cr, step.task, late))
  {
    hide Apply, CD.UpdateSpec, Perform;
    RelyReflexive(s, k);
    match t
    case CreateOnly(o) => CreateOnlyOk(s, o, k);
    case Ensure(init, m) => PlanOk(s, cr, init, m, late);
    case FinishWrite(w) =>
      if Perform(s, w).Ok? {
        PerformIsChildWrite(s, cr, w, late, k);
      }
    case EnsureIfMissing(_, _) =>
    case DeployController(_, _, _, _, _, _) => DeployOk(s, cr, t, late);
    case Crash =>
  }

  lemma CreateOnlyOk(s: Store, o: Obj, k: Key)
    requires Sound(s) && IsCRKind(k.kind) && o.ServiceAccount?
    ensures var s' := TaskCall(s, CreateOnly(o)).0; Sound(s') && Rely(s, s', k)
  {
    RelyReflexive(s, k);
    CreateEffect(s, o);
    if Create(s, o).Ok? {
      ChildWrite(s, Create(s, o).value, k, KeyOf(o));
    }
  }

  lemma DeployOk(s: Store, cr: CR, t: Task, late: bool)
    requires t.DeployController?
    ensures TaskCall(s, t).0 == s
    ensures TaskCall(s, t).1.More? ==> TaskOk(s, cr, TaskCall(s, t).1.task, late)
  {
    hide CD.UpdateSpec;
    FreshDeploymentOk(s, cr, t, late);
  }

  lemma FreshDeploymentOk(s: Store, cr: CR, t: Task, late: bool)
    requires t.DeployController?
    ensures FreshDeployment(t).More? ==> TaskOk(s, cr, FreshDeployment(t).task, late)
  {
    hide CD.UpdateSpec;
  }

  /** What is found under the key of a binding and passes through `Bind` keeps its subjects and gains one. */
  lemma BindKeeps(o: Obj, m: Mutation)
    requires m.Bind? && o.ClusterRoleBinding?
    ensures Apply(m, o) == Some(ClusterRoleBinding(o.meta, m.ref, Bindings.AddSubject(o.subjects, m.subject)))
  {
  }

  lemma PlanOk(s: Store, cr: CR, init: Obj, m: Mutation, late: bool)
    requires Sound(s) && TaskOk(s, cr, Ensure(init, m), late)
    ensures Plan(s, init, m).Commit? ==> WriteOk(s, cr, Plan(s, init, m).write, late)
    ensures Plan(s, init, m).Commit? ==> Scoped(KeyOf(Plan(s, init, m).write.obj)) == Scoped(KeyOf(init))
  {
    hide Apply;
    var key := Scoped(KeyOf(init));
    var start := if key in s.objects then s.objects[key].obj else init;
    ApplyKeepsKey(m, start);
    assert KindOf(start) == KindOf(init);
    if init.ClusterRoleBinding? {
      BindKeeps(start, m);
    }
  }

  lemma TaskFaultOk(s: Store, cr: CR, t: Task, late: bool)
    requires TaskOk(s, cr, t, late)
    ensures TaskFault(t).More? ==> TaskOk(s, cr, TaskFault(t).task, late)
  {
    if t.DeployController? {
      FreshDeploymentOk(s, cr, t, late);
    }
  }

  ghost predicate TasksOk(s: Store, cr: CR, todo: seq<Task>, late: bool) {
    forall i :: 0 <= i < |todo| ==> TaskOk(s, cr, todo[i], late)
  }

  lemma TasksOkConcat(s: Store, cr: CR, a: seq<Task>, b: seq<Task>, late: bool)
    requires TasksOk(s, cr, a, late) && TasksOk(s, cr, b, late)
    ensures TasksOk(s, cr, a + b, late)
  {
  }

  lemma ProgramOk(s: Store, cr: CR, c: Choice)
    ensures TasksOk(s, cr, Program(cr, c), false) && TasksOk(s, cr, ConsoleProgram(cr, c), true)
  {
    hide RbacTasks, GatewayProgram, ControllerProgram, ConsoleProgram, TasksOk;
    RbacTasksOk(s, cr);
    ConsoleProgramOk(s, cr, c);
    if cr.spec.GatewaySpec? {
      GatewayProgramOk(s, cr, c);
    } else {
      ControllerProgramOk(s, cr, c);
    }
  }

  lemma RbacTasksOk(s: Store, cr: CR)
    ensures TasksOk(s, cr, RbacTasks(cr), false)
  {
  }

  lemma SharedTasksOk(s: Store, cr: CR)
    ensures TasksOk(s, cr, [CreateOnly(AccountObj(cr))], false) && TasksOk(s, cr, [ConfigTask(cr)], false)
  {
  }

  lemma GatewayTasksOk(s: Store, cr: CR, c: Choice)
    requires cr.spec.GatewaySpec?
    ensures TasksOk(s, cr, [GatewayDeploymentTask(cr, c), GatewayServiceTask(cr)], false)
  {
    hide GatewayChildren.DeploymentOf, GatewayChildren.ServiceOf;
    assert TaskOk(s, cr, GatewayDeploymentTask(cr, c), false);
    assert GatewayServiceTask(cr).Crash? || (GatewayServiceTask(cr).Ensure? && GatewayServiceTask(cr).init.Service?);
  }

  lemma GatewayProgramOk(s: Store, cr: CR, c: Choice)
    requires cr.spec.GatewaySpec? && TasksOk(s, cr, RbacTasks(cr), false)
    ensures TasksOk(s, cr, GatewayProgram(cr, c), false)
  {
    hide RbacTasks, ConfigTask, GatewayDeploymentTask, GatewayServiceTask;
    var a, r, m := [CreateOnly(AccountObj(cr))], RbacTasks(cr), [ConfigTask(cr)];
    var k := if GatewayChildren.SkywalkingOn(cr.spec.gateway) then [Crash] else [];
    SharedTasksOk(s, cr);
    GatewayTasksOk(s, cr, c);
    TasksOkConcat(s, cr, a, r, false);
    TasksOkConcat(s, cr, a + r, m, false);
    TasksOkConcat(s, cr, a + r + m, k, false);
    TasksOkConcat(s, cr, a + r + m + k, [GatewayDeploymentTask(cr, c), GatewayServiceTask(cr)], false);
  }

  lemma ControllerTasksOk(s: Store, cr: CR, c: Choice)
    requires cr.spec.ControllerSpec?
    ensures TasksOk(s, cr,
            [ConfigTask(cr), ControllerDeploymentTask(cr, c), IngressTask(cr), ControllerServiceTask(cr)], false)
  {
  }

  lemma DefinitionTasksOk(s: Store, cr: CR, c: Choice)
    ensures TasksOk(s, cr, DefinitionTasks(c), false)
  {
    forall i | 0 <= i < |c.manifests| ensures TaskOk(s, cr, DefinitionTasks(c)[i], false) {
      assert DefinitionTasks(c)[i] == DefinitionTask(c.manifests[i]);
    }
  }

  lemma ControllerProgramOk(s: Store, cr: CR, c: Choice)
    requires cr.spec.ControllerSpec? && TasksOk(s, cr, RbacTasks(cr), false)
    ensures TasksOk(s, cr, ControllerProgram(cr, c), false)
  {
    hide RbacTasks, DefinitionTasks, ConfigTask, ControllerDeploymentTask, IngressTask, ControllerServiceTask;
    var d, a := DefinitionTasks(c), if AccountOn(cr) then [CreateOnly(AccountObj(cr))] else [];
    var tail := [ConfigTask(cr), ControllerDeploymentTask(cr, c), IngressTask(cr), ControllerServiceTask(cr)];
    SharedTasksOk(s, cr);
    ControllerTasksOk(s, cr, c);
    DefinitionTasksOk(s, cr, c);
    TasksOkConcat(s, cr, d, a, false);
    TasksOkConcat(s, cr, d + a, RbacTasks(cr), false);
    TasksOkConcat(s, cr, d + a + RbacTasks(cr), tail, false);
  }

  lemma ConsoleRbacOk(s: Store, cr: CR)
    requires HasConsole(cr)
    ensures TasksOk(s, cr, ConsoleRbacTasks(cr), true)
  {
  }

  lemma ConsoleTailOk(s: Store, cr: CR, c: Choice)
    requires HasConsole(cr)
    ensures TasksOk(s, cr, [ConsoleConfigTask(cr), ConsoleDeploymentTask(cr, c), ConsoleServiceTask(cr)], true)
  {
    hide CC.InitialConfig, CC.UpdateSpec, ConsoleService.Update;
  }

  lemma ConsoleProgramOk(s: Store, cr: CR, c: Choice)
    ensures TasksOk(s, cr, ConsoleProgram(cr, c), true)
  {
    if HasConsole(cr) {
      hide ConsoleRbacTasks, ConsoleConfigTask, ConsoleDeploymentTask, ConsoleServiceTask;
      var account := if AccountOn(cr) then [CreateOnly(ConsoleAccountObj(cr))] else [];
      var tail := [ConsoleConfigTask(cr), ConsoleDeploymentTask(cr, c), ConsoleServiceTask(cr)];
      ConsoleRbacOk(s, cr);
      ConsoleTailOk(s, cr, c);
      TasksOkConcat(s, cr, ConsoleRbacTasks(cr), account, true);
      TasksOkConcat(s, cr, ConsoleRbacTasks(cr) + account, tail, true);
    }
  }

  lemma AdvanceOk(s: Store, k: Key, cr: CR, version: nat, todo: seq<Task>, later: Option<seq<Task>>)
    requires Held(s, k, cr) && TasksOk(s, cr, todo, later.None?) && (later.Some? ==> TasksOk(s, cr, later.value, true))
    ensures RunOk(s, k, Advance(cr, version, todo, later))
  {
    hide Held, TaskOk;
  }

  lemma StartOk(s: Store, k: Key, cr: CR, version: nat, c: Choice)
    requires Held(s, k, cr)
    ensures RunOk(s, k, StartWork(cr, version, c))
  {
    hide Program, ConsoleProgram, Held, RunOk;
    ProgramOk(s, cr, c);
    AdvanceOk(s, k, cr, version, Program(cr, c), Some(ConsoleProgram(cr, c)));
  }

  lemma AfterTaskOk(s: Store, k: Key, cr: CR, version: nat, todo: seq<Task>, later: Option<seq<Task>>, step: TaskStep)
    requires todo != [] && Held(s, k, cr)
    requires TasksOk(s, cr, todo, later.None?) && (later.Some? ==> TasksOk(s, cr, later.value, true))
    requires step.More? ==> TaskOk(s, cr, step.task, later.None?)
    ensures RunOk(s, k, AfterTask(cr, version, todo, later, step))
  {
    hide Held, TaskOk;
    if step.Finished? && step.ok {
      AdvanceOk(s, k, cr, version, todo[1..], later);
    }
  }

  /** A write to the resource under `key` itself, as runs of other resources see it. */
  lemma OwnWriteRely(s: Store, s': Store, key: Key, k: Key)
    requires k != key && IsCRKind(key.kind) && s'.next == s.next + 1
    requires forall q :: q != key ==> Read(s', q) == Read(s, q)
    requires key in s'.objects ==> s'.objects[key].version == s.next
    ensures Rely(s, s', k)
  {
    forall q | q in s'.objects
      ensures (q in s.objects && s'.objects[q] == s.objects[q]) || s'.objects[q].version >= s.next
    {
      assert q != key ==> Read(s', q) == Read(s, q);
    }
    forall q | q in s.objects && !IsCRKind(q.kind) ensures q in s'.objects {
      assert Read(s', q) == Read(s, q);
    }
    assert Read(s', k) == Read(s, k);
  }

  /** What `CallOk` says of one call. */
  ghost predicate CallKeeps(s: Store, key: Key, s': Store, ph': Phase) {
    Sound(s') && RunOk(s', key, ph') && forall k: Key :: k != key && IsCRKind(k.kind) ==> Rely(s, s', k)
  }

  lemma FetchOk(s: Store, key: Key, c: Choice)
    requires Sound(s) && IsCRKind(key.kind)
    ensures CallKeeps(s, key, s, OnFetch(s, key))
  {
    if Holds(s, key) {
      DefaultsAgree(Resource(s, key));
    }
  }

  lemma NamespaceOk(s: Store, key: Key, cr: CR, version: nat, c: Choice)
    requires Sound(s) && RunOk(s, key, CheckNamespace(cr, version))
    ensures CallKeeps(s, key, s, OnNamespace(s, cr, version, c))
  {
    hide StartWork, Copied, Held;
    if Finalizer(cr) in cr.finalizers {
      StartOk(s, key, cr, version, c);
    }
    forall k: Key | k != key && IsCRKind(k.kind) ensures Rely(s, s, k) {
      RelyReflexive(s, k);
    }
  }

  /** Storing the instance with its finalizer. */
  lemma PersistedOk(s: Store, key: Key, cr: CR, version: nat)
    requires Sound(s) && IsCRKind(key.kind) && RunOk(s, key, PersistFinalizer(cr, version))
    ensures var cr' := WithFinalizer(cr);
            var r := Update(s, CustomResource(cr'), version);
            r.Ok? ==>
              && Sound(r.value) && Held(r.value, key, cr')
              && forall k: Key :: k != key && IsCRKind(k.kind) ==> Rely(s, r.value, k)
  {
    var cr' := WithFinalizer(cr);
    var r := Update(s, CustomResource(cr'), version);
    if r.Ok? {
      UpdateEffect(s, CustomResource(cr'), version);
      DefaultsAgree(Resource(s, key));
      assert r.value.objects[key].obj == CustomResource(cr');
      forall k: Key | k != key && IsCRKind(k.kind) ensures Rely(s, r.value, k) {
        OwnWriteRely(s, r.value, key, k);
      }
    }
  }

  lemma PersistOk(s: Store, key: Key, cr: CR, version: nat, c: Choice)
    requires Sound(s) && IsCRKind(key.kind) && RunOk(s, key, PersistFinalizer(cr, version))
    ensures var (s', ph') := Call(s, key, PersistFinalizer(cr, version), c); CallKeeps(s, key, s', ph')
  {
    hide StartWork, Update, Rely, Held, Copied;
    var cr' := WithFinalizer(cr);
    var r := Update(s, CustomResource(cr'), version);
    PersistedOk(s, key, cr, version);
    if r.Ok? {
      StartOk(r.value, key, cr', s.next, c);
    } else {
      AllRelyReflexive(s, key);
    }
  }

  lemma AllRelyReflexive(s: Store, key: Key)
    ensures forall k: Key :: k != key && IsCRKind(k.kind) ==> Rely(s, s, k)
  {
    forall k: Key | k != key && IsCRKind(k.kind) ensures Rely(s, s, k) {
      RelyReflexive(s, k);
    }
  }

  lemma WorkOk(s: Store, key: Key, ph: Phase, c: Choice)
    requires Sound(s) && IsCRKind(key.kind) && RunOk(s, key, ph) && ph.Working?
    ensures var (s', ph') := Call(s, key, ph, c); CallKeeps(s, key, s', ph')
  {
    hide TaskCall, TaskOk, Rely, Held;
    var cr, todo, later := ph.cr, ph.todo, ph.later;
    var (s', step) := TaskCall(s, todo[0]);
    forall k: Key | IsCRKind(k.kind) ensures Rely(s, s', k) {
      TaskCallOk(s, cr, todo[0], later.None?, k);
    }
    RunOkStable(s, s', key, ph);
    TaskCallOk(s, cr, todo[0], later.None?, key);
    AfterTaskOk(s', key, cr, ph.version, todo, later, step);
  }

  lemma MarkOk(s: Store, key: Key, cr: CR, version: nat, console: seq<Task>, c: Choice)
    requires Sound(s) && IsCRKind(key.kind) && RunOk(s, key, MarkDeployed(cr, version, console))
    ensures var (s', ph') := Call(s, key, MarkDeployed(cr, version, console), c); CallKeeps(s, key, s', ph')
  {
    hide TaskOk;
    var r := UpdateStatus(s, key, true, version);
    if r.Ok? {
      forall k: Key | k != key && IsCRKind(k.kind) ensures Rely(s, r.value, k) {
        OwnWriteRely(s, r.value, key, k);
      }
      StatusFresh(s, key, version);
      TasksOkStable(s, r.value, cr, console, true);
      AdvanceOk(r.value, key, cr, version, console, None);
    } else {
      AllRelyReflexive(s, key);
    }
  }

  lemma StatusFresh(s: Store, key: Key, version: nat)
    requires Sound(s) && UpdateStatus(s, key, true, version).Ok?
    ensures FreshChanges(s, UpdateStatus(s, key, true, version).value)
  {
  }

  lemma CleanOk(s: Store, key: Key, ph: Phase, c: Choice)
    requires Sound(s) && IsCRKind(key.kind) && RunOk(s, key, ph) && (ph.ReadBinding? || ph.WriteBinding?)
    ensures var (s', ph') := Call(s, key, ph, c); CallKeeps(s, key, s', ph')
  {
    hide SetDefaults, StartWork, BindingName, AccountName, CleansUp, Update;
    AllRelyReflexive(s, key);
    if ph.WriteBinding? {
      CleaningWrite(s, key, ph);
    }
  }

  /** The finalizer's write to the binding. */
  lemma CleaningWrite(s: Store, key: Key, ph: Phase)
    requires Sound(s) && IsCRKind(key.kind) && RunOk(s, key, ph) && ph.WriteBinding?
    ensures var r := Update(s, Cleaned(ph.existing, ph.cr), ph.bindingVersion);
            r.Ok? ==> Sound(r.value) && RunOk(r.value, key, DropFinalizer(ph.cr, ph.version))
                      && forall k: Key | IsCRKind(k.kind) :: Rely(s, r.value, k)
  {
    hide SetDefaults, BindingName, AccountName, CleansUp, Finalizer, Current;
    var o := Cleaned(ph.existing, ph.cr);
    BindingWrite(s, o, ph.bindingVersion);
    var r := Update(s, o, ph.bindingVersion);
    hide Rely, Cleaned, Update;
    if r.Ok? {
      RunOkStable(s, r.value, key, ReadBinding(ph.cr, ph.version));
    }
  }

  lemma BindingWrite(s: Store, o: Obj, version: nat)
    requires Sound(s) && o.ClusterRoleBinding?
    ensures var r := Update(s, o, version);
            r.Ok? ==> Sound(r.value) && forall k: Key | IsCRKind(k.kind) :: Rely(s, r.value, k)
  {
    var r := Update(s, o, version);
    if r.Ok? {
      UpdateEffect(s, o, version);
      hide Rely;
      KeysAfter(s, r.value, Scoped(KeyOf(o)));
      forall k: Key | IsCRKind(k.kind) ensures Rely(s, r.value, k) {
        ChildWrite(s, r.value, k, Scoped(KeyOf(o)));
      }
    }
  }

  lemma DropOk(s: Store, key: Key, cr: CR, version: nat, c: Choice)
    requires Sound(s) && IsCRKind(key.kind) && RunOk(s, key, DropFinalizer(cr, version))
    ensures var (s', ph') := Call(s, key, DropFinalizer(cr, version), c); CallKeeps(s, key, s', ph')
  {
    hide SetDefaults, StartWork;
    var o := CustomResource(WithoutFinalizer(cr));
    var r := Update(s, o, version);
    if r.Ok? {
      UpdateEffect(s, o, version);
      forall k: Key | k != key && IsCRKind(k.kind) ensures Rely(s, r.value, k) {
        OwnWriteRely(s, r.value, key, k);
      }
    } else {
      AllRelyReflexive(s, key);
    }
  }

  lemma CallOk(s: Store, key: Key, ph: Phase, c: Choice)
    requires Sound(s) && IsCRKind(key.kind) && RunOk(s, key, ph)
    ensures var (s', ph') := Call(s, key, ph, c); CallKeeps(s, key, s', ph')
  {
    hide Call, CallKeeps, RunOk;
    match ph
    case Fetch =>
      FetchOk(s, key, c);
      ReadCalls(s, key, Fetch, c);
    case CheckNamespace(cr, version) =>
      NamespaceOk(s, key, cr, version, c);
      ReadCalls(s, key, ph, c);
    case PersistFinalizer(cr, version) => PersistOk(s, key, cr, version, c);
    case Working(_, _, _, _) => WorkOk(s, key, ph, c);
    case MarkDeployed(cr, version, console) => MarkOk(s, key, cr, version, console, c);
    case ReadBinding(_, _) => CleanOk(s, key, ph, c);
    case WriteBinding(_, _, _, _) => CleanOk(s, key, ph, c);
    case DropFinalizer(cr, version) => DropOk(s, key, cr, version, c);
    case Done(_) => DoneOk(s, key, ph, c);
  }

  lemma ReadCalls(s: Store, key: Key, ph: Phase, c: Choice)
    ensures ph.Fetch? ==> Call(s, key, ph, c) == (s, OnFetch(s, key))
    ensures ph.CheckNamespace? ==> Call(s, key, ph, c) == (s, OnNamespace(s, ph.cr, ph.version, c))
  {
    hide OnNamespace, OnFetch;
  }

  lemma DoneOk(s: Store, key: Key, ph: Phase, c: Choice)
    requires Sound(s) && ph.Done?
    ensures var (s', ph') := Call(s, key, ph, c); CallKeeps(s, key, s', ph')
  {
    AllRelyReflexive(s, key);
  }

  lemma FaultOk(s: Store, key: Key, ph: Phase)
    requires RunOk(s, key, ph)
    ensures RunOk(s, key, OnFault(ph))
  {
    hide TaskOk, Held;
    if ph.Working? {
      TaskFaultOk(s, ph.cr, ph.todo[0], ph.later.None?);
      AfterTaskOk(s, key, ph.cr, ph.version, ph.todo, ph.later, TaskFault(ph.todo[0]));
    }
  }

  /** Only after a failed read does a run go on. */
  lemma FaultEndsWrites(s: Store, key: Key, ph: Phase, c: Choice)
    ensures OnFault(ph).Done? || Call(s, key, ph, c).0 == s
  {
    hide Program, ConsoleProgram, Apply, CD.UpdateSpec, Perform;
  }

  /** Every run keeps what it relies on, whoever acts. */
  lemma BaseKept(st: State, a: Action)
    requires Base(st) && Enabled(st, a)
    ensures Base(Do(st, a))
  {
    hide RunOk, Call, OnFault, Rely, Required, NextGranted, NextConsoled, FinishedBinding;
    var st' := Do(st, a);
    match a
    case Begin(key) => FetchIsOk(st.store, key);
    case Fail(key) => FaultOk(st.store, key, st.runs[key]);
    case Step(key, c) =>
      CallOk(st.store, key, st.runs[key], c);
      forall k | k in st.runs && k != key ensures RunOk(st'.store, k, st.runs[k]) {
        RunOkStable(st.store, st'.store, k, st.runs[k]);
      }
    case Lose(key, c) =>
      CallOk(st.store, key, st.runs[key], c);
      LostOk(st.store, key, st.runs[key], c);
      forall k | k in st.runs && k != key ensures RunOk(st'.store, k, st.runs[k]) {
        RunOkStable(st.store, st'.store, k, st.runs[k]);
      }
    case _ =>
      UserRely(st, a, Key(GatewayKind, "", ""));
      forall k | k in st.runs ensures RunOk(st'.store, k, st.runs[k]) {
        UserRely(st, a, k);
        RunOkStable(st.store, st'.store, k, st.runs[k]);
      }
  }

  lemma FetchIsOk(s: Store, key: Key)
    ensures RunOk(s, key, Fetch)
  {
  }

  lemma LostOk(s: Store, key: Key, ph: Phase, c: Choice)
    requires RunOk(s, key, ph)
    ensures RunOk(Call(s, key, ph, c).0, key, OnFault(ph))
  {
    hide Call, OnFault, Held, TasksOk, Copied, Current;
    FaultEndsWrites(s, key, ph, c);
    FaultOk(s, key, ph);
  }

  // ---- What the operator does to the resources themselves ----

  /** Every other resource, whatever the call, is untouched. */
  lemma {:induction false} CallElsewhere(s: Store, key: Key, ph: Phase, c: Choice, k: Key)
    requires Sound(s) && IsCRKind(key.kind) && RunOk(s, key, ph) && IsCRKind(k.kind) && k != key
    ensures Read(Call(s, key, ph, c).0, k) == Read(s, k)
  {
    hide StartWork, Advance, TaskCall, TaskOk;
    match ph
    case PersistFinalizer(cr, version) => UpdateEffect(s, CustomResource(WithFinalizer(cr)), version);
    case DropFinalizer(cr, version) => UpdateEffect(s, CustomResource(WithoutFinalizer(cr)), version);
    case WriteBinding(cr, _, existing, version) => UpdateEffect(s, Cleaned(existing, cr), version);
    case Working(cr, _, todo, later) => TaskLeavesResources(s, cr, todo[0], later.None?, k);
    case _ =>
  }

  lemma TaskLeavesResources(s: Store, cr: CR, t: Task, late: bool, k: Key)
    requires Sound(s) && IsCRKind(k.kind) && TaskOk(s, cr, t, late)
    ensures Read(TaskCall(s, t).0, k) == Read(s, k)
  {
    hide Apply, CD.UpdateSpec, Perform;
    match t
    case CreateOnly(o) => CreateEffect(s, o);
    case FinishWrite(w) =>
      if Perform(s, w).Ok? {
        PerformIsChildWrite(s, cr, w, late, k);
      }
    case DeployController(_, _, _, _, _, _) => DeployOk(s, cr, t, late);
    case _ =>
  }

  /** A run never creates its own resource, never marks it deleted, never takes back its status, and changes
      the status only by the status update. */
  lemma {:induction false} CallOnOwnResource(s: Store, key: Key, ph: Phase, c: Choice)
    requires Sound(s) && IsCRKind(key.kind) && RunOk(s, key, ph)
    ensures var (s', ph') := Call(s, key, ph, c);
            Holds(s', key) ==>
              && Holds(s, key) && Resource(s', key).deleting == Resource(s, key).deleting
              && AccountName(Resource(s', key)) == AccountName(Resource(s, key))
              && (Resource(s, key).deployed ==> Resource(s', key).deployed)
              && (Resource(s', key).deployed ==>
                  Resource(s, key).deployed || (ph.MarkDeployed? && UpdateStatus(s, key, true, ph.version).Ok?))
  {
    hide StartWork, Advance, TaskCall, TaskOk, SetDefaults;
    match ph
    case PersistFinalizer(cr, version) => OwnUpdate(s, key, cr, WithFinalizer(cr), version);
    case DropFinalizer(cr, version) => OwnUpdate(s, key, cr, WithoutFinalizer(cr), version);
    case WriteBinding(cr, _, existing, version) => UpdateEffect(s, Cleaned(existing, cr), version);
    case Working(cr, _, todo, later) => TaskLeavesResources(s, cr, todo[0], later.None?, key);
    case _ =>
  }

  lemma OwnUpdate(s: Store, key: Key, cr: CR, cr': CR, version: nat)
    requires Sound(s) && IsCRKind(key.kind) && KeyOfCR(cr) == key && cr' == cr.(finalizers := cr'.finalizers)
    requires Copied(s, key, cr, version) || Held(s, key, cr)
    ensures var r := Update(s, CustomResource(cr'), version);
            r.Ok? && Holds(r.value, key) ==>
              && Holds(s, key) && Resource(r.value, key).deleting == Resource(s, key).deleting
              && AccountName(Resource(r.value, key)) == AccountName(Resource(s, key))
              && Resource(r.value, key).deployed == Resource(s, key).deployed
  {
    UpdateEffect(s, CustomResource(cr'), version);
    if Holds(s, key) {
      DefaultsAgree(Resource(s, key));
    }
  }

  // ---- Executions ----

  /** Nothing in flight, nothing on record, no resource marked deployed yet. */
  ghost predicate Start(st: State) {
    && st.runs == map[] && st.granted == {} && st.consoled == {} && st.bound == {} && st.receipts == map[]
    && Sound(st.store)
    && forall k :: Holds(st.store, k) ==> !Resource(st.store, k).deployed
  }

  lemma {:induction false} BaseAlways(st: State, actions: seq<Action>)
    requires Base(st) && Legal(st, actions)
    ensures Base(Execute(st, actions))
    decreases |actions|
  {
    if actions != [] {
      BaseKept(st, actions[0]);
      BaseAlways(Do(st, actions[0]), actions[1..]);
    }
  }

  /** A run writes to other objects than its own resource only while it works or cleans up. */
  lemma OnlyWorkTouchesOthers(s: Store, key: Key, ph: Phase, c: Choice, q: Key)
    requires Sound(s) && IsCRKind(key.kind) && RunOk(s, key, ph) && !ph.Working? && !ph.WriteBinding? && q != key
    ensures Read(Call(s, key, ph, c).0, q) == Read(s, q)
  {
    hide Program;
    match ph
    case PersistFinalizer(cr, version) => UpdateEffect(s, CustomResource(WithFinalizer(cr)), version);
    case DropFinalizer(cr, version) => UpdateEffect(s, CustomResource(WithoutFinalizer(cr)), version);
    case _ =>
  }

  /** The finalizer comes first: whenever a run changes anything but its own resource, that resource is in the
      store and carries the finalizer, whether or not the run hears of the change. */
  lemma FinalizerBeforeEffects(st: State, actions: seq<Action>, a: Action, q: Key)
    requires Start(st) && Legal(st, actions) && Enabled(Execute(st, actions), a) && CarriedOut(a) && q != a.key
    requires Read(Do(Execute(st, actions), a).store, q) != Read(Execute(st, actions).store, q)
    ensures var s := Execute(st, actions).store;
            Holds(s, a.key) && Finalizer(Resource(s, a.key)) in Resource(s, a.key).finalizers
  {
    var now := Execute(st, actions);
    BaseAlways(st, actions);
    var ph := now.runs[a.key];
    assert RunOk(now.store, a.key, ph);
    if !ph.Working? && !ph.WriteBinding? {
      OnlyWorkTouchesOthers(now.store, a.key, ph, a.choice, q);
    }
  }
}
