/** The Deployment behind a controller's status, over all executions: it may be under either of two names. */
module ControllerStatus {
  import opened Kubernetes
  import opened ApiStore
  import opened Tasks
  import opened Runs
  import opened Protocol
  import opened ProtocolChildren
  import CD = ControllerDeployment

  /** A Deployment is in one of the two places. */
  ghost predicate AnyDeployment(s: Store, cr: CR) {
    exists q :: q in DeploymentPlaces(cr) && q in s.objects
  }

  /** Whether the task cannot succeed without leaving a Deployment in one of them. */
  predicate MakesDeployment(t: Task, cr: CR) {
    match t
    case DeployController(probe, _, meta, _, _, _) =>
      probe in DeploymentPlaces(cr) && Key(DeploymentKind, meta.ns, meta.name) in DeploymentPlaces(cr)
    case Ensure(init, _) => KeyOf(init) in DeploymentPlaces(cr)
    case FinishWrite(w) => KeyOf(w.obj) in DeploymentPlaces(cr)
    case _ => false
  }

  /** A controller's list of tasks has left a Deployment, or is going to. */
  ghost predicate Deploying(s: Store, cr: CR, todo: seq<Task>) {
    cr.spec.ControllerSpec? ==> AnyDeployment(s, cr) || exists j :: 0 <= j < |todo| && MakesDeployment(todo[j], cr)
  }

  /** A run up to its status update. */
  ghost predicate RunDeploys(s: Store, ph: Phase) {
    match ph
    case Working(cr, _, todo, later) => later.Some? ==> Deploying(s, cr, todo)
    case MarkDeployed(cr, _, _) => Deploying(s, cr, [])
    case _ => true
  }

  lemma PlacesAreDeployments(cr: CR)
    ensures forall q :: q in DeploymentPlaces(cr) ==>
              q.kind == DeploymentKind && q.ns == cr.meta.ns && Scoped(q) == q && !IsCRKind(q.kind)
  {
  }

  // ---- One call ----

  lemma TaskDeploys(s: Store, cr: CR, t: Task, late: bool)
    requires Sound(s) && TaskOk(s, cr, t, late) && MakesDeployment(t, cr)
    ensures var (s', step) := TaskCall(s, t);
            && (step == Finished(true) ==> AnyDeployment(s', cr))
            && (step.More? ==> MakesDeployment(step.task, cr))
    ensures TaskFault(t) != Finished(true) && (TaskFault(t).More? ==> MakesDeployment(TaskFault(t).task, cr))
  {
    hide Apply, Perform, CD.UpdateSpec, DeploymentPlaces;
    PlacesAreDeployments(cr);
    match t
    case Ensure(init, m) => EnsureDeploys(s, cr, init, m, late);
    case FinishWrite(w) =>
      if Perform(s, w).Ok? {
        PerformIsChildWrite(s, cr, w, late, Key(GatewayKind, "", ""));
      }
    case DeployController(probe, _, _, _, _, _) =>
      assert probe in s.objects ==> KeyOf(s.objects[probe].obj) == probe;
    case _ =>
  }

  lemma EnsureDeploys(s: Store, cr: CR, init: Obj, m: Mutation, late: bool)
    requires Sound(s) && TaskOk(s, cr, Ensure(init, m), late) && KeyOf(init) in DeploymentPlaces(cr)
    ensures Plan(s, init, m).Skip? ==> AnyDeployment(s, cr)
    ensures Plan(s, init, m).Commit? ==> MakesDeployment(FinishWrite(Plan(s, init, m).write), cr)
  {
    hide Apply, DeploymentPlaces;
    PlacesAreDeployments(cr);
    PlanOk(s, cr, init, m, late);
  }

  lemma DeployingStable(s: Store, s': Store, cr: CR, todo: seq<Task>)
    requires Deploying(s, cr, todo) && NothingLost(s, s')
    ensures Deploying(s', cr, todo)
  {
    hide DeploymentPlaces;
    PlacesAreDeployments(cr);
  }

  lemma ProgramDeploys(s: Store, cr: CR, c: Choice)
    ensures Deploying(s, cr, Program(cr, c))
  {
    if cr.spec.ControllerSpec? {
      var t := ControllerDeploymentTask(cr, c);
      assert MakesDeployment(t, cr);
      hide ConfigTask, ControllerDeploymentTask, IngressTask, ControllerServiceTask, RbacTasks, DefinitionTasks;
      var n := |Program(cr, c)|;
      assert Program(cr, c)[n - 3] == t;
    }
  }

  lemma AdvanceDeploys(s: Store, cr: CR, version: nat, todo: seq<Task>, later: Option<seq<Task>>)
    requires later.Some? ==> Deploying(s, cr, todo)
    ensures RunDeploys(s, Advance(cr, version, todo, later))
  {
    hide Deploying;
  }

  lemma StartDeploys(s: Store, cr: CR, version: nat, c: Choice)
    ensures RunDeploys(s, StartWork(cr, version, c))
  {
    hide Program, ConsoleProgram, Deploying;
    ProgramDeploys(s, cr, c);
    AdvanceDeploys(s, cr, version, Program(cr, c), Some(ConsoleProgram(cr, c)));
  }

  /** The first task is over, or replaced by what is left of it. */
  lemma AfterTaskDeploys(s: Store, cr: CR, version: nat, todo: seq<Task>, later: Option<seq<Task>>, step: TaskStep)
    requires todo != [] && (later.Some? ==> Deploying(s, cr, todo))
    requires MakesDeployment(todo[0], cr) ==>
               && (step == Finished(true) ==> AnyDeployment(s, cr))
               && (step.More? ==> MakesDeployment(step.task, cr))
    ensures RunDeploys(s, AfterTask(cr, version, todo, later, step))
  {
    hide MakesDeployment, AnyDeployment;
    if later.Some? && (step.More? || step == Finished(true)) {
      var rest := if step.More? then [step.task] + todo[1..] else todo[1..];
      if cr.spec.ControllerSpec? && !AnyDeployment(s, cr) {
        var j :| 0 <= j < |todo| && MakesDeployment(todo[j], cr);
        assert j > 0 ==> rest[if step.More? then j else j - 1] == todo[j];
        assert step.More? ==> rest[0] == step.task;
      }
      if step == Finished(true) {
        AdvanceDeploys(s, cr, version, todo[1..], later);
      }
    }
  }

  lemma CallDeploys(s: Store, key: Key, ph: Phase, c: Choice)
    requires Sound(s) && IsCRKind(key.kind) && RunOk(s, key, ph) && RunDeploys(s, ph)
    ensures RunDeploys(Call(s, key, ph, c).0, Call(s, key, ph, c).1)
  {
    hide Deploying, TaskCall, TaskOk, StartWork, Update, UpdateStatus, AfterTask, Advance, SetDefaults;
    var s' := Call(s, key, ph, c).0;
    match ph
    case CheckNamespace(cr, version) => StartDeploys(s, cr, version, c);
    case PersistFinalizer(cr, version) => StartDeploys(s', WithFinalizer(cr), s.next, c);
    case Working(_, _, _, _) => WorkDeploys(s, key, ph, c);
    case MarkDeployed(cr, version, console) => AdvanceDeploys(s', cr, version, console, None);
    case _ =>
  }

  lemma WorkDeploys(s: Store, key: Key, ph: Phase, c: Choice)
    requires Sound(s) && IsCRKind(key.kind) && RunOk(s, key, ph) && RunDeploys(s, ph) && ph.Working?
    ensures RunDeploys(Call(s, key, ph, c).0, Call(s, key, ph, c).1)
  {
    hide Deploying, TaskCall, TaskOk, AfterTask, MakesDeployment, Rely;
    var cr, todo, late := ph.cr, ph.todo, ph.later.None?;
    var (s', step) := TaskCall(s, todo[0]);
    TaskCallOk(s, cr, todo[0], late, key);
    RelyLosesNothing(s, s', key);
    if !late {
      DeployingStable(s, s', cr, todo);
    }
    if MakesDeployment(todo[0], cr) {
      TaskDeploys(s, cr, todo[0], late);
    }
    AfterTaskDeploys(s', cr, ph.version, todo, ph.later, step);
  }

  lemma FaultDeploys(s: Store, key: Key, ph: Phase)
    requires Sound(s) && RunOk(s, key, ph) && RunDeploys(s, ph)
    ensures RunDeploys(s, OnFault(ph))
  {
    hide Deploying, TaskFault, TaskOk, AfterTask, MakesDeployment;
    if ph.Working? {
      if MakesDeployment(ph.todo[0], ph.cr) {
        TaskDeploys(s, ph.cr, ph.todo[0], ph.later.None?);
      }
      AfterTaskDeploys(s, ph.cr, ph.version, ph.todo, ph.later, TaskFault(ph.todo[0]));
    }
  }

  // ---- Every run, every resource ----

  ghost predicate AllDeploy(st: State) {
    forall k :: k in st.runs ==> RunDeploys(st.store, st.runs[k])
  }

  lemma RunDeploysStable(s: Store, s': Store, ph: Phase)
    requires RunDeploys(s, ph) && NothingLost(s, s')
    ensures RunDeploys(s', ph)
  {
    hide Deploying;
    match ph
    case Working(cr, _, todo, later) =>
      if later.Some? {
        DeployingStable(s, s', cr, todo);
      }
    case MarkDeployed(cr, _, _) => DeployingStable(s, s', cr, []);
    case _ =>
  }

  lemma AllDeployKept(st: State, a: Action)
    requires Base(st) && AllDeploy(st) && Enabled(st, a)
    ensures AllDeploy(Do(st, a))
  {
    hide RunDeploys, Call, OnFault, RunOk, Ensured, FinishedBinding, NextGranted, NextConsoled;
    var st' := Do(st, a);
    NothingLostByAny(st, a);
    forall k | k in st'.runs ensures RunDeploys(st'.store, st'.runs[k]) {
      if a.Begin? && a.key == k {
        FetchDeploys(st.store);
      } else if (CarriedOut(a) || a.Fail?) && a.key == k {
        var ph := st.runs[k];
        FaultDeploys(st.store, k, ph);
        if CarriedOut(a) {
          CallDeploys(st.store, k, ph, a.choice);
          RunDeploysStable(st.store, st'.store, OnFault(ph));
        }
      } else {
        RunDeploysStable(st.store, st'.store, st.runs[k]);
      }
    }
  }

  lemma FetchDeploys(s: Store)
    ensures RunDeploys(s, Fetch)
  {
  }

  ghost predicate DeploymentReceipt(keys: set<Key>, ns: string) {
    exists q :: q in keys && q.kind == DeploymentKind && q.ns == ns
  }

  /** Every deployed controller has the receipt of a Deployment. */
  ghost predicate Receipted(st: State) {
    forall k :: Holds(st.store, k) && k.kind == ControllerKind && Resource(st.store, k).deployed ==>
      k in st.receipts && DeploymentReceipt(st.receipts[k], k.ns)
  }

  lemma MarkingReceipt(s: Store, key: Key, ph: Phase)
    requires Sound(s) && RunOk(s, key, ph) && RunDeploys(s, ph) && ph.MarkDeployed? && key.kind == ControllerKind
    ensures DeploymentReceipt(Ensured(s, ph.cr), key.ns)
  {
    hide Required, DeploymentPlaces, TasksOk;
    PlacesAreDeployments(ph.cr);
    assert KeyOf(s.objects[key].obj) == key;
    var q :| q in DeploymentPlaces(ph.cr) && q in s.objects;
    assert q in Ensured(s, ph.cr);
  }

  lemma ReceiptedKept(st: State, a: Action)
    requires Base(st) && AllDeploy(st) && Receipted(st) && Enabled(st, a)
    ensures Receipted(Do(st, a))
  {
    hide RunDeploys, OnFault, RunOk, Ensured, FinishedBinding, NextGranted, NextConsoled, DeploymentReceipt, Call;
    var st' := Do(st, a);
    forall k | Holds(st'.store, k) && k.kind == ControllerKind && Resource(st'.store, k).deployed
      ensures k in st'.receipts && DeploymentReceipt(st'.receipts[k], k.ns)
    {
      if CarriedOut(a) {
        CallReceipted(st, a, k);
      } else {
        UserReceipted(st, a, k);
      }
    }
  }

  lemma CallReceipted(st: State, a: Action, k: Key)
    requires Base(st) && AllDeploy(st) && Receipted(st) && Enabled(st, a) && CarriedOut(a) && k.kind == ControllerKind
    requires Holds(Do(st, a).store, k) && Resource(Do(st, a).store, k).deployed
    ensures k in Do(st, a).receipts && DeploymentReceipt(Do(st, a).receipts[k], k.ns)
  {
    hide RunDeploys, OnFault, RunOk, Ensured, FinishedBinding, NextGranted, NextConsoled, DeploymentReceipt, Call;
    var s, key, ph, st' := st.store, a.key, st.runs[a.key], Do(st, a);
    CallOk(s, key, ph, a.choice);
    if k != key {
      CallElsewhere(s, key, ph, a.choice, k);
      assert Read(st'.store, k) == Read(s, k);
    } else {
      CallOnOwnResource(s, key, ph, a.choice);
      if ph.MarkDeployed? {
        MarkingReceipt(s, key, ph);
      }
    }
  }

  lemma UserReceipted(st: State, a: Action, k: Key)
    requires Base(st) && Receipted(st) && Enabled(st, a) && !CarriedOut(a) && k.kind == ControllerKind
    requires Holds(Do(st, a).store, k) && Resource(Do(st, a).store, k).deployed
    ensures k in Do(st, a).receipts && DeploymentReceipt(Do(st, a).receipts[k], k.ns)
  {
    hide RunOk, OnFault, DeploymentReceipt;
    if Holds(st.store, k) {
      assert KeyOf(st.store.objects[k].obj) == k;
    }
  }

  lemma {:induction false} DeploymentsFrom(st: State, actions: seq<Action>)
    requires Base(st) && AllDeploy(st) && Receipted(st) && Legal(st, actions)
    ensures AllDeploy(Execute(st, actions)) && Receipted(Execute(st, actions))
    decreases |actions|
  {
    hide Base, AllDeploy, Receipted, Do, Enabled;
    if actions != [] {
      BaseKept(st, actions[0]);
      AllDeployKept(st, actions[0]);
      ReceiptedKept(st, actions[0]);
      DeploymentsFrom(Do(st, actions[0]), actions[1..]);
    }
  }

  /** In every reachable state a controller marked deployed has a Deployment: the one its marking run found, under the
      name its container had then or under its own. */
  lemma StatusHasDeployment(st: State, actions: seq<Action>, k: Key)
    requires Start(st) && Legal(st, actions) && k.kind == ControllerKind
    requires var s := Execute(st, actions).store; Holds(s, k) && Resource(s, k).deployed
    ensures var now := Execute(st, actions);
            && k in now.receipts
            && exists q :: q in now.receipts[k] && q in now.store.objects && q.kind == DeploymentKind && q.ns == k.ns
  {
    DeploymentsFrom(st, actions);
    StatusIsHonest(st, actions, k);
    var now := Execute(st, actions);
    var q :| q in now.receipts[k] && q.kind == DeploymentKind && q.ns == k.ns;
    assert q in now.store.objects.Keys;
  }

  /** At the status update itself it is in one of the two places the instance has. */
  lemma MarkingFindsDeployment(st: State, actions: seq<Action>, a: Action)
    requires Start(st) && Legal(st, actions) && Enabled(Execute(st, actions), a) && CarriedOut(a)
    requires var ph := Execute(st, actions).runs[a.key]; ph.MarkDeployed? && ph.cr.spec.ControllerSpec?
    ensures AnyDeployment(Execute(st, actions).store, Execute(st, actions).runs[a.key].cr)
  {
    DeploymentsFrom(st, actions);
    assert RunDeploys(Execute(st, actions).store, Execute(st, actions).runs[a.key]);
  }
}
