/** Executions in which one run has the store to itself, and what they leave of a console. */
module SoloRuns {
  import opened Kubernetes
  import opened ApiStore
  import opened Bindings
  import opened Tasks
  import opened Runs
  import opened Protocol
  import opened ProtocolGrants
  import CD = ControllerDeployment
  import ConsoleGrants
  import opened ConsoleRuns
  import opened ControllerPrograms
  import CT = ControllerTheorems
  import Outcomes

  // ---- A run on its own is an execution ----

  /** The steps of a run that is never disturbed. */
  function Steps(s: Store, key: Key, ph: Phase, c: Choice): seq<Action>
    decreases PhaseRank(ph), WorkRank(ph)
  {
    if ph.Done? then []
    else
      StepsDescend(s, key, ph, c);
      var (s', ph') := Call(s, key, ph, c);
      [Step(key, c)] + Steps(s', key, ph', c)
  }

  /** What a run on its own leaves of the resources. */
  ghost predicate Undisturbed(st: State, now: State, key: Key) {
    && (forall k: Key :: IsCRKind(k.kind) && k != key ==> Read(now.store, k) == Read(st.store, k))
    && (Holds(now.store, key) ==>
          Holds(st.store, key) && AccountName(Resource(now.store, key)) == AccountName(Resource(st.store, key)))
  }

  lemma {:induction false} StepsExecute(st: State, key: Key, c: Choice)
    requires Base(st) && key in st.runs
    ensures var actions := Steps(st.store, key, st.runs[key], c);
            && Legal(st, actions)
            && Execute(st, actions).store == RunToEnd(World(st.store, []), key, st.runs[key], c).0.store
            && Undisturbed(st, Execute(st, actions), key)
    decreases PhaseRank(st.runs[key]), WorkRank(st.runs[key])
  {
    hide Call, RunOk, FinishedBinding, Required, AccountName, NextGranted, NextConsoled;
    var s, ph := st.store, st.runs[key];
    if !ph.Done? {
      var st1 := Do(st, Step(key, c));
      StepsDescend(s, key, ph, c);
      BaseKept(st, Step(key, c));
      CallOnOwnResource(s, key, ph, c);
      forall k: Key | IsCRKind(k.kind) && k != key ensures Read(st1.store, k) == Read(s, k) {
        CallElsewhere(s, key, ph, c, k);
      }
      assert Tick(World(s, [])).(store := st1.store) == World(st1.store, []);
      StepsExecute(st1, key, c);
      assert ([Step(key, c)] + Steps(st1.store, key, st1.runs[key], c))[1..] == Steps(st1.store, key, st1.runs[key], c);
    }
  }

  /** One undisturbed reconcile. */
  function ReconcileActions(s: Store, key: Key, c: Choice): seq<Action> {
    [Begin(key)] + Steps(s, key, Fetch, c)
  }

  lemma ReconcileExecutes(st: State, key: Key, c: Choice)
    requires Base(st) && IsCRKind(key.kind) && !InFlight(st, key)
    ensures var actions := ReconcileActions(st.store, key, c);
            && Legal(st, actions)
            && Execute(st, actions).store == Reconcile(World(st.store, []), key, c).0.store
            && Undisturbed(st, Execute(st, actions), key)
  {
    hide Call, RunOk, Required, OnFault;
    var st1 := Do(st, Begin(key));
    BaseKept(st, Begin(key));
    StepsExecute(st1, key, c);
    assert ([Begin(key)] + Steps(st.store, key, Fetch, c))[1..] == Steps(st.store, key, Fetch, c);
  }

  lemma {:induction false} LegalAppend(st: State, a: seq<Action>, b: seq<Action>)
    requires Legal(st, a) && Legal(Execute(st, a), b)
    ensures Legal(st, a + b) && Execute(st, a + b) == Execute(Execute(st, a), b)
    decreases |a|
  {
    hide Do, Enabled;
    if a == [] {
      assert a + b == b;
    } else {
      assert (a + b)[1..] == a[1..] + b;
      LegalAppend(Do(st, a[0]), a[1..], b);
    }
  }

  // ---- What a console leaves ----

  lemma {:induction false} TasksKeepSound(w: World, todo: seq<Task>)
    requires Sound(w.store)
    ensures Sound(RunTasks(w, todo).0.store)
    decreases |todo|
  {
    hide RunTask;
    if todo != [] {
      TaskKeepsSound(w, todo[0]);
      TasksKeepSound(RunTask(w, todo[0]).0, todo[1..]);
    }
  }

  lemma {:induction false} TaskKeepsSound(w: World, t: Task)
    requires Sound(w.store)
    ensures Sound(RunTask(w, t).0.store)
    decreases TaskRank(t)
  {
    hide TaskCall, TaskFault;
    CallKeepsSound(w.store, t);
    TaskDescends(w.store, t);
    var step, w' := TaskCall(w.store, t).1, Tick(w).(store := TaskCall(w.store, t).0);
    if Faulty(w) {
      step, w' := TaskFault(t), Struck(w, TaskCall(w.store, t).0);
    }
    if step.More? && !t.Crash? {
      TaskKeepsSound(w', step.task);
    }
  }

  lemma CallKeepsSound(s: Store, t: Task)
    requires Sound(s)
    ensures Sound(TaskCall(s, t).0)
  {
    hide Apply, CD.UpdateSpec, Plan;
    match t
    case CreateOnly(o) => CreateEffect(s, o);
    case FinishWrite(w) =>
      if w.WCreate? {
        CreateEffect(s, w.obj);
      } else {
        UpdateEffect(s, w.obj, w.version);
      }
    case _ =>
  }

  /** Completing the console's tasks leaves its subject in its binding. */
  lemma ConsoleLeavesSubject(w: World, cr: CR, c: Choice)
    requires Sound(w.store) && w.fates == [] && HasConsole(cr) && RunTasks(w, ConsoleProgram(cr, c)).1
    ensures ConsoleSubject(cr) in Subjects(RunTasks(w, ConsoleProgram(cr, c)).0.store, ConsoleBindingName(cr))
  {
    hide RunTasks, RunTask, ConsoleRest, ConsoleProgram, ConsoleRbacTasks, Outcomes.Outcome, Outcomes.Single,
         Outcomes.Kept, ConsoleSubject, ConsoleBindingName;
    RoleTask(cr);
    BindingTask(cr);
    BindsSubject(cr);
    var t0, t1, rest := ConsoleRbacTasks(cr)[0], ConsoleRbacTasks(cr)[1], ConsoleRest(cr, c);
    var bk := ConsoleBindingKey(cr);
    ConsoleShape(cr, c);
    OneOfTasks(w, t0, [t1] + rest);
    Outcomes.SoloTask(w, t0);
    var w1 := RunTask(w, t0).0;
    OneOfTasks(w1, t1, rest);
    Outcomes.SoloTask(w1, t1);
    var w2 := RunTask(w1, t1).0;
    BoundHasSubject(t1, Object(w1.store, bk));
    RestLeaves(cr, c, bk);
    Outcomes.SoloFrame(w2, rest, bk);
    assert Read(RunTasks(w2, rest).0.store, bk) == Read(w2.store, bk);
  }

  lemma BindsSubject(cr: CR)
    requires HasConsole(cr)
    ensures var t := ConsoleRbacTasks(cr)[1];
            t.Ensure? && t.mutation.Bind? && t.init.ClusterRoleBinding? && t.mutation.subject == ConsoleSubject(cr)
  {
  }

  lemma BoundHasSubject(t: Task, found: Option<Obj>)
    requires Outcomes.Single(t) && t.Ensure? && t.mutation.Bind? && t.init.ClusterRoleBinding?
             && Outcomes.Outcome(t, found).Some?
    ensures var o := Outcomes.Outcome(t, found).value;
            o.ClusterRoleBinding? || o.RoleBinding?
    ensures t.mutation.subject in Outcomes.Outcome(t, found).value.subjects
    ensures found.None? ==> Outcomes.Outcome(t, found).value.ClusterRoleBinding?
    ensures found.Some? && KindOf(found.value) == ClusterRoleBindingKind ==>
              Outcomes.Outcome(t, found).value.ClusterRoleBinding?
  {
  }

  /** After every failure-free reconcile that succeeds, the subject of the controller's console is in its binding,
      whatever the RBAC flags say. */
  lemma EverySuccessGrantsConsole(s: Store, key: Key, c: Choice)
    requires CT.Live(s, key) && NamespaceActive(s, key.ns) && HasConsole(CT.Instance(s, key))
    requires Reconcile(World(s, []), key, c).1
    ensures var cr := CT.Instance(s, key);
            ConsoleSubject(cr) in Subjects(Reconcile(World(s, []), key, c).0.store, ConsoleBindingName(cr))
  {
    hide RunTasks, Program, ConsoleProgram, SetDefaults, Update;
    var s1, cr := CT.Persisted(s, key), CT.Instance(s, key);
    CT.ReconcileIsWork(s, key, c);
    CT.PersistedIsLive(s, key);
    var cr1 := CT.Instance(s1, key);
    var w1 := RunTasks(World(s1, []), Program(cr1, c)).0;
    TasksKeepSound(World(s1, []), Program(cr1, c));
    FatesStayEmpty(World(s1, []), Program(cr1, c));
    var w2 := if cr1.deployed then w1 else RunWrite(w1, UpdateStatus(w1.store, key, true, s1.objects[key].version)).0;
    StatusKeepsSound(w1, key, s1.objects[key].version);
    ConsoleLeavesSubject(w2, cr1, c);
  }

  lemma StatusKeepsSound(w: World, key: Key, version: nat)
    requires Sound(w.store) && w.fates == []
    ensures var w' := RunWrite(w, UpdateStatus(w.store, key, true, version)).0; Sound(w'.store) && w'.fates == []
  {
  }

  lemma {:induction false} FatesStayEmpty(w: World, todo: seq<Task>)
    requires w.fates == []
    ensures RunTasks(w, todo).0.fates == []
    decreases |todo|
  {
    hide RunTask;
    if todo != [] {
      FateStaysEmpty(w, todo[0]);
      FatesStayEmpty(RunTask(w, todo[0]).0, todo[1..]);
    }
  }

  lemma {:induction false} FateStaysEmpty(w: World, t: Task)
    requires w.fates == []
    ensures RunTask(w, t).0.fates == []
    decreases TaskRank(t)
  {
    hide TaskCall;
    TaskDescends(w.store, t);
    var (s', step) := TaskCall(w.store, t);
    if step.More? && !t.Crash? {
      FateStaysEmpty(Tick(w).(store := s'), step.task);
    }
  }

  /** The rule that keeps consoles from leaking also keeps them from being installed: a console with its controller's
      own account finds the controller's binding, which the check of the key does not let it update, so that every
      failure-free reconcile of such a controller fails. */
  lemma OwnConsoleNeverInstalls(s: Store, key: Key, c: Choice)
    requires CT.Live(s, key) && NamespaceActive(s, key.ns) && DistinctManifests(c) && key.ns != ""
    requires HasConsole(CT.Instance(s, key)) && ConsoleGrants.OwnConsole(CT.Instance(s, key))
    ensures !Reconcile(World(s, []), key, c).1
  {
    hide Program, ConsoleProgram, SetDefaults, Reconcile, RunTasks, Resolved, CT.Persisted, CT.StatusStore;
    CT.ReconcileIsWork(s, key, c);
    CT.PersistedIsLive(s, key);
    var s1, cr := CT.Persisted(s, key), CT.Instance(CT.Persisted(s, key), key);
    CT.WorkUntilMarked(s1, key, c);
    if Outcomes.Completable(Resolved(cr, c, s1), s1) {
      var s' := CT.StatusStore(s1, key, cr, c);
      OwnBindingIsThere(cr, c, s1, s');
      ConsoleStopsAtBinding(World(s', []), cr, c);
    }
  }

  lemma OwnBindingIsThere(cr: CR, c: Choice, s: Store, s': Store)
    requires HasConsole(cr) && ConsoleGrants.OwnConsole(cr) && Outcomes.DistinctObjects(Resolved(cr, c, s))
    requires Outcomes.Completed(Resolved(cr, c, s), s, s')
    ensures ConsoleBindingKey(cr) in s'.objects
  {
    hide Resolved, RbacTasks, Outcomes.Outcome, Outcomes.Kept, Outcomes.Single, ConsoleBindingKey,
         ConsoleGrants.OwnConsole;
    var t := OwnBindingTask(cr);
    RbacIsResolved(cr, c, s, t);
    var i :| 0 <= i < |Resolved(cr, c, s)| && Resolved(cr, c, s)[i] == t;
    assert Object(s', Outcomes.Kept(Resolved(cr, c, s)[i])).Some?;
  }

  lemma OwnBindingTask(cr: CR) returns (t: Task)
    requires HasConsole(cr) && ConsoleGrants.OwnConsole(cr)
    ensures t in RbacTasks(cr) && Outcomes.Single(t) && Outcomes.Kept(t) == ConsoleBindingKey(cr)
  {
    t := RbacTasks(cr)[1];
  }

  lemma RbacIsResolved(cr: CR, c: Choice, s: Store, t: Task)
    requires cr.spec.ControllerSpec? && t in RbacTasks(cr)
    ensures t in Resolved(cr, c, s)
  {
    hide RbacTasks, DefinitionTasks, ConfigTask, DeployTask, IngressTask, ControllerServiceTask;
    assert t in Front(cr, c);
  }
}
