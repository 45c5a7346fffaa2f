/** Whole reconciles of one controller under any failures, and what a reconcile after them makes of what they left. */
module ControllerConvergence {
  import opened Kubernetes
  import opened ApiStore
  import opened Tasks
  import opened Runs
  import opened Outcomes
  import opened ControllerPrograms
  import opened SecondOutcomes
  import opened ControllerTheorems
  import opened DeploymentConvergence
  import CD = ControllerDeployment
  import ConsoleRuns
  import GatewayTheorems

  type Attempt = GatewayTheorems.Attempt

  // ---- One task, whatever becomes of its calls ----

  /** The Deployment found belongs to nobody else. */
  predicate OwnedBy(found: Option<Obj>, t: Task)
    requires t.DeployController?
  {
    found.Some? && found.value.Deployment? && found.value.owner.Some? ==> found.value.owner.value == t.owner
  }

  /** Whatever becomes of its calls, the task leaves the Deployment as it was or as it wants it: after a failed
      read it builds afresh, but what it writes is the same. */
  lemma DeployAttempt(w: World, t: Task)
    requires Sound(w.store) && SameDeploy(t, t) && OwnedBy(Object(w.store, t.probe), t)
    ensures var w' := RunTask(w, t).0;
            && Sound(w'.store) && (forall q :: q != t.probe ==> Read(w'.store, q) == Read(w.store, q))
            && (|| Object(w'.store, t.probe) == Object(w.store, t.probe)
                || (Outcome(t, Object(w.store, t.probe)).Some?
                    && Object(w'.store, t.probe) == Outcome(t, Object(w.store, t.probe))))
  {
    hide CD.UpdateSpec, CD.StableEnv, CD.ValidOrders, CD.DistinctNames, Apply, Plan;
    var s, k := w.store, t.probe;
    assert k in s.objects ==> KeyOf(s.objects[k].obj) == k;
    assert Tick(w).(store := s) == Tick(w);
    var step := if Faulty(w) then TaskFault(t) else TaskCall(s, t).1;
    DeployWrites(s, t, step);
    assert TaskCall(s, t).0 == s;
    if step.More? {
      assert RunTask(w, t) == RunTask(Tick(w), step.task);
      EnsureAttempt(Tick(w), step.task.init, step.task.mutation);
    }
  }

  /** What is left to do after the first call, answered or not, writes the outcome. */
  lemma DeployWrites(s: Store, t: Task, step: TaskStep)
    requires Sound(s) && SameDeploy(t, t) && OwnedBy(Object(s, t.probe), t)
    requires step == TaskFault(t) || step == TaskCall(s, t).1
    ensures step.More? ==>
              && step.task.Ensure? && step.task.init.Deployment? && KeyOf(step.task.init) == t.probe
              && (EnsureOutcome(step.task.init, step.task.mutation, Object(s, t.probe)).Some? ==>
                    EnsureOutcome(step.task.init, step.task.mutation, Object(s, t.probe))
                        == Outcome(t, Object(s, t.probe)))
  {
    hide CD.UpdateSpec, CD.StableEnv, CD.ValidOrders, CD.DistinctNames;
    var k := t.probe;
    assert k in s.objects ==> KeyOf(s.objects[k].obj) == k;
    if k in s.objects {
      var f := s.objects[k].obj;
      CD.FastPathRefines(f.deployment, t.build, t.first, t.second);
      CD.PanicsForAnyOrder(f.deployment, t.build, t.first, t.second);
    }
  }

  lemma EnsureAttempt(w: World, init: Obj, m: Mutation)
    requires Sound(w.store) && !init.CustomResource?
    ensures var w', k := RunTask(w, Ensure(init, m)).0, Scoped(KeyOf(init));
            && Sound(w'.store) && (forall q :: q != k ==> Read(w'.store, q) == Read(w.store, q))
            && (|| Object(w'.store, k) == Object(w.store, k)
                || (EnsureOutcome(init, m, Object(w.store, k)).Some?
                    && Object(w'.store, k) == EnsureOutcome(init, m, Object(w.store, k))))
  {
    hide Plan, Perform, EnsureOutcome;
    var plan := Plan(w.store, init, m);
    assert Tick(w).(store := w.store) == Tick(w);
    if !Faulty(w) && plan.Commit? {
      assert RunTask(w, Ensure(init, m)) == RunTask(Tick(w), FinishWrite(plan.write));
      AnyWrite(Tick(w), plan.write);
      PlannedOutcome(w.store, init, m);
    }
  }

  /** What a planned write does if it is carried out. */
  lemma PlannedOutcome(s: Store, init: Obj, m: Mutation)
    requires Sound(s) && !init.CustomResource? && Plan(s, init, m).Commit?
    ensures var r, k := Perform(s, Plan(s, init, m).write), Scoped(KeyOf(init));
            && r.Ok? && Sound(r.value) && (forall q :: q != k ==> Read(r.value, q) == Read(s, q))
            && EnsureOutcome(init, m, Object(s, k)).Some? && Object(r.value, k) == EnsureOutcome(init, m, Object(s, k))
  {
    hide Apply, Perform;
    var k := Scoped(KeyOf(init));
    var start := if k in s.objects then s.objects[k].obj else init;
    ApplyKeepsKey(m, start);
    assert k in s.objects ==> KeyOf(start) == k;
    CommitStores(s, init, m);
  }

  lemma AnyWrite(w: World, write: Write)
    ensures RunTask(w, FinishWrite(write)) == RunWrite(w, Perform(w.store, write))
  {
  }

  /** Every other task as well leaves its object as it was or as it wants it. */
  lemma OrdinaryAttempt(w: World, t: Task)
    requires Sound(w.store) && Single(t) && !t.DeployController?
    ensures var w', k := RunTask(w, t).0, Kept(t);
            && Sound(w'.store) && (forall q :: q != k ==> Read(w'.store, q) == Read(w.store, q))
            && Attempted(t, Object(w.store, k), Object(w'.store, k))
  {
    hide EnsureOutcome, Plan;
    assert Tick(w).(store := w.store) == Tick(w);
    match t
    case CreateOnly(o) => CreateEffect(w.store, o);
    case Ensure(init, m) => EnsureAttempt(w, init, m);
    case EnsureIfMissing(init, m) =>
      if !Faulty(w) && Scoped(KeyOf(init)) !in w.store.objects {
        assert RunTask(w, t) == RunTask(Tick(w), Ensure(init, m));
        EnsureAttempt(Tick(w), init, m);
      }
  }

  // ---- Lists of tasks ----

  /** Each object is as before or as its task wants it, and nothing else has changed. */
  ghost predicate Tried(todo: seq<Task>, s: Store, s': Store)
    requires Outcomes.DistinctObjects(todo)
  {
    && Sound(s') && (forall k :: Untouched(todo, k) ==> Read(s', k) == Read(s, k))
    && forall i :: 0 <= i < |todo| ==> Attempted(todo[i], Object(s, Kept(todo[i])), Object(s', Kept(todo[i])))
  }

  lemma NothingTried(todo: seq<Task>, s: Store)
    requires Outcomes.DistinctObjects(todo) && Sound(s)
    ensures Tried(todo, s, s)
  {
    hide Outcome, Single, Kept;
  }

  lemma TriedOne(t: Task, s: Store, s': Store)
    requires Single(t) && Sound(s') && (forall q :: q != Kept(t) ==> Read(s', q) == Read(s, q))
    requires Attempted(t, Object(s, Kept(t)), Object(s', Kept(t)))
    ensures Outcomes.DistinctObjects([t]) && Tried([t], s, s')
  {
    hide Outcome, Single, Kept;
    forall k | Untouched([t], k) ensures Read(s', k) == Read(s, k) {
      assert Kept([t][0]) != k;
    }
  }

  lemma PartsDistinct(a: seq<Task>, b: seq<Task>)
    requires Outcomes.DistinctObjects(a + b)
    ensures Outcomes.DistinctObjects(a) && Outcomes.DistinctObjects(b)
    ensures forall i :: 0 <= i < |a| ==> Untouched(b, Kept(a[i]))
    ensures forall j :: 0 <= j < |b| ==> Untouched(a, Kept(b[j]))
  {
    hide Single, Kept;
    assert forall i :: 0 <= i < |a| ==> (a + b)[i] == a[i];
    assert forall j :: 0 <= j < |b| ==> (a + b)[|a| + j] == b[j];
  }

  lemma TriedAppend(a: seq<Task>, b: seq<Task>, s: Store, s1: Store, s2: Store)
    requires Outcomes.DistinctObjects(a + b) && Outcomes.DistinctObjects(a) && Outcomes.DistinctObjects(b)
    requires Tried(a, s, s1) && Tried(b, s1, s2)
    ensures Tried(a + b, s, s2)
  {
    hide Outcome, Single, Kept, Attempted;
    PartsDistinct(a, b);
    forall k | Untouched(a + b, k) ensures Read(s2, k) == Read(s, k) {
      assert forall i :: 0 <= i < |a| ==> (a + b)[i] == a[i];
      assert forall j :: 0 <= j < |b| ==> (a + b)[|a| + j] == b[j];
    }
    forall i | 0 <= i < |a + b|
      ensures Attempted((a + b)[i], Object(s, Kept((a + b)[i])), Object(s2, Kept((a + b)[i])))
    {
      if i < |a| {
        assert Read(s2, Kept(a[i])) == Read(s1, Kept(a[i]));
      } else {
        assert Read(s1, Kept(b[i - |a|])) == Read(s, Kept(b[i - |a|]));
      }
    }
  }

  ghost predicate Ordinary(todo: seq<Task>) {
    forall i :: 0 <= i < |todo| ==> Single(todo[i]) && !todo[i].DeployController?
  }

  lemma {:induction false} OrdinaryTried(w: World, todo: seq<Task>)
    requires Sound(w.store) && Outcomes.DistinctObjects(todo) && Ordinary(todo)
    ensures Tried(todo, w.store, RunTasks(w, todo).0.store)
    decreases |todo|
  {
    hide Outcome, Single, Kept, RunTask;
    if todo != [] {
      var rest := todo[1..];
      assert todo == [todo[0]] + rest;
      PartsDistinct([todo[0]], rest);
      OrdinaryAttempt(w, todo[0]);
      var (w1, ok) := RunTask(w, todo[0]);
      TriedOne(todo[0], w.store, w1.store);
      if ok {
        OrdinaryTried(w1, rest);
      }
      NothingTried(rest, w1.store);
      TriedAppend([todo[0]], rest, w.store, w1.store, RunTasks(w, todo).0.store);
    }
  }

  /** Objects that no task of the list keeps stay as they are, whatever becomes of the calls. */
  lemma {:induction false} OrdinaryFrame(w: World, todo: seq<Task>, k: Key)
    requires Sound(w.store) && Untouched(todo, k) && Ordinary(todo)
    ensures Sound(RunTasks(w, todo).0.store) && Read(RunTasks(w, todo).0.store, k) == Read(w.store, k)
    decreases |todo|
  {
    hide Outcome, Single, Kept, RunTask;
    if todo != [] {
      OrdinaryAttempt(w, todo[0]);
      OrdinaryFrame(RunTask(w, todo[0]).0, todo[1..], k);
    }
  }

  // ---- The children ----

  /** The Deployment the controller works on is under its own name and nobody else's, or the lookup finds none. */
  predicate Steady(cr: CR, s: Store)
    requires cr.spec.ControllerSpec?
  {
    if Probe(cr) == Named(cr)
    then
      var found := Object(s, Probe(cr));
      found.Some? && found.value.Deployment? && found.value.owner.Some? ==> found.value.owner.value == KeyOfCR(cr)
    else Probe(cr) !in s.objects
  }

  lemma SteadyKey(cr: CR, s: Store)
    requires cr.spec.ControllerSpec? && Steady(cr, s)
    ensures DeploymentKey(cr, s) == Named(cr)
  {
  }

  lemma DeployTried(w: World, cr: CR, c: Choice)
    requires Sound(w.store) && cr.spec.ControllerSpec? && Steady(cr, w.store) && TameBuilds(cr, c, c)
    ensures var t, w' := DeployTask(cr, c, w.store), RunTask(w, ControllerDeploymentTask(cr, c)).0;
            Outcomes.DistinctObjects([t]) && Tried([t], w.store, w'.store)
  {
    hide CD.UpdateSpec, CD.StableEnv, CD.ValidOrders, CD.DistinctNames, ControllerBuild, Outcome, Plan;
    var d, t, s := ControllerDeploymentTask(cr, c), DeployTask(cr, c, w.store), w.store;
    DeployTaskKept(cr, c, s);
    if Probe(cr) == Named(cr) {
      DeployAttempt(w, d);
      TriedOne(t, s, RunTask(w, d).0.store);
    } else {
      LookupFindsNothing(w, cr, c);
      if FreshDeployment(d).More? {
        OrdinaryAttempt(Tick(w), t);
      }
      TriedOne(t, s, RunTask(w, d).0.store);
    }
  }

  /** Answered, refused or lost, a lookup that finds nothing leads to a create-or-update. */
  lemma LookupFindsNothing(w: World, cr: CR, c: Choice)
    requires cr.spec.ControllerSpec? && Probe(cr) != Named(cr) && Probe(cr) !in w.store.objects
    ensures var d := ControllerDeploymentTask(cr, c);
            if FreshDeployment(d).More?
            then RunTask(w, d) == RunTask(Tick(w), DeployTask(cr, c, w.store)) && DeployTask(cr, c, w.store).Ensure?
            else RunTask(w, d) == (Tick(w), false)
  {
    hide CD.UpdateSpec;
    var d := ControllerDeploymentTask(cr, c);
    assert TaskCall(w.store, d) == (w.store, FreshDeployment(d)) && TaskFault(d) == FreshDeployment(d);
    assert Tick(w).(store := w.store) == Tick(w) && Struck(w, w.store) == Tick(w);
  }

  lemma FrontIsOrdinary(cr: CR, c: Choice)
    requires cr.spec.ControllerSpec? && DistinctManifests(c)
    ensures Outcomes.DistinctObjects(Front(cr, c)) && Ordinary(Front(cr, c))
  {
    hide RbacTasks, ConfigTask, Kept, Single;
    FrontStaged(cr, c);
    forall i | 0 <= i < |Front(cr, c)| ensures !Front(cr, c)[i].DeployController? {
      if Front(cr, c)[i] in RbacTasks(cr) {
        RbacIsOrdinary(cr);
      } else {
        ConfigIsOrdinary(cr);
      }
    }
  }

  lemma RbacIsOrdinary(cr: CR)
    ensures forall t :: t in RbacTasks(cr) ==> t.Ensure?
  {
  }

  lemma ConfigIsOrdinary(cr: CR)
    ensures ConfigTask(cr).Ensure?
  {
  }

  lemma LastAreOrdinary(cr: CR)
    requires cr.spec.ControllerSpec?
    ensures Ordinary([IngressTask(cr)] + [ControllerServiceTask(cr)])
  {
  }

  /** The whole program: each child as before or as wanted, wherever it was cut off. */
  lemma ChildrenTried(w: World, cr: CR, c: Choice)
    requires Sound(w.store) && cr.spec.ControllerSpec? && Steady(cr, w.store) && TameBuilds(cr, c, c)
             && DistinctManifests(c)
    ensures Outcomes.DistinctObjects(Resolved(cr, c, w.store))
            && Tried(Resolved(cr, c, w.store), w.store, RunTasks(w, Program(cr, c)).0.store)
  {
    hide Front, DeployTask, ControllerDeploymentTask, IngressTask, ControllerServiceTask, Program, RunTask, RunTasks,
         Single, Kept, Outcome, TameBuilds, Tried;
    var f, d, t := Front(cr, c), ControllerDeploymentTask(cr, c), DeployTask(cr, c, w.store);
    var i, v, s := IngressTask(cr), ControllerServiceTask(cr), w.store;
    ProgramParts(cr, c);
    Regroup(f, d, i, v);
    Regroup(f, t, i, v);
    assert [d] + [i] + [v] == [d] + ([i] + [v]) && [t] + [i] + [v] == [t] + ([i] + [v]);
    ResolvedIsDistinct(cr, c, s);
    PartsDistinct(f, [t] + ([i] + [v]));
    PartsDistinct([t], [i] + [v]);
    RunTasksAppend(w, f, [d] + ([i] + [v]));
    FrontIsOrdinary(cr, c);
    OrdinaryTried(w, f);
    var (w1, ok) := RunTasks(w, f);
    var tail := RunTasks(w1, [d] + ([i] + [v])).0.store;
    if ok {
      FrontKeepsLookup(cr, c, s, w1.store);
      TailTried(w1, cr, c);
      TriedAppend(f, [t] + ([i] + [v]), s, w1.store, tail);
    } else {
      TriedIsSound(f, s, w1.store);
      NothingTried([t] + ([i] + [v]), w1.store);
      TriedAppend(f, [t] + ([i] + [v]), s, w1.store, w1.store);
    }
  }

  lemma TriedIsSound(todo: seq<Task>, s: Store, s': Store)
    requires Outcomes.DistinctObjects(todo) && Tried(todo, s, s')
    ensures Sound(s')
  {
  }

  lemma FrontKeepsLookup(cr: CR, c: Choice, s: Store, s1: Store)
    requires cr.spec.ControllerSpec? && DistinctManifests(c) && Outcomes.DistinctObjects(Front(cr, c))
    requires Tried(Front(cr, c), s, s1) && Steady(cr, s)
    ensures Sound(s1) && Steady(cr, s1) && DeployTask(cr, c, s1) == DeployTask(cr, c, s)
  {
    hide Front, Single, Kept, Outcome, FreshTask, ControllerDeploymentTask;
    FrontStaged(cr, c);
    FrontLeavesDeployments(cr, c, Probe(cr));
    assert Read(s1, Probe(cr)) == Read(s, Probe(cr));
  }

  /** The Deployment and what follows it. */
  lemma TailTried(w: World, cr: CR, c: Choice)
    requires Sound(w.store) && cr.spec.ControllerSpec? && Steady(cr, w.store) && TameBuilds(cr, c, c)
    requires var t := DeployTask(cr, c, w.store);
             Outcomes.DistinctObjects([t] + ([IngressTask(cr)] + [ControllerServiceTask(cr)]))
    ensures var d, t := ControllerDeploymentTask(cr, c), DeployTask(cr, c, w.store);
            var last := [IngressTask(cr)] + [ControllerServiceTask(cr)];
            Tried([t] + last, w.store, RunTasks(w, [d] + last).0.store)
  {
    hide DeployTask, ControllerDeploymentTask, IngressTask, ControllerServiceTask, RunTask, RunTasks, Single, Kept,
         Outcome, TameBuilds, Tried;
    var d, t := ControllerDeploymentTask(cr, c), DeployTask(cr, c, w.store);
    var last := [IngressTask(cr)] + [ControllerServiceTask(cr)];
    PartsDistinct([t], last);
    DeployTried(w, cr, c);
    ConsoleRuns.OneOfTasks(w, d, last);
    var (w1, ok) := RunTask(w, d);
    TriedIsSound([t], w.store, w1.store);
    if ok {
      LastAreOrdinary(cr);
      OrdinaryTried(w1, last);
    } else {
      NothingTried(last, w1.store);
    }
    TriedAppend([t], last, w.store, w1.store, RunTasks(w, [d] + last).0.store);
  }

  // ---- One reconcile under any failures ----

  /** The finalizer first, then the rest. */
  function PersistRun(w: World, key: Key, cr: CR, version: nat, c: Choice): (World, bool) {
    var (w', ok) := RunWrite(w, Update(w.store, CustomResource(WithFinalizer(cr)), version));
    if ok then Work(w', key, WithFinalizer(cr), w.store.next, c) else (w', false)
  }

  /** A reconcile of a live controller, call by call. */
  function ControllerRun(w: World, key: Key, cr: CR, version: nat, c: Choice): (World, bool) {
    if Faulty(w) then (Tick(w), false)
    else
      var w1 := Tick(w);
      var next := OnNamespace(w1.store, cr, version, c);
      if Faulty(w1) || next == Done(true) then (Tick(w1), true)
      else if Finalizer(cr) in cr.finalizers then Work(Tick(w1), key, cr, version, c)
      else PersistRun(Tick(w1), key, cr, version, c)
  }

  lemma {:induction false} PersistIsRun(w: World, key: Key, cr: CR, version: nat, c: Choice)
    ensures RunToEnd(w, key, PersistFinalizer(cr, version), c) == PersistRun(w, key, cr, version, c)
  {
    hide Update, StartWork, Work;
    var (w', ok) := RunWrite(w, Update(w.store, CustomResource(WithFinalizer(cr)), version));
    if ok {
      WorkSteps(w', key, WithFinalizer(cr), w.store.next, c);
    }
  }

  lemma ReconcileIsRun(w: World, key: Key, c: Choice)
    requires Live(w.store, key)
    ensures Reconcile(w, key, c) == ControllerRun(w, key, Instance(w.store, key), w.store.objects[key].version, c)
  {
    hide SetDefaults, StartWork, Work, PersistRun, Program, ConsoleProgram;
    var cr, version := Instance(w.store, key), w.store.objects[key].version;
    DefaultsKeep(w.store.objects[key].obj.cr);
    if !Faulty(w) {
      var w1 := Tick(w);
      assert w1.(store := w.store) == w1;
      assert Reconcile(w, key, c) == RunToEnd(w1, key, CheckNamespace(cr, version), c);
      NamespaceSteps(w1, key, cr, version, c);
      if !Faulty(w1) && OnNamespace(w1.store, cr, version, c) != Done(true) {
        if Finalizer(cr) in cr.finalizers {
          WorkSteps(Tick(w1), key, cr, version, c);
        } else {
          PersistIsRun(Tick(w1), key, cr, version, c);
        }
      }
    }
  }

  /** The same controller, apart from what reconciles write into it. */
  ghost predicate SameController(s: Store, s': Store, key: Key)
    requires Live(s, key)
  {
    && Live(s', key)
    && var cr, cr' := Instance(s, key), Instance(s', key);
       cr' == cr.(finalizers := cr'.finalizers, deployed := cr'.deployed)
  }

  /** Each of `todo`'s objects is as before or as its task wants it. */
  ghost predicate AllAttempted(todo: seq<Task>, s: Store, s': Store) {
    forall i :: 0 <= i < |todo| ==>
      Single(todo[i]) && Attempted(todo[i], Object(s, Kept(todo[i])), Object(s', Kept(todo[i])))
  }

  /** What a reconcile leaves, wherever it was cut off. */
  ghost predicate Cut(s: Store, s': Store, key: Key, c: Choice)
    requires Live(s, key)
  {
    var cr := Instance(s, key);
    && SameController(s, s', key) && Steady(cr, s') && AllAttempted(Resolved(cr, c, s), s, s')
    && Read(s', Key(NamespaceKind, "", key.ns)) == Read(s, Key(NamespaceKind, "", key.ns))
  }

  /** A write to the controller's own object. */
  lemma OwnWrite(s: Store, s': Store, key: Key, c: Choice)
    requires Live(s, key) && SameController(s, s', key) && Steady(Instance(s, key), s) && DistinctManifests(c)
    requires forall k :: k != key ==> Read(s', k) == Read(s, k)
    ensures Cut(s, s', key, c)
  {
    hide Resolved, Outcome, Single, Kept, SetDefaults;
    var cr := Instance(s, key);
    ResolvedIsDistinct(cr, c, s);
    forall i | 0 <= i < |Resolved(cr, c, s)|
      ensures Object(s', Kept(Resolved(cr, c, s)[i])) == Object(s, Kept(Resolved(cr, c, s)[i]))
    {
      CRStage();
      assert Read(s', Kept(Resolved(cr, c, s)[i])) == Read(s, Kept(Resolved(cr, c, s)[i]));
    }
    assert Read(s', Probe(cr)) == Read(s, Probe(cr));
  }

  /** First one, then the other, where the first writes to no child. */
  lemma CutAfterOwnWrite(s: Store, s1: Store, s': Store, key: Key, c: Choice)
    requires Live(s, key) && SameController(s, s1, key) && Cut(s1, s', key, c) && DistinctManifests(c)
    requires forall k :: k != key ==> Read(s1, k) == Read(s, k)
    ensures Cut(s, s', key, c)
  {
    hide Resolved, Outcome, Single, Kept, SetDefaults, Attempted;
    var cr, cr1 := Instance(s, key), Instance(s1, key);
    assert Read(s1, Probe(cr)) == Read(s, Probe(cr));
    SameResolved(cr, cr1, c, s, s1);
    ResolvedIsDistinct(cr, c, s);
    var todo := Resolved(cr, c, s);
    forall i | 0 <= i < |todo|
      ensures Single(todo[i]) && Attempted(todo[i], Object(s, Kept(todo[i])), Object(s', Kept(todo[i])))
    {
      CRStage();
      assert Read(s1, Kept(todo[i])) == Read(s, Kept(todo[i]));
    }
    SameSteady(cr, cr1, s');
  }

  lemma SameSteady(cr: CR, cr1: CR, s: Store)
    requires cr.spec.ControllerSpec? && cr1 == cr.(finalizers := cr1.finalizers, deployed := cr1.deployed)
    ensures Steady(cr1, s) == Steady(cr, s)
  {
  }

  lemma SameTame(cr: CR, cr1: CR, p: Choice, q: Choice)
    requires cr.spec.ControllerSpec? && cr1 == cr.(finalizers := cr1.finalizers, deployed := cr1.deployed)
    ensures TameBuilds(cr1, p, q) == TameBuilds(cr, p, q)
  {
  }

  ghost predicate Workable(cr: CR, s: Store, c: Choice)
    requires cr.spec.ControllerSpec?
  {
    ConsoleApart(cr) && Steady(cr, s) && TameBuilds(cr, c, c) && DistinctManifests(c)
  }

  /** The children. */
  lemma ChildrenCut(w: World, key: Key, c: Choice)
    requires Live(w.store, key) && Workable(Instance(w.store, key), w.store, c)
    ensures var s' := RunTasks(w, Program(Instance(w.store, key), c)).0.store;
            Cut(w.store, s', key, c) && Read(s', key) == Read(w.store, key)
  {
    hide Program, Resolved, RunTasks, Outcome, Single, Kept, SetDefaults, TameBuilds, Attempted;
    var s, cr := w.store, Instance(w.store, key);
    var s' := RunTasks(w, Program(cr, c)).0.store;
    ChildrenTried(w, cr, c);
    ResolvedIsDistinct(cr, c, s);
    CRStage();
    NotTouched(Resolved(cr, c, s), key);
    NotTouched(Resolved(cr, c, s), Key(NamespaceKind, "", key.ns));
    SteadyStays(cr, c, s, s');
  }

  /** The Deployment still is nobody else's. */
  lemma SteadyStays(cr: CR, c: Choice, s: Store, s': Store)
    requires cr.spec.ControllerSpec? && Steady(cr, s) && DistinctManifests(c) && TameBuilds(cr, c, c) && Sound(s)
    requires Outcomes.DistinctObjects(Resolved(cr, c, s)) && Tried(Resolved(cr, c, s), s, s')
    ensures Steady(cr, s')
  {
    hide Resolved, Front, DeployTask, IngressTask, ControllerServiceTask, Outcome, Single, Kept, ControllerBuild;
    DeployTaskKept(cr, c, s);
    if Probe(cr) == Named(cr) {
      var t, n := DeployTask(cr, c, s), |Front(cr, c)|;
      DeploymentPlace(cr, c, s);
      assert Attempted(Resolved(cr, c, s)[n], Object(s, Kept(t)), Object(s', Kept(t)));
      OwnedOutcome(cr, c, s);
    } else {
      SteadyKey(cr, s);
      ProbeUntouched(cr, c, s);
      assert Read(s', Probe(cr)) == Read(s, Probe(cr));
    }
  }

  lemma DeploymentPlace(cr: CR, c: Choice, s: Store)
    requires cr.spec.ControllerSpec?
    ensures |Resolved(cr, c, s)| == |Front(cr, c)| + 3 && Resolved(cr, c, s)[|Front(cr, c)|] == DeployTask(cr, c, s)
  {
    hide Front, DeployTask, IngressTask, ControllerServiceTask;
    ProgramAt(Front(cr, c), DeployTask(cr, c, s), IngressTask(cr), ControllerServiceTask(cr));
  }

  lemma OwnedOutcome(cr: CR, c: Choice, s: Store)
    requires cr.spec.ControllerSpec? && Steady(cr, s) && Probe(cr) == Named(cr) && Single(DeployTask(cr, c, s))
    ensures var o := Outcome(DeployTask(cr, c, s), Object(s, Probe(cr)));
            o.Some? && o.value.Deployment? && o.value.owner.Some? ==> o.value.owner.value == KeyOfCR(cr)
  {
    hide CD.UpdateSpec, ControllerBuild;
  }

  /** The console under any failures. */
  lemma ConsoleCut(w: World, cr: CR, c: Choice, key: Key, todo: seq<Task>)
    requires Sound(w.store) && cr.spec.ControllerSpec? && ConsoleApart(cr) && key.kind == ControllerKind
    requires forall i :: 0 <= i < |todo| ==> Single(todo[i]) && ChildKey(cr, Kept(todo[i]))
    ensures var s, s' := w.store, RunTasks(w, ConsoleProgram(cr, c)).0.store;
            && Sound(s') && Read(s', key) == Read(s, key) && Read(s', Probe(cr)) == Read(s, Probe(cr))
            && Read(s', Key(NamespaceKind, "", key.ns)) == Read(s, Key(NamespaceKind, "", key.ns))
            && (forall i :: 0 <= i < |todo| ==> Object(s', Kept(todo[i])) == Object(s, Kept(todo[i])))
  {
    hide ConsoleProgram, RunTasks, Kept, Single, ConsoleApart, Untouched, ChildKey, Ordinary;
    var s' := RunTasks(w, ConsoleProgram(cr, c)).0.store;
    ConsoleIsOrdinary(cr, c);
    ConsoleLeaves(cr, c, key);
    OrdinaryFrame(w, ConsoleProgram(cr, c), key);
    ProbeIsChild(cr);
    ConsoleLeaves(cr, c, Probe(cr));
    OrdinaryFrame(w, ConsoleProgram(cr, c), Probe(cr));
    ConsoleLeaves(cr, c, Key(NamespaceKind, "", key.ns));
    OrdinaryFrame(w, ConsoleProgram(cr, c), Key(NamespaceKind, "", key.ns));
    forall i | 0 <= i < |todo| ensures Object(s', Kept(todo[i])) == Object(w.store, Kept(todo[i])) {
      ConsoleLeaves(cr, c, Kept(todo[i]));
      OrdinaryFrame(w, ConsoleProgram(cr, c), Kept(todo[i]));
      assert Read(s', Kept(todo[i])) == Read(w.store, Kept(todo[i]));
    }
  }

  lemma ConsoleIsOrdinary(cr: CR, c: Choice)
    ensures Ordinary(ConsoleProgram(cr, c))
  {
    hide Single, Kept;
    if HasConsole(cr) {
      ConsoleKeys(cr, c);
    }
  }

  /** The status update, carried out or not. */
  lemma StatusCut(w: World, key: Key)
    requires Live(w.store, key)
    ensures var s' := RunWrite(w, UpdateStatus(w.store, key, true, w.store.objects[key].version)).0.store;
            SameController(w.store, s', key) && forall k :: k != key ==> Read(s', k) == Read(w.store, k)
  {
    hide UpdateStatus, SetDefaults;
    StatusStep(w.store, key);
  }

  /** A step that leaves the children alone does not undo a cut. */
  lemma CutThen(s: Store, s1: Store, s2: Store, key: Key, c: Choice)
    requires Live(s, key) && Cut(s, s1, key, c) && SameController(s1, s2, key)
    requires var cr, todo := Instance(s, key), Resolved(Instance(s, key), c, s);
             && Read(s2, Probe(cr)) == Read(s1, Probe(cr))
             && Read(s2, Key(NamespaceKind, "", key.ns)) == Read(s1, Key(NamespaceKind, "", key.ns))
             && forall i :: 0 <= i < |todo| ==>
                  Single(todo[i]) && Object(s2, Kept(todo[i])) == Object(s1, Kept(todo[i]))
    ensures Cut(s, s2, key, c)
  {
    hide Resolved, Outcome, Single, Kept, SetDefaults, Attempted;
  }

  lemma WorkCut(w: World, key: Key, c: Choice)
    requires Live(w.store, key) && Workable(Instance(w.store, key), w.store, c)
    ensures var cr := Instance(w.store, key);
            Cut(w.store, Work(w, key, cr, w.store.objects[key].version, c).0.store, key, c)
  {
    hide Program, ConsoleProgram, Resolved, RunTasks, Outcome, Single, Kept, SetDefaults, TameBuilds, ConsoleApart,
         Cut, UpdateStatus, ChildKey;
    var s, cr, version := w.store, Instance(w.store, key), w.store.objects[key].version;
    ChildrenCut(w, key, c);
    CutFacts(s, RunTasks(w, Program(cr, c)).0.store, key, c);
    var (w1, ok) := RunTasks(w, Program(cr, c));
    if ok {
      StatusCut(w1, key);
      var (w2, ok2) := if cr.deployed then (w1, true) else RunWrite(w1, UpdateStatus(w1.store, key, true, version));
      SameControllerItself(w1.store, key);
      ChildKeys(cr, c, s);
      OwnWriteCut(s, w1.store, w2.store, key, c);
      if ok2 {
        var cr2 := Instance(w2.store, key);
        ConsoleCut(w2, cr, c, key, Resolved(cr, c, s));
        var s3 := RunTasks(w2, ConsoleProgram(cr, c)).0.store;
        SameControllerItself(w2.store, key);
        CutThen(s, w2.store, s3, key, c);
      }
    }
  }

  lemma CutFacts(s: Store, s': Store, key: Key, c: Choice)
    requires Live(s, key) && Cut(s, s', key, c)
    ensures SameController(s, s', key)
  {
  }

  lemma SameControllerItself(s: Store, key: Key)
    requires Live(s, key)
    ensures forall s' :: Sound(s') && Read(s', key) == Read(s, key) ==> SameController(s, s', key)
    ensures SameController(s, s, key)
  {
    hide SetDefaults;
  }

  lemma OwnWriteCut(s: Store, s1: Store, s2: Store, key: Key, c: Choice)
    requires Live(s, key) && Cut(s, s1, key, c) && SameController(s1, s2, key) && DistinctManifests(c)
    requires forall k :: k != key ==> Read(s2, k) == Read(s1, k)
    ensures Cut(s, s2, key, c)
  {
    hide Resolved, Outcome, Single, Kept, SetDefaults, Attempted;
    var cr, todo := Instance(s, key), Resolved(Instance(s, key), c, s);
    ResolvedIsDistinct(cr, c, s);
    CRStage();
    assert Read(s2, Probe(cr)) == Read(s1, Probe(cr));
    forall i | 0 <= i < |todo| ensures Single(todo[i]) && Object(s2, Kept(todo[i])) == Object(s1, Kept(todo[i])) {
      assert Read(s2, Kept(todo[i])) == Read(s1, Kept(todo[i]));
    }
    CutThen(s, s1, s2, key, c);
  }

  /** The finalizer's write, carried out. */
  lemma FinalizerCut(s: Store, key: Key)
    requires Live(s, key)
    ensures var cr := Instance(s, key);
            var r := Update(s, CustomResource(WithFinalizer(cr)), s.objects[key].version);
            && r.Ok? && SameController(s, r.value, key) && (forall k :: k != key ==> Read(r.value, k) == Read(s, k))
            && Instance(r.value, key) == WithFinalizer(cr) && r.value.objects[key].version == s.next
  {
    hide SetDefaults;
    var cr := Instance(s, key);
    DefaultsTwice(s.objects[key].obj.cr);
    DefaultsKeep(s.objects[key].obj.cr);
    UpdateEffect(s, CustomResource(WithFinalizer(cr)), s.objects[key].version);
    assert Update(s, CustomResource(WithFinalizer(cr)), s.objects[key].version).value.objects[key].obj
        == CustomResource(WithFinalizer(cr));
  }

  lemma PersistCut(w: World, key: Key, c: Choice)
    requires Live(w.store, key) && Workable(Instance(w.store, key), w.store, c)
    ensures var cr := Instance(w.store, key);
            Cut(w.store, PersistRun(w, key, cr, w.store.objects[key].version, c).0.store, key, c)
  {
    hide Update, SetDefaults, Work, Cut, ConsoleApart, Steady, TameBuilds;
    var s, cr, version := w.store, Instance(w.store, key), w.store.objects[key].version;
    FinalizerCut(s, key);
    SameControllerItself(s, key);
    OwnWrite(s, s, key, c);
    var s1 := Update(s, CustomResource(WithFinalizer(cr)), version).value;
    OwnWrite(s, s1, key, c);
    if !Faulty(w) {
      var w1 := Tick(w).(store := s1);
      assert Read(s1, Probe(cr)) == Read(s, Probe(cr));
      SameWorkable(cr, WithFinalizer(cr), s, s1, c);
      WorkCut(w1, key, c);
      CutAfterOwnWrite(s, s1, Work(w1, key, WithFinalizer(cr), s.next, c).0.store, key, c);
    }
  }

  lemma SameWorkable(cr: CR, cr1: CR, s: Store, s1: Store, c: Choice)
    requires cr.spec.ControllerSpec? && cr1 == cr.(finalizers := cr1.finalizers, deployed := cr1.deployed)
    requires Read(s1, Probe(cr)) == Read(s, Probe(cr))
    ensures Workable(cr1, s1, c) == Workable(cr, s, c)
  {
    SameApart(cr, cr1);
    SameTame(cr, cr1, c, c);
  }

  /** Any reconcile of a live controller, whatever becomes of its calls: each child as before or as wanted. */
  lemma ReconcileCut(w: World, key: Key, c: Choice)
    requires Live(w.store, key) && Workable(Instance(w.store, key), w.store, c)
    ensures Cut(w.store, Reconcile(w, key, c).0.store, key, c)
  {
    hide Work, PersistRun, Cut, Reconcile, OnNamespace, SetDefaults, ConsoleApart, Steady, TameBuilds;
    ReconcileIsRun(w, key, c);
    SameControllerItself(w.store, key);
    OwnWrite(w.store, w.store, key, c);
    if !Faulty(w) {
      WorkCut(Tick(Tick(w)), key, c);
      PersistCut(Tick(Tick(w)), key, c);
    }
  }
}
