/** Whole reconciles of one controller without failures, its console included: what they leave, and when the next
    one writes nothing. */
module ControllerTheorems {
  import opened Kubernetes
  import opened ApiStore
  import opened Tasks
  import opened Runs
  import opened Outcomes
  import opened ControllerPrograms
  import opened SecondOutcomes
  import opened ConsoleRuns

  /** The controller exists and is not being deleted. */
  ghost predicate Live(s: Store, key: Key) {
    && Sound(s) && key.kind == ControllerKind && key in s.objects
    && s.objects[key].obj.CustomResource? && s.objects[key].obj.cr.spec.ControllerSpec?
    && !s.objects[key].obj.cr.deleting
  }

  /** The instance as a reconcile sees it. */
  ghost function Instance(s: Store, key: Key): (cr: CR)
    requires Live(s, key)
    ensures cr.spec.ControllerSpec? && KeyOfCR(cr) == key
  {
    SetDefaults(s.objects[key].obj.cr)
  }

  // ---- One failure-free reconcile ----

  /** The children, the status, the console. */
  function Work(w: World, key: Key, cr: CR, version: nat, c: Choice): (World, bool) {
    var (w1, ok) := RunTasks(w, Program(cr, c));
    if !ok then (w1, false)
    else
      var (w2, ok2) := if cr.deployed then (w1, true) else RunWrite(w1, UpdateStatus(w1.store, key, true, version));
      if !ok2 then (w2, false) else RunTasks(w2, ConsoleProgram(cr, c))
  }

  lemma WorkSteps(w: World, key: Key, cr: CR, version: nat, c: Choice)
    ensures RunToEnd(w, key, StartWork(cr, version, c), c) == Work(w, key, cr, version, c)
  {
    hide Program, ConsoleProgram, RunTasks, Call, OnFault, UpdateStatus;
    WorkingSteps(w, key, cr, version, Program(cr, c), Some(ConsoleProgram(cr, c)), c);
    var (w1, ok) := RunTasks(w, Program(cr, c));
    if ok {
      MarkSteps(w1, key, cr, version, ConsoleProgram(cr, c), c);
      ConsoleSteps(w1, key, cr, version, ConsoleProgram(cr, c), c);
    }
  }

  /** The store once the finalizer is persisted. */
  ghost function Persisted(s: Store, key: Key): Store
    requires Live(s, key)
  {
    var cr := Instance(s, key);
    if Finalizer(cr) in cr.finalizers then s
    else StoreAfter(s, Update(s, CustomResource(WithFinalizer(cr)), s.objects[key].version))
  }

  lemma PersistedIsLive(s: Store, key: Key)
    requires Live(s, key)
    ensures var s1, cr := Persisted(s, key), Instance(s, key);
            && Live(s1, key) && Finalizer(Instance(s1, key)) in Instance(s1, key).finalizers
            && Instance(s1, key) == (if Finalizer(cr) in cr.finalizers then cr else WithFinalizer(cr))
            && (Finalizer(cr) in cr.finalizers ==> s1 == s)
            && (Finalizer(cr) !in cr.finalizers ==>
                  && Update(s, CustomResource(WithFinalizer(cr)), s.objects[key].version).Ok?
                  && s1.objects[key] == Stored(CustomResource(WithFinalizer(cr)), s.next))
            && forall k :: k != key ==> Read(s1, k) == Read(s, k)
  {
    var cr := Instance(s, key);
    DefaultsTwice(s.objects[key].obj.cr);
    DefaultsKeep(s.objects[key].obj.cr);
    hide SetDefaults;
    if Finalizer(cr) !in cr.finalizers {
      UpdateEffect(s, CustomResource(WithFinalizer(cr)), s.objects[key].version);
      assert Persisted(s, key).objects[key].obj == CustomResource(WithFinalizer(cr));
    }
  }

  lemma ReconcileIsWork(s: Store, key: Key, c: Choice)
    requires Live(s, key) && NamespaceActive(s, key.ns)
    ensures var s1 := Persisted(s, key);
            && Live(s1, key)
            && Reconcile(World(s, []), key, c)
                == Work(World(s1, []), key, Instance(s1, key), s1.objects[key].version, c)
  {
    hide SetDefaults, StartWork, Work, Update;
    var w, cr, version := World(s, []), Instance(s, key), s.objects[key].version;
    DefaultsTwice(s.objects[key].obj.cr);
    DefaultsKeep(s.objects[key].obj.cr);
    PersistedIsLive(s, key);
    assert Tick(w).(store := s) == w;
    assert Reconcile(w, key, c) == RunToEnd(w, key, CheckNamespace(cr, version), c);
    NamespaceSteps(w, key, cr, version, c);
    assert KeyOf(s.objects[key].obj) == key;
    if Finalizer(cr) in cr.finalizers {
      StartIsNotDone(cr, version, c);
      WorkSteps(w, key, cr, version, c);
    } else {
      PersistSteps(w, key, cr, version, c);
      WorkSteps(World(Persisted(s, key), []), key, WithFinalizer(cr), s.next, c);
    }
  }

  lemma PersistSteps(w: World, key: Key, cr: CR, version: nat, c: Choice)
    requires w.fates == [] && Update(w.store, CustomResource(WithFinalizer(cr)), version).Ok?
    ensures RunToEnd(w, key, PersistFinalizer(cr, version), c) ==
            RunToEnd(World(Update(w.store, CustomResource(WithFinalizer(cr)), version).value, []), key,
                     StartWork(WithFinalizer(cr), w.store.next, c), c)
  {
    hide StartWork, Update;
    assert Tick(w).(store := Update(w.store, CustomResource(WithFinalizer(cr)), version).value)
        == World(Update(w.store, CustomResource(WithFinalizer(cr)), version).value, []);
  }

  /** A controller always has something to do. */
  lemma StartIsNotDone(cr: CR, version: nat, c: Choice)
    requires cr.spec.ControllerSpec?
    ensures StartWork(cr, version, c) != Done(true)
  {
    hide ConsoleProgram, RbacTasks, DefinitionTasks, ConfigTask, ControllerDeploymentTask, IngressTask,
         ControllerServiceTask;
    assert |Program(cr, c)| > 0;
  }

  // ---- What two runs have in common ----

  /** Two runs over the same instance and manifests differ in the Deployment's task only. */
  lemma ProgramsDiffer(cr: CR, p: Choice, q: Choice)
    requires cr.spec.ControllerSpec? && p.manifests == q.manifests
    ensures Front(cr, p) == Front(cr, q)
  {
    hide RbacTasks, ConfigTask;
    assert DefinitionTasks(p) == DefinitionTasks(q);
  }

  /** Two runs that see the same manifests, whose builds settle, and whose console keeps apart. */
  ghost predicate Tame(cr: CR, p: Choice, q: Choice) {
    && cr.spec.ControllerSpec? && ConsoleApart(cr) && (HasConsole(cr) ==> cr.meta.ns != "")
    && DistinctManifests(p) && p.manifests == q.manifests && TameBuilds(cr, p, q)
  }

  /** Where the two programs differ, and that the rest of them settles. */
  lemma ProgramPlaces(cr: CR, p: Choice, q: Choice, s: Store)
    requires cr.spec.ControllerSpec? && DistinctManifests(p) && p.manifests == q.manifests
    ensures var todo, todo', n := Resolved(cr, q, s), Resolved(cr, p, s), |Front(cr, q)|;
            && |todo| == |todo'| == n + 3
            && todo[n] == DeployTask(cr, q, s) && todo'[n] == DeployTask(cr, p, s)
            && forall i :: 0 <= i < |todo| && i != n ==> todo[i] == todo'[i] && Settles(todo[i])
  {
    hide Front, DeployTask, IngressTask, ControllerServiceTask, Outcome, Single, Kept, Settles;
    ProgramsDiffer(cr, p, q);
    FrontSettles(cr, q);
    LastSettle(cr);
    ProgramAt(Front(cr, q), DeployTask(cr, q, s), IngressTask(cr), ControllerServiceTask(cr));
    ProgramAt(Front(cr, p), DeployTask(cr, p, s), IngressTask(cr), ControllerServiceTask(cr));
  }

  lemma ProgramAt(f: seq<Task>, d: Task, i: Task, v: Task)
    ensures var todo := f + [d] + [i] + [v];
            && todo[|f|] == d && todo[|f| + 1] == i && todo[|f| + 2] == v
            && forall j :: 0 <= j < |f| ==> todo[j] == f[j] && todo[j] in f
  {
  }

  /** Once one program has completed, the other can complete, and is at rest exactly when the Deployment found by
      the first needed no second build. */
  lemma SecondProgram(cr: CR, p: Choice, q: Choice, s: Store, s1: Store)
    requires Tame(cr, p, q) && Sound(s) && Outcomes.DistinctObjects(Resolved(cr, p, s))
    requires Outcomes.Completed(Resolved(cr, p, s), s, s1)
    ensures Outcomes.DistinctObjects(Resolved(cr, q, s)) && Outcomes.Completable(Resolved(cr, q, s), s1)
    ensures AllAtRest(Resolved(cr, q, s), s1) <==> !NeedsTwo(Object(s, DeploymentKey(cr, s)), ControllerBuild(cr))
  {
    hide Resolved, Front, DeployTask, Outcome, Single, Kept, Settles, NeedsTwo, ControllerBuild, Pair, ConsoleApart,
         TameBuilds;
    ResolvedIsDistinct(cr, q, s);
    ProgramPlaces(cr, p, q, s);
    DeployTaskKept(cr, p, s);
    DeployTaskKept(cr, q, s);
    DeployCompleted(Resolved(cr, p, s), s, s1, |Front(cr, q)|);
    DeployTasksPair(cr, p, q, s);
    SecondPair(DeployTask(cr, p, s), DeployTask(cr, q, s), Object(s, DeploymentKey(cr, s)));
    SecondRound(Resolved(cr, q, s), Resolved(cr, p, s), s, s1, |Front(cr, q)|,
        NeedsTwo(Object(s, DeploymentKey(cr, s)), ControllerBuild(cr)));
  }

  lemma DeployCompleted(todo: seq<Task>, s: Store, s1: Store, n: nat)
    requires Outcomes.DistinctObjects(todo) && Outcomes.Completed(todo, s, s1) && n < |todo|
    ensures Outcome(todo[n], Object(s, Kept(todo[n]))).Some?
  {
    hide Outcome, Single, Kept;
  }

  /** The same for any two lists that differ in one task, where the others settle. */
  lemma SecondRound(todo: seq<Task>, todo': seq<Task>, s: Store, s1: Store, n: nat, twice: bool)
    requires Outcomes.DistinctObjects(todo) && Outcomes.DistinctObjects(todo') && |todo| == |todo'| && n < |todo|
    requires Outcomes.Completed(todo', s, s1) && Kept(todo[n]) == Kept(todo'[n])
    requires forall i :: 0 <= i < |todo| && i != n ==> todo[i] == todo'[i] && Settles(todo[i])
    requires var once := Outcome(todo'[n], Object(s, Kept(todo'[n])));
             Outcome(todo[n], once).Some? && (Outcome(todo[n], once) == once <==> !twice)
    ensures Outcomes.Completable(todo, s1) && (AllAtRest(todo, s1) <==> !twice)
  {
    hide Outcome, Single, Kept;
    forall i | 0 <= i < |todo|
      ensures Object(s1, Kept(todo[i])).Some? && Outcome(todo[i], Object(s1, Kept(todo[i]))).Some?
      ensures i != n ==> Outcome(todo[i], Object(s1, Kept(todo[i]))) == Object(s1, Kept(todo[i]))
    {
      assert Object(s1, Kept(todo'[i])) == Outcome(todo'[i], Object(s, Kept(todo'[i])));
      if i != n {
        assert Settles(todo[i]);
      }
    }
    assert Object(s1, Kept(todo'[n])) == Outcome(todo'[n], Object(s, Kept(todo'[n])));
  }

  /** A write elsewhere changes nothing about what the tasks find. */
  lemma KeptElsewhere(todo: seq<Task>, s: Store, s1: Store, key: Key)
    requires Outcomes.DistinctObjects(todo) && Stage(key.kind) == 10
             && forall k :: k != key ==> Read(s1, k) == Read(s, k)
    requires forall i :: 0 <= i < |todo| ==> Stage(Kept(todo[i]).kind) <= 9
    ensures Outcomes.Completable(todo, s1) <==> Outcomes.Completable(todo, s)
    ensures AllAtRest(todo, s1) <==> AllAtRest(todo, s)
    ensures forall x :: Outcomes.Completed(todo, s1, x) <==> Outcomes.Completed(todo, s, x)
    ensures forall x :: Outcomes.Completed(todo, x, s1) <==> Outcomes.Completed(todo, x, s)
  {
    hide Outcome, Single, Kept;
    forall i | 0 <= i < |todo| ensures Object(s1, Kept(todo[i])) == Object(s, Kept(todo[i])) {
      assert Read(s1, Kept(todo[i])) == Read(s, Kept(todo[i]));
    }
  }

  lemma NotTouched(todo: seq<Task>, key: Key)
    requires Outcomes.DistinctObjects(todo) && Stage(key.kind) == 10
    requires forall i :: 0 <= i < |todo| ==> Stage(Kept(todo[i]).kind) <= 9
    ensures Untouched(todo, key)
  {
  }

  /** The status update of a resource whose version is still the one read. */
  lemma StatusStep(s: Store, key: Key)
    requires Live(s, key)
    ensures var r := UpdateStatus(s, key, true, s.objects[key].version);
            && r.Ok? && Live(r.value, key) && Instance(r.value, key) == Instance(s, key).(deployed := true)
            && r.value.objects[key].obj.cr == s.objects[key].obj.cr.(deployed := true)
            && forall k :: k != key ==> Read(r.value, k) == Read(s, k)
  {
  }

  // ---- One reconcile ----

  /** The console's part of a reconcile cannot write: its ClusterRole is there and cannot be updated. */
  predicate ConsoleQuiet(cr: CR, s: Store) {
    HasConsole(cr) ==> cr.meta.ns != "" && ConsoleRoleKey(cr) in s.objects
  }

  /** The store after the status update of a run whose children have completed. */
  ghost function StatusStore(s: Store, key: Key, cr: CR, c: Choice): Store
    requires key in s.objects
  {
    var s1 := RunTasks(World(s, []), Program(cr, c)).0.store;
    if cr.deployed then s1 else StoreAfter(s1, UpdateStatus(s1, key, true, s.objects[key].version))
  }

  /** A controller up to its status update: the children, and nothing else but the status. */
  lemma WorkUntilMarked(s: Store, key: Key, c: Choice)
    requires Live(s, key) && DistinctManifests(c)
    ensures var cr := Instance(s, key);
            var todo, s' := Resolved(cr, c, s), StatusStore(s, key, cr, c);
            && Outcomes.DistinctObjects(todo)
            && (Outcomes.Completable(todo, s) ==>
                  && Work(World(s, []), key, cr, s.objects[key].version, c)
                      == RunTasks(World(s', []), ConsoleProgram(cr, c))
                  && Outcomes.Completed(todo, s, s') && Live(s', key) && Instance(s', key) == cr.(deployed := true)
                  && s'.objects[key].obj.cr == s.objects[key].obj.cr.(deployed := true)
                  && forall k :: k != key && Untouched(todo, k) ==> Read(s', k) == Read(s, k))
            && (!Outcomes.Completable(todo, s) ==> !Work(World(s, []), key, cr, s.objects[key].version, c).1)
            && (cr.deployed && AllAtRest(todo, s) ==> s' == s)
  {
    hide Program, ConsoleProgram, Resolved, RunTasks, Outcome, Kept, Single, SetDefaults, UpdateStatus, Stage;
    var cr := Instance(s, key);
    var todo := Resolved(cr, c, s);
    var w := World(s, []);
    ResolvedIsDistinct(cr, c, s);
    ResolvedRuns(w, cr, c);
    SoloTasks(w, todo);
    var (w1, ok) := RunTasks(w, todo);
    CRStage();
    NotTouched(todo, key);
    SoloFrame(w, todo, key);
    assert Read(w1.store, key) == Read(s, key);
    DefaultsKeep(s.objects[key].obj.cr);
    if ok {
      StatusStep(w1.store, key);
      var s' := StatusStore(s, key, cr, c);
      KeptElsewhere(todo, w1.store, s', key);
      forall k | k != key && Untouched(todo, k) ensures Read(s', k) == Read(s, k) {
        SoloFrame(w, todo, k);
        assert Read(s', k) == Read(w1.store, k);
      }
    }
  }

  /** The console leaves the children, the lookup of the Deployment, the resource and the namespace alone. */
  lemma ConsoleEffect(s: Store, cr: CR, c: Choice, key: Key, todo: seq<Task>)
    requires Sound(s) && cr.spec.ControllerSpec? && ConsoleApart(cr) && key.kind == ControllerKind
    requires Outcomes.DistinctObjects(todo) && forall i :: 0 <= i < |todo| ==> ChildKey(cr, Kept(todo[i]))
    ensures var s' := RunTasks(World(s, []), ConsoleProgram(cr, c)).0.store;
            && Sound(s') && Read(s', key) == Read(s, key) && Read(s', Probe(cr)) == Read(s, Probe(cr))
            && (forall ns :: Read(s', Key(NamespaceKind, "", ns)) == Read(s, Key(NamespaceKind, "", ns)))
            && (forall i :: 0 <= i < |todo| ==> Object(s', Kept(todo[i])) == Object(s, Kept(todo[i])))
            && (ConsoleQuiet(cr, s) ==> s' == s) && (HasConsole(cr) && cr.meta.ns != "" ==> ConsoleQuiet(cr, s'))
  {
    hide ConsoleProgram, RunTasks, Kept, Single, ConsoleApart, Untouched, ChildKey;
    var w := World(s, []);
    var s' := RunTasks(w, ConsoleProgram(cr, c)).0.store;
    ConsoleLeaves(cr, c, key);
    SoloFrame(w, ConsoleProgram(cr, c), key);
    ProbeIsChild(cr);
    ConsoleLeaves(cr, c, Probe(cr));
    SoloFrame(w, ConsoleProgram(cr, c), Probe(cr));
    forall ns ensures Read(s', Key(NamespaceKind, "", ns)) == Read(s, Key(NamespaceKind, "", ns)) {
      ConsoleLeaves(cr, c, Key(NamespaceKind, "", ns));
      SoloFrame(w, ConsoleProgram(cr, c), Key(NamespaceKind, "", ns));
    }
    forall i | 0 <= i < |todo| ensures Object(s', Kept(todo[i])) == Object(s, Kept(todo[i])) {
      ConsoleLeaves(cr, c, Kept(todo[i]));
      SoloFrame(w, ConsoleProgram(cr, c), Kept(todo[i]));
      assert Read(s', Kept(todo[i])) == Read(s, Kept(todo[i]));
    }
    if HasConsole(cr) {
      ConsoleRoleStays(w, cr, c);
      if ConsoleQuiet(cr, s) {
        ConsoleFailsNextTime(w, cr, c);
      }
    } else {
      NothingToDo(w, cr, c);
    }
  }

  lemma ProbeIsChild(cr: CR)
    requires cr.spec.ControllerSpec?
    ensures ChildKey(cr, Probe(cr))
  {
  }

  lemma NothingToDo(w: World, cr: CR, c: Choice)
    ensures !HasConsole(cr) ==> RunTasks(w, ConsoleProgram(cr, c)) == (w, true)
  {
  }

  lemma CRStage()
    ensures Stage(ControllerKind) == 10 && Stage(NamespaceKind) == 10
  {
  }

  /** What a reconcile from `s` to `s'` has done once every child could be made: each child as wanted, the finalizer
      and the status in place, the lookup of a Deployment that is kept under another name as fruitless as before. */
  ghost predicate Reconciled(s: Store, key: Key, c: Choice, s': Store)
    requires Live(s, key)
  {
    var cr := Instance(s, key);
    var todo := Resolved(cr, c, s);
    && Live(s', key) && Outcomes.DistinctObjects(todo) && Outcomes.Completed(todo, s, s')
    && Instance(s', key) == cr.(finalizers := Instance(s', key).finalizers, deployed := true)
    && Finalizer(cr) in Instance(s', key).finalizers && NamespaceActive(s', key.ns)
    && (DeploymentKey(cr, s) != Probe(cr) ==> Probe(cr) !in s'.objects)
    && (HasConsole(cr) && cr.meta.ns != "" ==> ConsoleQuiet(cr, s'))
  }

  lemma WorkEffect(s: Store, key: Key, c: Choice)
    requires Live(s, key) && DistinctManifests(c) && ConsoleApart(Instance(s, key)) && NamespaceActive(s, key.ns)
    requires Finalizer(Instance(s, key)) in Instance(s, key).finalizers
    ensures var cr := Instance(s, key);
            var todo := Resolved(cr, c, s);
            var (w', ok) := Work(World(s, []), key, cr, s.objects[key].version, c);
            && Outcomes.DistinctObjects(todo)
            && (ok ==> Outcomes.Completable(todo, s)) && (!HasConsole(cr) && Outcomes.Completable(todo, s) ==> ok)
            && (Outcomes.Completable(todo, s) ==> Reconciled(s, key, c, w'.store))
            && (cr.deployed && AllAtRest(todo, s) && ConsoleQuiet(cr, s) ==> w'.store == s)
  {
    hide Program, ConsoleProgram, Resolved, RunTasks, Outcome, Kept, Single, SetDefaults, Work, StatusStore,
         ConsoleApart, ChildKey, ConsoleQuiet, Stage, Probe;
    var cr, s' := Instance(s, key), StatusStore(s, key, Instance(s, key), c);
    var todo := Resolved(cr, c, s);
    WorkUntilMarked(s, key, c);
    ChildKeys(cr, c, s);
    CRStage();
    if Outcomes.Completable(todo, s) {
      ConsoleEffect(s', cr, c, key, todo);
      var s2 := RunTasks(World(s', []), ConsoleProgram(cr, c)).0.store;
      NamespaceUntouched(cr, c, s, key.ns);
      assert Read(s', Key(NamespaceKind, "", key.ns)) == Read(s, Key(NamespaceKind, "", key.ns));
      if DeploymentKey(cr, s) != Probe(cr) {
        ProbeUntouched(cr, c, s);
      }
      NothingToDo(World(s', []), cr, c);
      CompletedElsewhere(todo, s, s', s2);
    }
  }

  lemma CompletedElsewhere(todo: seq<Task>, s: Store, s1: Store, s2: Store)
    requires Outcomes.DistinctObjects(todo) && Outcomes.Completed(todo, s, s1)
    requires forall i :: 0 <= i < |todo| ==> Object(s2, Kept(todo[i])) == Object(s1, Kept(todo[i]))
    ensures Outcomes.Completed(todo, s, s2)
  {
    hide Outcome, Kept, Single;
  }

  lemma NamespaceUntouched(cr: CR, c: Choice, s: Store, ns: string)
    requires cr.spec.ControllerSpec? && DistinctManifests(c)
    ensures Untouched(Resolved(cr, c, s), Key(NamespaceKind, "", ns))
  {
    hide Resolved, Kept, Single;
    ResolvedIsDistinct(cr, c, s);
  }

  /** Unless the Deployment is kept where it is looked up. */
  lemma ProbeUntouched(cr: CR, c: Choice, s: Store)
    requires cr.spec.ControllerSpec? && DistinctManifests(c) && DeploymentKey(cr, s) != Probe(cr)
    ensures Untouched(Resolved(cr, c, s), Probe(cr))
  {
    hide Front, DeployTask, IngressTask, ControllerServiceTask, Kept, Single, DeploymentKey;
    FrontStaged(cr, c);
    FrontLeavesDeployments(cr, c, Probe(cr));
    DeployTaskKept(cr, c, s);
    TailStages(cr);
    ProgramAt(Front(cr, c), DeployTask(cr, c, s), IngressTask(cr), ControllerServiceTask(cr));
  }

  /** What a failure-free reconcile does: it succeeds only if every child can be made, and without a console exactly
      then; in that case, whatever becomes of the console, all of the above has been done. */
  lemma CompletedReconcile(s: Store, key: Key, c: Choice)
    requires Live(s, key) && NamespaceActive(s, key.ns) && ConsoleApart(Instance(s, key)) && DistinctManifests(c)
    ensures var cr := Instance(s, key);
            var todo := Resolved(cr, c, s);
            var (w', ok) := Reconcile(World(s, []), key, c);
            && Outcomes.DistinctObjects(todo)
            && (ok ==> Outcomes.Completable(todo, s)) && (!HasConsole(cr) && Outcomes.Completable(todo, s) ==> ok)
            && (Outcomes.Completable(todo, s) ==> Reconciled(s, key, c, w'.store))
            && (Finalizer(cr) in cr.finalizers && cr.deployed && AllAtRest(todo, s) && ConsoleQuiet(cr, s) ==>
                  w'.store == s)
  {
    hide RunTasks, Outcome, Kept, Single, SetDefaults, Work, Persisted, Reconcile, Stage, Resolved, ConsoleApart,
         DeploymentKey;
    var cr, s1 := Instance(s, key), Persisted(s, key);
    ReconcileIsWork(s, key, c);
    PersistedIsLive(s, key);
    var cr1, todo := Instance(s1, key), Resolved(cr, c, s);
    CRStage();
    assert Read(s1, Probe(cr)) == Read(s, Probe(cr));
    SameResolved(cr, cr1, c, s, s1);
    SameApart(cr, cr1);
    ResolvedIsDistinct(cr, c, s);
    KeptElsewhere(todo, s, s1, key);
    assert Read(s1, Key(NamespaceKind, "", key.ns)) == Read(s, Key(NamespaceKind, "", key.ns));
    WorkEffect(s1, key, c);
  }

  /** A Deployment that is found is found again. */
  lemma LookupStays(cr: CR, c: Choice, s: Store, s1: Store)
    requires cr.spec.ControllerSpec? && Outcomes.DistinctObjects(Resolved(cr, c, s)) && Probe(cr) in s.objects
    requires Outcomes.Completed(Resolved(cr, c, s), s, s1)
    ensures Probe(cr) in s1.objects
  {
    hide Front, DeployTask, IngressTask, ControllerServiceTask, Outcome, Kept, Single;
    DeployTaskKept(cr, c, s);
    ProgramAt(Front(cr, c), DeployTask(cr, c, s), IngressTask(cr), ControllerServiceTask(cr));
    assert Object(s1, Kept(Resolved(cr, c, s)[|Front(cr, c)|])).Some?;
  }

  lemma SameLookup(cr: CR, c: Choice, s: Store, s1: Store)
    requires cr.spec.ControllerSpec? && (Probe(cr) in s.objects ==> Probe(cr) in s1.objects)
    requires DeploymentKey(cr, s) != Probe(cr) ==> Probe(cr) !in s1.objects
    ensures Resolved(cr, c, s1) == Resolved(cr, c, s)
  {
    hide Front, FreshTask, ControllerDeploymentTask, IngressTask, ControllerServiceTask;
  }

  /** The reconcile after one that could make every child writes nothing exactly when the first did not find a
      Deployment without a pilot whose resources would differ from the controller's, in whichever of the two places
      the Deployment is kept. The orders in which the two range do not matter. */
  lemma QuiescentIff(s: Store, key: Key, p: Choice, q: Choice)
    requires Live(s, key) && NamespaceActive(s, key.ns) && Tame(Instance(s, key), p, q)
    requires Outcomes.DistinctObjects(Resolved(Instance(s, key), p, s))
             && Outcomes.Completable(Resolved(Instance(s, key), p, s), s)
    ensures var cr, s1 := Instance(s, key), Reconcile(World(s, []), key, p).0.store;
            Reconcile(World(s1, []), key, q).0.store == s1
            <==> !NeedsTwo(Object(s, DeploymentKey(cr, s)), ControllerBuild(cr))
  {
    hide Resolved, Reconcile, Outcome, Kept, Single, SetDefaults, NeedsTwo, ControllerBuild, ConsoleApart,
         TameBuilds;
    var cr, s1 := Instance(s, key), Reconcile(World(s, []), key, p).0.store;
    CompletedReconcile(s, key, p);
    var cr1 := Instance(s1, key);
    SecondProgram(cr, p, q, s, s1);
    if Probe(cr) in s.objects {
      LookupStays(cr, p, s, s1);
    }
    SameLookup(cr, q, s, s1);
    SameResolved(cr, cr1, q, s1, s1);
    SameApart(cr, cr1);
    CompletedReconcile(s1, key, q);
    if Reconcile(World(s1, []), key, q).0.store == s1 {
      assert Outcomes.Completed(Resolved(cr, q, s), s1, s1);
    }
  }
}
