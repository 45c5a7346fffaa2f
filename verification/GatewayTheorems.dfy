/** Convergence and quiescence of one gateway over whole reconciles. */
module GatewayTheorems {
  import opened Kubernetes
  import opened ApiStore
  import opened Tasks
  import opened Runs
  import opened Convergence
  import ControllerEnv
  import GatewayChildren

  /** The gateway exists and is not being deleted. */
  ghost predicate Live(s: Store, key: Key) {
    && Sound(s) && key.kind == GatewayKind && key in s.objects
    && s.objects[key].obj.CustomResource? && s.objects[key].obj.cr.spec.GatewaySpec?
    && !s.objects[key].obj.cr.deleting
  }

  /** The instance as a reconcile sees it. */
  ghost function Instance(s: Store, key: Key): CR
    requires Live(s, key)
  {
    SetDefaults(s.objects[key].obj.cr)
  }

  // ---- The phases of one reconcile ----

  /** The tasks and then the status. */
  function TasksThenStatus(w: World, key: Key, deployed: bool, version: nat, todo: seq<Task>): (World, bool) {
    var (w', ok) := RunTasks(w, todo);
    if !ok then (w', false)
    else if deployed then (w', true)
    else RunWrite(w', UpdateStatus(w'.store, key, true, version))
  }

  function Finish(w: World, key: Key, cr: CR, version: nat, c: Choice): (World, bool) {
    TasksThenStatus(w, key, cr.deployed, version, Program(cr, c))
  }

  lemma FinishSteps(w: World, key: Key, cr: CR, version: nat, c: Choice)
    requires cr.spec.GatewaySpec?
    ensures RunToEnd(w, key, StartWork(cr, version, c), c) == Finish(w, key, cr, version, c)
  {
    hide Program, RunTasks, Call, OnFault, UpdateStatus;
    WorkingSteps(w, key, cr, version, Program(cr, c), Some([]), c);
    var (w', ok) := RunTasks(w, Program(cr, c));
    if ok {
      MarkSteps(w', key, cr, version, [], c);
      NoTasksLeft(RunWrite(w', UpdateStatus(w'.store, key, true, version)).0);
    }
  }

  lemma NoTasksLeft(w: World)
    ensures RunTasks(w, []) == (w, true)
  {
  }

  /** The finalizer first, then the rest. */
  function PersistRun(w: World, key: Key, cr: CR, version: nat, c: Choice): (World, bool) {
    var (w', ok) := RunWrite(w, Update(w.store, CustomResource(WithFinalizer(cr)), version));
    if ok then Finish(w', key, WithFinalizer(cr), w.store.next, c) else (w', false)
  }

  /** The whole of it. */
  function LiveRun(w: World, key: Key, cr: CR, version: nat, c: Choice): (World, bool) {
    if Faulty(w) then (Tick(w), false)
    else
      var w1 := Tick(w);
      var next := OnNamespace(w1.store, cr, version, c);
      if Faulty(w1) || next == Done(true) then (Tick(w1), true)
      else
        var w2 := Tick(w1);
        if Finalizer(cr) in cr.finalizers then Finish(w2, key, cr, version, c)
        else PersistRun(w2, key, cr, version, c)
  }

  lemma ReconcileIsLiveRun(w: World, key: Key, c: Choice)
    requires Live(w.store, key)
    ensures Reconcile(w, key, c) == LiveRun(w, key, Instance(w.store, key), w.store.objects[key].version, c)
  {
    var cr, version := Instance(w.store, key), w.store.objects[key].version;
    if !Faulty(w) {
      var w1 := Tick(w);
      assert Reconcile(w, key, c) == RunToEnd(w1.(store := w.store), key, CheckNamespace(cr, version), c);
      assert w1.(store := w.store) == w1;
      NamespaceSteps(w1, key, cr, version, c);
      var next := OnNamespace(w1.store, cr, version, c);
      if !Faulty(w1) && next != Done(true) {
        var w2 := Tick(w1);
        if Finalizer(cr) in cr.finalizers {
          FinishSteps(w2, key, cr, version, c);
        } else {
          PersistSteps(w2, key, cr, version, c);
        }
      }
    }
  }

  lemma {:induction false} PersistSteps(w: World, key: Key, cr: CR, version: nat, c: Choice)
    requires cr.spec.GatewaySpec?
    ensures RunToEnd(w, key, PersistFinalizer(cr, version), c) == PersistRun(w, key, cr, version, c)
  {
    hide Update, StartWork, Finish;
    var (w', ok) := RunWrite(w, Update(w.store, CustomResource(WithFinalizer(cr)), version));
    if ok {
      FinishSteps(w', key, WithFinalizer(cr), w.store.next, c);
    }
  }

  // ---- What one reconcile, cut off or not, does to a live gateway ----

  /** The same gateway, apart from what reconciles write into it. */
  ghost predicate SameGateway(s: Store, s': Store, key: Key)
    requires Live(s, key)
  {
    Live(s', key) && Essence(Instance(s', key)) == Essence(Instance(s, key))
  }

  /** The tasks of the gateway, and what `Effect` says of them, for a whole reconcile. */
  ghost predicate RunEffect(s: Store, s': Store, key: Key, c: Choice)
    requires Live(s, key)
  {
    var cr := Instance(s, key);
    var todo := Program(cr, c);
    && SameGateway(s, s', key)
    && DistinctTasks(todo)
    && (forall k :: k != key && Unmanaged(todo, k) ==> Object(s', k) == Object(s, k))
    && Between(todo, s, s')
  }

  lemma ProgramOf(cr: CR, cr': CR, c: Choice)
    requires cr.spec.GatewaySpec? && Essence(cr) == Essence(cr')
    ensures Program(cr, c) == Program(cr', c)
  {
    ProgramOfEssence(cr, c);
    ProgramOfEssence(cr', c);
  }

  /** Rewriting the gateway's own object leaves every managed object alone. */
  lemma OwnWrite(s: Store, s': Store, key: Key, todo: seq<Task>)
    requires IsCRKind(key.kind) && DistinctTasks(todo)
    requires forall i :: 0 <= i < |todo| && !todo[i].Crash? ==> !IsCRKind(Managed(todo[i]).kind)
    requires forall k :: k != key ==> Read(s', k) == Read(s, k)
    ensures forall k :: k != key ==> Object(s', k) == Object(s, k)
    ensures forall i :: 0 <= i < |todo| && !todo[i].Crash? ==>
        Object(s', Managed(todo[i])) == Object(s, Managed(todo[i]))
  {
    forall k | k != key ensures Object(s', k) == Object(s, k) {
      assert Read(s', k) == Read(s, k);
    }
  }

  /** A custom resource sits under the key. */
  ghost predicate Stores(s: Store, key: Key) {
    Sound(s) && IsCRKind(key.kind) && key in s.objects && s.objects[key].obj.CustomResource?
  }

  ghost predicate OnlyChildren(todo: seq<Task>) {
    && DistinctTasks(todo)
    && forall i :: 0 <= i < |todo| && !todo[i].Crash? ==> !IsCRKind(Managed(todo[i]).kind)
  }

  /** Only the status of the custom resource changes, and only to true. */
  ghost predicate StatusOnly(cr: CR, cr': CR) {
    cr' == cr.(deployed := cr'.deployed) && (cr.deployed ==> cr'.deployed)
  }

  /** The status update, carried out or not. */
  lemma StatusEffect(w: World, key: Key, version: nat)
    requires Stores(w.store, key) && w.store.objects[key].version == version
    ensures var (w', ok) := RunWrite(w, UpdateStatus(w.store, key, true, version));
            && Stores(w'.store, key) && StatusOnly(w.store.objects[key].obj.cr, w'.store.objects[key].obj.cr)
            && (forall k :: k != key ==> Read(w'.store, k) == Read(w.store, k))
            && (ok ==> w'.store.objects[key].obj.cr.deployed) && (w.fates == [] ==> ok)
  {
  }

  lemma TasksThenStatusEffect(w: World, key: Key, version: nat, todo: seq<Task>)
    requires Stores(w.store, key) && w.store.objects[key].version == version && OnlyChildren(todo)
    ensures var deployed := w.store.objects[key].obj.cr.deployed;
            var (w', ok) := TasksThenStatus(w, key, deployed, version, todo);
            && Stores(w'.store, key)
            && StatusOnly(w.store.objects[key].obj.cr, w'.store.objects[key].obj.cr)
            && (forall k :: k != key && Unmanaged(todo, k) ==> Object(w'.store, k) == Object(w.store, k))
            && Between(todo, w.store, w'.store)
            && (ok ==> Completed(todo, w.store, w'.store) && w'.store.objects[key].obj.cr.deployed)
            && (w.fates == [] ==> (ok <==> Completable(todo, w.store)))
            && (deployed && AtRest(todo, w.store) ==> w'.store == w.store)
  {
    hide RunTasks, UpdateStatus, Stepped, Result;
    TasksEffect(w, todo);
    var (w1, ok) := RunTasks(w, todo);
    assert Unmanaged(todo, key);
    assert Read(w1.store, key) == Read(w.store, key);
    forall k | k != key && Unmanaged(todo, k) ensures Object(w1.store, k) == Object(w.store, k) {
      assert Read(w1.store, k) == Read(w.store, k);
    }
    if ok && !w.store.objects[key].obj.cr.deployed {
      StatusEffect(w1, key, version);
      var s' := RunWrite(w1, UpdateStatus(w1.store, key, true, version)).0.store;
      OwnWrite(w1.store, s', key, todo);
    }
  }

  lemma StatusKeepsInstance(cr: CR, cr': CR)
    requires StatusOnly(cr, cr')
    ensures Essence(SetDefaults(cr')) == Essence(SetDefaults(cr)) && cr'.spec == cr.spec && cr'.deleting == cr.deleting
  {
  }

  /** From a stored instance onwards: tasks, then status. */
  lemma FinishEffect(w: World, key: Key, c: Choice)
    requires Live(w.store, key)
    ensures var cr := Instance(w.store, key);
            var (w', ok) := Finish(w, key, cr, w.store.objects[key].version, c);
            && RunEffect(w.store, w'.store, key, c)
            && (ok ==> Completed(Program(cr, c), w.store, w'.store)
                       && w'.store.objects[key].obj.cr == w.store.objects[key].obj.cr.(deployed := true))
            && (w.fates == [] ==> (ok <==> Completable(Program(cr, c), w.store)))
            && (cr.deployed && AtRest(Program(cr, c), w.store) ==> w'.store == w.store)
  {
    hide Program;
    var cr, version := Instance(w.store, key), w.store.objects[key].version;
    DefaultsKeep(w.store.objects[key].obj.cr);
    ProgramIsDistinct(cr, c);
    var todo := Program(cr, c);
    TasksThenStatusEffect(w, key, version, todo);
    var w' := Finish(w, key, cr, version, c).0;
    StatusKeepsInstance(w.store.objects[key].obj.cr, w'.store.objects[key].obj.cr);
  }

  /** The resource after a completed reconcile: persisting the finalizer persists the defaults too. */
  function Marked(cr: CR): CR {
    (if Finalizer(cr) in cr.finalizers then cr else WithFinalizer(SetDefaults(cr))).(deployed := true)
  }

  /** One reconcile of a live gateway in an active namespace, whatever calls fail. */
  lemma ReconcileEffect(w: World, key: Key, c: Choice)
    requires Live(w.store, key)
    ensures var cr := Instance(w.store, key);
            var todo := Program(cr, c);
            var (w', ok) := Reconcile(w, key, c);
            && RunEffect(w.store, w'.store, key, c)
            && (NamespaceActive(w.store, key.ns) && w.fates == [] ==>
                  && (ok <==> Completable(todo, w.store))
                  && (ok ==> Completed(todo, w.store, w'.store)
                             && w'.store.objects[key].obj.cr == Marked(w.store.objects[key].obj.cr))
                  && (Finalizer(cr) in cr.finalizers && cr.deployed && AtRest(todo, w.store) ==> w'.store == w.store))
  {
    hide Program, SetDefaults, Finish, PersistRun, Reconcile, Between, OnNamespace, Completable, Completed, AtRest;
    ReconcileIsLiveRun(w, key, c);
    var cr, version := Instance(w.store, key), w.store.objects[key].version;
    DefaultsKeep(w.store.objects[key].obj.cr);
    assert KeyOf(w.store.objects[key].obj) == key;
    NothingDone(w.store, key, c);
    ActiveIff(w.store, cr, version, c);
    LiveRunSplit(w, key, cr, version, c);
    if Finalizer(cr) in cr.finalizers {
      FinishEffect(Tick(Tick(w)), key, c);
    } else {
      PersistEffect(Tick(Tick(w)), key, c);
    }
  }

  lemma NothingDone(s: Store, key: Key, c: Choice)
    requires Live(s, key)
    ensures RunEffect(s, s, key, c)
  {
    hide Program, Result, SetDefaults;
    DefaultsKeep(s.objects[key].obj.cr);
    ProgramIsDistinct(Instance(s, key), c);
  }

  lemma ActiveIff(s: Store, cr: CR, version: nat, c: Choice)
    requires cr.spec.GatewaySpec?
    ensures OnNamespace(s, cr, version, c) == Done(true) <==> !NamespaceActive(s, cr.meta.ns)
  {
    hide AccountObj, RbacTasks, ConfigTask, GatewayDeploymentTask, GatewayServiceTask;
    assert Program(cr, c)[0] == CreateOnly(AccountObj(cr));
  }

  /** The whole run, by what it got to do. */
  lemma LiveRunSplit(w: World, key: Key, cr: CR, version: nat, c: Choice)
    ensures var (w', ok) := LiveRun(w, key, cr, version, c);
            var w2 := Tick(Tick(w));
            || (w'.store == w.store && (w.fates == [] ==> OnNamespace(w.store, cr, version, c) == Done(true)))
            || (Finalizer(cr) in cr.finalizers && (w', ok) == Finish(w2, key, cr, version, c))
            || (Finalizer(cr) !in cr.finalizers && (w', ok) == PersistRun(w2, key, cr, version, c))
  {
  }

  /** Persisting the finalizer also persists the defaults; it leaves the same gateway and every child alone. */
  lemma {:induction false} Persisted(s: Store, key: Key, c: Choice)
    requires Live(s, key)
    ensures var cr := Instance(s, key);
            var r := Update(s, CustomResource(WithFinalizer(cr)), s.objects[key].version);
            && r.Ok? && Live(r.value, key) && r.value.objects[key] == Stored(CustomResource(WithFinalizer(cr)), s.next)
            && Instance(r.value, key) == WithFinalizer(cr) && RunEffect(s, r.value, key, c)
            && (forall k :: k != key ==> Object(r.value, k) == Object(s, k))
  {
    hide Program;
    var cr := Instance(s, key);
    ProgramIsDistinct(cr, c);
    DefaultsTwice(s.objects[key].obj.cr);
    DefaultsKeep(s.objects[key].obj.cr);
    UpdateEffect(s, CustomResource(WithFinalizer(cr)), s.objects[key].version);
    var s1 := Update(s, CustomResource(WithFinalizer(cr)), s.objects[key].version).value;
    assert s1.objects[key] == Stored(CustomResource(WithFinalizer(cr)), s.next);
    OwnWrite(s, s1, key, Program(cr, c));
  }

  /** The rest of the run sees the same gateway. */
  lemma {:induction false} PersistEffect(w: World, key: Key, c: Choice)
    requires Live(w.store, key) && Finalizer(Instance(w.store, key)) !in Instance(w.store, key).finalizers
    ensures var cr := Instance(w.store, key);
            var todo := Program(cr, c);
            var (w', ok) := PersistRun(w, key, cr, w.store.objects[key].version, c);
            && RunEffect(w.store, w'.store, key, c)
            && (ok ==> Completed(todo, w.store, w'.store)
                       && w'.store.objects[key].obj.cr == Marked(w.store.objects[key].obj.cr))
            && (w.fates == [] ==> (ok <==> Completable(todo, w.store)))
  {
    hide Program, Finish, Update, SetDefaults;
    var s, cr, version := w.store, Instance(w.store, key), w.store.objects[key].version;
    Persisted(s, key, c);
    NothingDone(s, key, c);
    DefaultsKeep(s.objects[key].obj.cr);
    assert Essence(WithFinalizer(cr)) == Essence(cr);
    if !Faulty(w) {
      var s1 := Update(s, CustomResource(WithFinalizer(cr)), version).value;
      var w1 := Tick(w).(store := s1);
      ProgramOf(cr, WithFinalizer(cr), c);
      FinishEffect(w1, key, c);
      SameObjects(Program(cr, c), s, s1, Finish(w1, key, WithFinalizer(cr), s.next, c).0.store);
    }
  }

  /** The effect predicates only look at the managed objects of the start state. */
  lemma SameObjects(todo: seq<Task>, s: Store, s1: Store, s': Store)
    requires DistinctTasks(todo)
    requires forall i :: 0 <= i < |todo| && !todo[i].Crash? ==>
        Object(s1, Managed(todo[i])) == Object(s, Managed(todo[i]))
    ensures Between(todo, s1, s') ==> Between(todo, s, s')
    ensures Completed(todo, s1, s') ==> Completed(todo, s, s')
    ensures Completable(todo, s1) <==> Completable(todo, s)
  {
  }

  // ---- Convergence under failure ----

  /** One attempt: what becomes of its calls, and how the maps are iterated. */
  datatype Attempt = Attempt(fates: seq<Fate>, choice: Choice)

  /** The store after a sequence of attempts. */
  function Attempts(s: Store, key: Key, attempts: seq<Attempt>): Store
    decreases |attempts|
  {
    if attempts == [] then s
    else Attempts(Reconcile(World(s, attempts[0].fates), key, attempts[0].choice).0.store, key, attempts[1..])
  }

  /** For every later run, `s'` is as good a start as `s`: the same gateway, and every child either untouched
      or such that completing its task gives what completing it in `s` would have given. */
  ghost predicate AsGood(s: Store, s': Store, key: Key)
    requires Live(s, key)
  {
    && SameGateway(s, s', key)
    && (NamespaceActive(s, key.ns) <==> NamespaceActive(s', key.ns))
    && forall c: Choice ::
         var todo := Program(Instance(s, key), c);
         && DistinctTasks(todo)
         && (forall k :: k != key && Unmanaged(todo, k) ==> Object(s', k) == Object(s, k))
         && SameResults(todo, s, s')
  }

  ghost predicate SameResults(todo: seq<Task>, s: Store, s': Store)
    requires DistinctTasks(todo)
  {
    forall i :: 0 <= i < |todo| && !todo[i].Crash? ==>
      Result(todo[i], Object(s', Managed(todo[i]))) == Result(todo[i], Object(s, Managed(todo[i])))
  }

  /** Tasks that absorb the ones just run see the results they would have seen before them. */
  lemma AbsorbedResults(todo: seq<Task>, todo': seq<Task>, s: Store, s': Store)
    requires DistinctTasks(todo) && DistinctTasks(todo') && ProgramsAbsorb(todo, todo') && Between(todo', s, s')
    ensures SameResults(todo, s, s')
    ensures forall k :: Unmanaged(todo, k) <==> Unmanaged(todo', k)
  {
    forall i | 0 <= i < |todo| && !todo[i].Crash?
      ensures Result(todo[i], Object(s', Managed(todo[i]))) == Result(todo[i], Object(s, Managed(todo[i])))
    {
      assert Absorbs(todo[i], todo'[i]);
      assert Stepped(todo'[i], Object(s, Managed(todo'[i])), Object(s', Managed(todo'[i])));
    }
    forall k ensures Unmanaged(todo, k) <==> Unmanaged(todo', k) {
      assert forall i :: 0 <= i < |todo| ==> Absorbs(todo[i], todo'[i]);
    }
  }

  lemma OneAttempt(w: World, key: Key, c: Choice)
    requires Live(w.store, key)
    ensures AsGood(w.store, Reconcile(w, key, c).0.store, key)
  {
    hide Program, Result, Reconcile, Completable, AtRest, Completed, SetDefaults;
    DefaultsKeep(w.store.objects[key].obj.cr);
    ReconcileEffect(w, key, c);
    var s, s', cr := w.store, Reconcile(w, key, c).0.store, Instance(w.store, key);
    var todo' := Program(cr, c);
    ProgramIsDistinct(cr, c);
    var ns := Key(NamespaceKind, "", key.ns);
    assert Unmanaged(todo', ns) && ns != key;
    assert Object(s', ns) == Object(s, ns);
    forall d: Choice
      ensures var todo := Program(cr, d);
              && DistinctTasks(todo)
              && (forall k :: k != key && Unmanaged(todo, k) ==> Object(s', k) == Object(s, k))
              && SameResults(todo, s, s')
    {
      ProgramIsDistinct(cr, d);
      ProgramAbsorbs(cr, d, c);
      AbsorbedResults(Program(cr, d), todo', s, s');
    }
  }

  lemma AsGoodTransitive(s: Store, s1: Store, s2: Store, key: Key)
    requires Live(s, key) && AsGood(s, s1, key) && AsGood(s1, s2, key)
    ensures AsGood(s, s2, key)
  {
    hide Program, Result, SetDefaults;
    forall c: Choice
      ensures var todo := Program(Instance(s, key), c);
              && DistinctTasks(todo)
              && (forall k :: k != key && Unmanaged(todo, k) ==> Object(s2, k) == Object(s, k))
              && SameResults(todo, s, s2)
    {
      DefaultsKeep(s.objects[key].obj.cr);
      ProgramIsDistinct(Instance(s, key), c);
      ProgramOf(Instance(s, key), Instance(s1, key), c);
    }
  }

  lemma {:induction false} AllAttempts(s: Store, key: Key, attempts: seq<Attempt>)
    requires Live(s, key)
    ensures AsGood(s, Attempts(s, key, attempts), key)
    decreases |attempts|
  {
    hide Program, Result, SetDefaults, Reconcile;
    DefaultsKeep(s.objects[key].obj.cr);
    if attempts == [] {
      forall c: Choice ensures DistinctTasks(Program(Instance(s, key), c)) {
        ProgramIsDistinct(Instance(s, key), c);
      }
    } else {
      var w := World(s, attempts[0].fates);
      OneAttempt(w, key, attempts[0].choice);
      var s1 := Reconcile(w, key, attempts[0].choice).0.store;
      AllAttempts(s1, key, attempts[1..]);
      AsGoodTransitive(s, s1, Attempts(s1, key, attempts[1..]), key);
    }
  }

  /** However many reconciles were cut off at whatever calls, and however they iterated their maps: the next
      reconcile without failures succeeds exactly when an uninterrupted one from the start would have, and then
      leaves the same objects, apart from the gateway's own. */
  lemma ConvergesUnderFailure(s: Store, key: Key, attempts: seq<Attempt>, c: Choice)
    requires Live(s, key)
    ensures var (after, ok) := Reconcile(World(Attempts(s, key, attempts), []), key, c);
            var (direct, ok') := Reconcile(World(s, []), key, c);
            && (NamespaceActive(s, key.ns) ==>
                  && (ok <==> ok')
                  && (ok ==> forall k :: k != key ==> Object(after.store, k) == Object(direct.store, k)))
            && SameGateway(s, after.store, key)
  {
    hide Program;
    AllAttempts(s, key, attempts);
    var s1 := Attempts(s, key, attempts);
    ReconcileEffect(World(s, []), key, c);
    ReconcileEffect(World(s1, []), key, c);
    ProgramOf(Instance(s, key), Instance(s1, key), c);
    var todo := Program(Instance(s, key), c);
    assert DistinctTasks(todo) && SameResults(todo, s, s1);
    if NamespaceActive(s, key.ns) && Completable(todo, s) {
      var after, direct := Reconcile(World(s1, []), key, c).0.store, Reconcile(World(s, []), key, c).0.store;
      SameChildren(todo, key, s, s1, direct, after);
    }
  }

  lemma SameChildren(todo: seq<Task>, key: Key, s: Store, s1: Store, direct: Store, after: Store)
    requires DistinctTasks(todo) && SameResults(todo, s, s1)
    requires Completed(todo, s, direct) && Completed(todo, s1, after)
    requires forall k :: k != key && Unmanaged(todo, k) ==>
               Object(s1, k) == Object(s, k) && Object(direct, k) == Object(s, k) && Object(after, k) == Object(s1, k)
    ensures forall k :: k != key ==> Object(after, k) == Object(direct, k)
  {
    forall k | k != key ensures Object(after, k) == Object(direct, k) {
      if !Unmanaged(todo, k) {
        var i :| 0 <= i < |todo| && !todo[i].Crash? && Managed(todo[i]) == k;
        assert Object(direct, k) == Result(todo[i], Object(s, k));
        assert Object(after, k) == Result(todo[i], Object(s1, k));
      }
    }
  }

  // ---- Quiescence ----

  /** Once one program has completed, the other can complete, and is at rest exactly when it ranges over the
      user's environment in the same order. */
  lemma SecondProgram(cr: CR, p: Choice, q: Choice, s: Store, s1: Store)
    requires cr.spec.GatewaySpec? && DistinctTasks(Program(cr, p)) && Completed(Program(cr, p), s, s1)
    ensures DistinctTasks(Program(cr, q)) && Completable(Program(cr, q), s1)
    ensures AtRest(Program(cr, q), s1) <==> p.gateway == q.gateway
  {
    hide Program, Result, GatewayDeploymentTask, GatewayBuild, Completable, AtRest, ProgramsAbsorb;
    var todo, todo' := Program(cr, q), Program(cr, p);
    ProgramIsDistinct(cr, q);
    ProgramAbsorbs(cr, q, p);
    DeploymentAt(cr, p, q);
    var n := |todo| - 2;
    SecondRound(todo, todo', s, s1, n);
    GatewayChildren.SameOrderIff(GatewayBuild(cr), p.gateway, q.gateway);
    var d := Object(s1, Managed(todo[n])).value;
    BuiltWith(cr, p, Object(s, Managed(todo[n])), d);
    BuiltWithout(cr, q, d);
    AllButOne(todo, s1, n);
  }

  lemma AllButOne(todo: seq<Task>, s1: Store, n: nat)
    requires DistinctTasks(todo) && n < |todo|
    requires forall i :: 0 <= i < |todo| ==>
               && !todo[i].Crash? && Object(s1, Managed(todo[i])).Some?
               && (i != n ==> Result(todo[i], Object(s1, Managed(todo[i]))) == Object(s1, Managed(todo[i])))
    requires Result(todo[n], Object(s1, Managed(todo[n]))).Some?
    ensures Completable(todo, s1)
    ensures AtRest(todo, s1) <==> Result(todo[n], Object(s1, Managed(todo[n]))) == Object(s1, Managed(todo[n]))
  {
    hide Result;
  }

  /** The reconcile after a completed one writes nothing at all exactly when it ranges over the user's
      environment in the same order as the one before. */
  lemma QuiescentIff(s: Store, key: Key, p: Choice, q: Choice)
    requires Live(s, key) && NamespaceActive(s, key.ns) && Reconcile(World(s, []), key, p).1
    ensures var s1 := Reconcile(World(s, []), key, p).0.store;
            Reconcile(World(s1, []), key, q).0.store == s1 <==> p.gateway == q.gateway
  {
    hide Program, SetDefaults, Reconcile;
    var cr := Instance(s, key);
    OneAttempt(World(s, []), key, p);
    ReconcileEffect(World(s, []), key, p);
    var s1 := Reconcile(World(s, []), key, p).0.store;
    DefaultsKeep(s.objects[key].obj.cr);
    DefaultsKeep(s1.objects[key].obj.cr);
    ProgramOf(cr, Instance(s1, key), q);
    SecondProgram(cr, p, q, s, s1);
    ReconcileEffect(World(s1, []), key, q);
    if Reconcile(World(s1, []), key, q).0.store == s1 {
      assert Completed(Program(cr, q), s1, s1);
    }
  }

  /** What the second of two programs finds once the first has completed. */
  lemma SecondRound(todo: seq<Task>, todo': seq<Task>, s: Store, s1: Store, n: nat)
    requires DistinctTasks(todo) && DistinctTasks(todo') && ProgramsAbsorb(todo, todo') && n < |todo|
    requires forall i :: 0 <= i < |todo| && i != n ==> todo[i] == todo'[i]
    requires Completed(todo', s, s1)
    ensures forall i :: 0 <= i < |todo| ==>
              && !todo[i].Crash? && Object(s1, Managed(todo[i])).Some?
              && (i != n ==> Result(todo[i], Object(s1, Managed(todo[i]))) == Object(s1, Managed(todo[i])))
    ensures Managed(todo[n]) == Managed(todo'[n])
    ensures Object(s1, Managed(todo[n])) == Result(todo'[n], Object(s, Managed(todo[n])))
  {
    hide Result;
    forall i | 0 <= i < |todo|
      ensures !todo[i].Crash? && Object(s1, Managed(todo[i])).Some?
      ensures i != n ==> Result(todo[i], Object(s1, Managed(todo[i]))) == Object(s1, Managed(todo[i]))
    {
      assert Absorbs(todo[i], todo'[i]);
      assert !todo'[i].Crash? && Object(s1, Managed(todo'[i])) == Result(todo'[i], Object(s, Managed(todo'[i])));
    }
    assert Absorbs(todo[n], todo'[n]);
  }

  /** Two programs of one instance differ only in the Deployment. */
  lemma DeploymentAt(cr: CR, p: Choice, q: Choice)
    requires cr.spec.GatewaySpec?
    ensures var todo, todo' := Program(cr, q), Program(cr, p);
            && |todo| == |todo'| >= 2
            && todo[|todo| - 2] == GatewayDeploymentTask(cr, q) && todo'[|todo| - 2] == GatewayDeploymentTask(cr, p)
            && forall i :: 0 <= i < |todo| && i != |todo| - 2 ==> todo[i] == todo'[i]
  {
  }

  lemma BuiltWith(cr: CR, p: Choice, before: Option<Obj>, d: Obj)
    requires cr.spec.GatewaySpec? && Result(GatewayDeploymentTask(cr, p), before) == Some(d)
    ensures d.Deployment? && d.deployment == GatewayChildren.DeploymentOf(GatewayBuild(cr), p.gateway)
  {
  }

  lemma BuiltWithout(cr: CR, q: Choice, d: Obj)
    requires cr.spec.GatewaySpec? && d.Deployment?
    ensures var r := Result(GatewayDeploymentTask(cr, q), Some(d));
            r.Some? && (r == Some(d) <==> d.deployment == GatewayChildren.DeploymentOf(GatewayBuild(cr), q.gateway))
  {
  }

  lemma CompletableEitherWay(todo: seq<Task>, todo': seq<Task>, s: Store, n: nat)
    requires DistinctTasks(todo) && DistinctTasks(todo') && |todo| == |todo'| && n < |todo| && !todo[n].Crash?
        && !todo'[n].Crash?
    requires forall i :: 0 <= i < |todo| && i != n ==> todo[i] == todo'[i]
    requires Result(todo[n], Object(s, Managed(todo[n]))).Some? ==> Result(todo'[n], Object(s, Managed(todo'[n]))).Some?
    ensures Completable(todo, s) ==> Completable(todo', s)
  {
  }

  /** Whether a reconcile can complete does not depend on the iteration orders. */
  lemma SuccessForAnyOrder(s: Store, key: Key, p: Choice, q: Choice)
    requires Live(s, key) && NamespaceActive(s, key.ns)
    ensures Reconcile(World(s, []), key, p).1 ==> Reconcile(World(s, []), key, q).1
  {
    var cr := Instance(s, key);
    DefaultsKeep(s.objects[key].obj.cr);
    ReconcileEffect(World(s, []), key, p);
    ReconcileEffect(World(s, []), key, q);
    ProgramsComplete(cr, p, q, s);
  }

  lemma ProgramsComplete(cr: CR, p: Choice, q: Choice, s: Store)
    requires cr.spec.GatewaySpec?
    ensures DistinctTasks(Program(cr, p)) && DistinctTasks(Program(cr, q))
    ensures Completable(Program(cr, p), s) ==> Completable(Program(cr, q), s)
  {
    hide Program, Result;
    ProgramIsDistinct(cr, p);
    ProgramIsDistinct(cr, q);
    DeploymentAt(cr, q, p);
    DeploymentEitherWay(cr, p, q, Object(s, Managed(GatewayDeploymentTask(cr, p))));
    CompletableEitherWay(Program(cr, p), Program(cr, q), s, |Program(cr, p)| - 2);
  }

  lemma DeploymentEitherWay(cr: CR, p: Choice, q: Choice, found: Option<Obj>)
    requires cr.spec.GatewaySpec?
    ensures Managed(GatewayDeploymentTask(cr, p)) == Managed(GatewayDeploymentTask(cr, q))
    ensures Result(GatewayDeploymentTask(cr, p), found).Some? ==> Result(GatewayDeploymentTask(cr, q), found).Some?
  {
  }

  function GatewayEnv(cr: CR): map<string, string>
    requires cr.spec.GatewaySpec?
  {
    cr.spec.gateway.container.env
  }

  /** So the operator goes quiet for every way of iterating the map exactly when the user gives at most one
      environment variable. */
  lemma QuietForAllOrdersIff(s: Store, key: Key, base: Choice)
    requires Live(s, key) && NamespaceActive(s, key.ns) && Reconcile(World(s, []), key, base).1
    ensures var env := GatewayEnv(s.objects[key].obj.cr);
            (forall p, q :: ControllerEnv.IsOrder(p, env) && ControllerEnv.IsOrder(q, env) ==>
               Quiet(s, key, base.(gateway := p), base.(gateway := q)))
            <==> |env| <= 1
  {
    var env := GatewayEnv(s.objects[key].obj.cr);
    forall p, q | ControllerEnv.IsOrder(p, env) && ControllerEnv.IsOrder(q, env)
      ensures Quiet(s, key, base.(gateway := p), base.(gateway := q)) <==> p == q
    {
      SuccessForAnyOrder(s, key, base, base.(gateway := p));
      QuiescentIff(s, key, base.(gateway := p), base.(gateway := q));
    }
    if |env| <= 1 {
      forall p, q | ControllerEnv.IsOrder(p, env) && ControllerEnv.IsOrder(q, env) ensures p == q {
        ControllerEnv.AtMostOneOrder(env, p, q);
      }
    } else {
      var p, q := ControllerEnv.TwoOrders(env);
      assert !Quiet(s, key, base.(gateway := p), base.(gateway := q));
    }
  }

  /** After a run with choice `p`, a run with choice `q` leaves the store as it is. */
  ghost predicate Quiet(s: Store, key: Key, p: Choice, q: Choice) {
    var s1 := Reconcile(World(s, []), key, p).0.store;
    Reconcile(World(s1, []), key, q).0.store == s1
  }
}
