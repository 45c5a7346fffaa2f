/** Convergence of one controller: what the reconcile after any number of interrupted ones leaves. */
module ControllerRecovery {
  import opened Kubernetes
  import opened ApiStore
  import opened Tasks
  import opened Runs
  import opened Outcomes
  import opened ControllerPrograms
  import opened SecondOutcomes
  import opened ControllerTheorems
  import opened DeploymentConvergence
  import opened ControllerConvergence
  import CD = ControllerDeployment
  import GatewayTheorems

  /** All runs see the manifests of `c`, and all their builds settle. */
  ghost predicate AllTame(cr: CR, attempts: seq<Attempt>, c: Choice)
    requires cr.spec.ControllerSpec?
  {
    && DistinctManifests(c) && TameBuilds(cr, c, c)
    && forall a :: a in attempts ==> a.choice.manifests == c.manifests && TameBuilds(cr, a.choice, c)
  }

  /** The attempts' tasks for the Deployment. */
  function BuildTasks(cr: CR, s: Store, attempts: seq<Attempt>): seq<Task>
    requires cr.spec.ControllerSpec?
    decreases |attempts|
  {
    if attempts == [] then [] else [DeployTask(cr, attempts[0].choice, s)] + BuildTasks(cr, s, attempts[1..])
  }

  /** A steady controller's tasks are the same in every steady store. */
  lemma SteadyResolved(cr: CR, cr1: CR, c: Choice, s: Store, s1: Store)
    requires cr.spec.ControllerSpec? && cr1 == cr.(finalizers := cr1.finalizers, deployed := cr1.deployed)
    requires Steady(cr, s) && Steady(cr, s1)
    ensures Resolved(cr1, c, s1) == Resolved(cr, c, s) && DeployTask(cr1, c, s1) == DeployTask(cr, c, s)
  {
    hide RbacTasks, ConfigTask, ControllerDeploymentTask, IngressTask, ControllerServiceTask, DefinitionTasks,
         AccountObj, FreshTask;
    SameRbac(cr, cr1);
    SameControllerTasks(cr, cr1, c);
  }

  lemma {:induction false} SameBuildTasks(cr: CR, cr1: CR, s: Store, s1: Store, attempts: seq<Attempt>)
    requires cr.spec.ControllerSpec? && cr1 == cr.(finalizers := cr1.finalizers, deployed := cr1.deployed)
    requires Steady(cr, s) && Steady(cr, s1)
    ensures BuildTasks(cr1, s1, attempts) == BuildTasks(cr, s, attempts)
    decreases |attempts|
  {
    hide DeployTask, Steady;
    if attempts != [] {
      SteadyResolved(cr, cr1, attempts[0].choice, s, s1);
      SameBuildTasks(cr, cr1, s, s1, attempts[1..]);
    }
  }

  lemma AttemptedTwice(t: Task, x: Option<Obj>, y: Option<Obj>, z: Option<Obj>)
    requires Settles(t) && Attempted(t, x, y) && Attempted(t, y, z)
    ensures Attempted(t, x, z)
  {
    hide Outcome, Single;
  }

  /** What attempts leave of a controller: of every child but the Deployment the object found or the one wanted, and
      of the Deployment what a sequence of builds can make of it. */
  ghost predicate Left(s: Store, mid: Store, key: Key, attempts: seq<Attempt>, c: Choice)
    requires Live(s, key)
  {
    var cr, todo := Instance(s, key), Resolved(Instance(s, key), c, s);
    && SameController(s, mid, key) && Steady(cr, mid)
    && Read(mid, Key(NamespaceKind, "", key.ns)) == Read(s, Key(NamespaceKind, "", key.ns))
    && (forall i :: 0 <= i < |todo| && i != |Front(cr, c)| ==>
          Single(todo[i]) && Attempted(todo[i], Object(s, Kept(todo[i])), Object(mid, Kept(todo[i]))))
    && Path(BuildTasks(cr, s, attempts), Object(s, Named(cr)), Object(mid, Named(cr)))
  }

  lemma NothingLeft(s: Store, key: Key, c: Choice)
    requires Live(s, key) && Steady(Instance(s, key), s) && DistinctManifests(c)
    ensures Left(s, s, key, [], c)
  {
    hide Resolved, Single, Kept, Outcome, SetDefaults;
    SameControllerItself(s, key);
    ResolvedIsDistinct(Instance(s, key), c, s);
  }

  lemma {:induction false} AttemptsLeave(s: Store, key: Key, attempts: seq<Attempt>, c: Choice)
    requires Live(s, key) && ConsoleApart(Instance(s, key)) && Steady(Instance(s, key), s)
    requires AllTame(Instance(s, key), attempts, c)
    ensures Left(s, GatewayTheorems.Attempts(s, key, attempts), key, attempts, c)
    decreases |attempts|
  {
    hide Resolved, Single, Kept, Outcome, SetDefaults, Reconcile, Left, TameBuilds, ConsoleApart, Steady, Cut;
    if attempts == [] {
      NothingLeft(s, key, c);
    } else {
      var a, cr := attempts[0], Instance(s, key);
      var s1 := Reconcile(World(s, a.fates), key, a.choice).0.store;
      assert a in attempts;
      TameAlone(cr, a.choice, c);
      ReconcileCut(World(s, a.fates), key, a.choice);
      CutFacts(s, s1, key, a.choice);
      CutIsSteady(s, s1, key, a.choice);
      var cr1 := Instance(s1, key);
      SameApart(cr, cr1);
      SameSteady(cr, cr1, s1);
      AllTameStays(cr, cr1, attempts, c);
      AttemptsLeave(s1, key, attempts[1..], c);
      LeftAfter(s, s1, GatewayTheorems.Attempts(s1, key, attempts[1..]), key, attempts, c);
    }
  }

  lemma TameAlone(cr: CR, p: Choice, q: Choice)
    requires cr.spec.ControllerSpec? && TameBuilds(cr, p, q)
    ensures TameBuilds(cr, p, p) && TameBuilds(cr, q, p) && TameBuilds(cr, q, q)
  {
    hide ControllerBuild;
  }

  lemma CutIsSteady(s: Store, s1: Store, key: Key, c: Choice)
    requires Live(s, key) && Cut(s, s1, key, c)
    ensures Steady(Instance(s, key), s1)
  {
  }

  lemma AllTameStays(cr: CR, cr1: CR, attempts: seq<Attempt>, c: Choice)
    requires cr.spec.ControllerSpec? && cr1 == cr.(finalizers := cr1.finalizers, deployed := cr1.deployed)
    requires AllTame(cr, attempts, c) && attempts != []
    ensures AllTame(cr1, attempts[1..], c)
  {
    hide TameBuilds;
    SameTame(cr, cr1, c, c);
    forall a | a in attempts[1..] ensures a.choice.manifests == c.manifests && TameBuilds(cr1, a.choice, c) {
      assert a in attempts;
      SameTame(cr, cr1, a.choice, c);
    }
  }

  /** One more attempt in front. */
  lemma LeftAfter(s: Store, s1: Store, mid: Store, key: Key, attempts: seq<Attempt>, c: Choice)
    requires Live(s, key) && attempts != [] && AllTame(Instance(s, key), attempts, c) && Steady(Instance(s, key), s)
    requires Cut(s, s1, key, attempts[0].choice) && Live(s1, key) && Left(s1, mid, key, attempts[1..], c)
    ensures Left(s, mid, key, attempts, c)
  {
    hide Resolved, Single, Kept, Outcome, SetDefaults, TameBuilds, Attempted, Steady, DeployTask, Front, Settles,
         Path;
    var cr, cr1, p := Instance(s, key), Instance(s1, key), attempts[0].choice;
    assert attempts[0] in attempts;
    SteadyResolved(cr, cr1, c, s, s1);
    SteadyResolved(cr, cr1, p, s, s1);
    SameBuildTasks(cr, cr1, s, s1, attempts[1..]);
    SameFront(cr, cr1, c);
    SameSteady(cr, cr1, mid);
    ProgramPlaces(cr, p, c, s);
    DeployTaskKept(cr, p, s);
    SteadyKey(cr, s);
    var todo, n := Resolved(cr, c, s), |Front(cr, c)|;
    forall i | 0 <= i < |todo| && i != n
      ensures Single(todo[i]) && Attempted(todo[i], Object(s, Kept(todo[i])), Object(mid, Kept(todo[i])))
    {
      assert todo[i] == Resolved(cr, p, s)[i];
      AttemptedTwice(todo[i], Object(s, Kept(todo[i])), Object(s1, Kept(todo[i])), Object(mid, Kept(todo[i])));
    }
    var tasks, before, after := BuildTasks(cr, s, attempts), Object(s, Named(cr)), Object(mid, Named(cr));
    assert tasks[1..] == BuildTasks(cr, s, attempts[1..]);
    assert Attempted(Resolved(cr, p, s)[n], before, Object(s1, Named(cr)));
    PathAfter(tasks, before, Object(s1, Named(cr)), after);
  }

  lemma PathAfter(tasks: seq<Task>, before: Option<Obj>, mid: Option<Obj>, after: Option<Obj>)
    requires tasks != [] && Attempted(tasks[0], before, mid) && Path(tasks[1..], mid, after)
    ensures Path(tasks, before, after)
  {
    hide Attempted;
  }

  lemma SameFront(cr: CR, cr1: CR, c: Choice)
    requires cr.spec.ControllerSpec? && cr1 == cr.(finalizers := cr1.finalizers, deployed := cr1.deployed)
    ensures Front(cr1, c) == Front(cr, c)
  {
    hide RbacTasks, ConfigTask, DefinitionTasks, AccountObj;
    SameRbac(cr, cr1);
    SameControllerTasks(cr, cr1, c);
  }

  // ---- The Deployment ----

  lemma SameFate(cr: CR, p: Choice, q: Choice, s: Store)
    requires cr.spec.ControllerSpec? && TameBuilds(cr, p, q) && Sound(s)
    ensures CanBuild(cr, p, s) <==> CanBuild(cr, q, s)
  {
    hide Outcome, DeployTask, Pair, TameBuilds, Alike, DeploymentKey;
    var x := Object(s, DeploymentKey(cr, s));
    DeployTaskKept(cr, p, s);
    DeployTaskKept(cr, q, s);
    TameAlone(cr, p, q);
    if Outcome(DeployTask(cr, p, s), x).Some? {
      DeployTasksPair(cr, p, q, s);
      PairsAlike(DeployTask(cr, p, s), DeployTask(cr, q, s), x);
    }
    if Outcome(DeployTask(cr, q, s), x).Some? {
      DeployTasksPair(cr, q, p, s);
      PairsAlike(DeployTask(cr, q, s), DeployTask(cr, p, s), x);
    }
  }

  lemma {:induction false} BuildTasksAre(cr: CR, s: Store, attempts: seq<Attempt>)
    requires cr.spec.ControllerSpec?
    ensures forall t :: t in BuildTasks(cr, s, attempts) ==>
              exists a :: a in attempts && t == DeployTask(cr, a.choice, s)
    decreases |attempts|
  {
    hide DeployTask;
    if attempts != [] {
      BuildTasksAre(cr, s, attempts[1..]);
      forall t | t in BuildTasks(cr, s, attempts)
        ensures exists a :: a in attempts && t == DeployTask(cr, a.choice, s)
      {
        if t in BuildTasks(cr, s, attempts[1..]) {
          var a :| a in attempts[1..] && t == DeployTask(cr, a.choice, s);
          assert a in attempts;
        } else {
          assert attempts[0] in attempts && t == DeployTask(cr, attempts[0].choice, s);
        }
      }
    }
  }

  lemma {:induction false} NothingBuilt(tasks: seq<Task>, before: Option<Obj>, after: Option<Obj>)
    requires Path(tasks, before, after) && forall t :: t in tasks ==> Single(t) && Outcome(t, before).None?
    ensures after == before
    decreases |tasks|
  {
    hide Outcome, Single;
    if tasks != [] {
      var mid :| Attempted(tasks[0], before, mid) && Path(tasks[1..], mid, after);
      assert tasks[0] in tasks;
      NothingBuilt(tasks[1..], mid, after);
    }
  }

  /** What the Deployment's task makes of what attempts have left. */
  lemma DeploymentAfter(s: Store, mid: Store, key: Key, attempts: seq<Attempt>, c: Choice)
    requires Live(s, key) && Steady(Instance(s, key), s) && AllTame(Instance(s, key), attempts, c)
    requires Left(s, mid, key, attempts, c)
    ensures var cr := Instance(s, key);
            var u, before, after := DeployTask(cr, c, s), Object(s, Named(cr)), Object(mid, Named(cr));
            && Single(u) && Kept(u) == Named(cr) && (Outcome(u, before).Some? <==> Outcome(u, after).Some?)
            && (Outcome(u, before).Some? ==>
                  (Alike(Outcome(u, after), Outcome(u, before))
                   <==> after == before || !NeedsTwo(before, ControllerBuild(cr))))
  {
    hide Resolved, Single, Kept, Outcome, SetDefaults, TameBuilds, Attempted, Steady, DeployTask, Front, Settles,
         Path, Pair, NeedsTwo, Alike, ControllerBuild, BuildTasks;
    var cr := Instance(s, key);
    var u, before, after, tasks := DeployTask(cr, c, s), Object(s, Named(cr)), Object(mid, Named(cr)),
        BuildTasks(cr, s, attempts);
    SteadyKey(cr, s);
    DeployTaskKept(cr, c, s);
    BuildTasksAre(cr, s, attempts);
    forall t | t in tasks ensures Single(t) && (Outcome(t, before).Some? <==> Outcome(u, before).Some?)
      ensures Outcome(u, before).Some? ==> Pair(t, t) && Pair(t, u) && Pair(u, t)
    {
      var a :| a in attempts && t == DeployTask(cr, a.choice, s);
      DeployTaskKept(cr, a.choice, s);
      SameFate(cr, a.choice, c, s);
      if Outcome(u, before).Some? {
        DeployTasksPair(cr, a.choice, c, s);
      }
    }
    if Outcome(u, before).Some? {
      DeployTasksPair(cr, c, c, s);
      BuildIs(u, ControllerBuild(cr));
      BuildsConvergeIff(tasks, u, before, after);
    } else {
      NothingBuilt(tasks, before, after);
    }
  }

  lemma BuildIs(t: Task, b: CD.Build)
    requires BuildsWith(t, b)
    ensures BuildOf(t) == b
  {
  }

  // ---- The theorem ----

  /** Whatever attempts have left of a child, its task makes of it what it would have made at first. */
  lemma ChildAfter(t: Task, before: Option<Obj>, after: Option<Obj>)
    requires Settles(t) && Attempted(t, before, after)
    ensures Outcome(t, after) == Outcome(t, before)
  {
    hide Outcome, Single;
  }

  /** However many reconciles of a controller were cut off at whatever calls, and however they iterated their maps: the
      next failure-free one can make every child exactly when an uninterrupted one from the start could have. It then
      leaves all children but the Deployment as that would have left them, and the Deployment so, up to the order of
      its environment, exactly when no attempt wrote it or the one found at first needed no second build. */
  lemma ConvergesIff(s: Store, key: Key, attempts: seq<Attempt>, c: Choice)
    requires Live(s, key) && NamespaceActive(s, key.ns) && ConsoleApart(Instance(s, key)) && Steady(Instance(s, key), s)
    requires AllTame(Instance(s, key), attempts, c)
    ensures var cr, mid := Instance(s, key), GatewayTheorems.Attempts(s, key, attempts);
            var todo, place := Resolved(cr, c, s), Named(cr);
            var (after, ok) := Reconcile(World(mid, []), key, c);
            var (direct, ok') := Reconcile(World(s, []), key, c);
            && SameController(s, mid, key) && Outcomes.DistinctObjects(todo)
            && (Outcomes.Completable(todo, mid) <==> Outcomes.Completable(todo, s))
            && (!HasConsole(cr) ==> (ok <==> ok'))
            && (Outcomes.Completable(todo, s) ==>
                  && (forall i :: 0 <= i < |todo| && Kept(todo[i]) != place ==>
                        Object(after.store, Kept(todo[i])) == Object(direct.store, Kept(todo[i])))
                  && (Alike(Object(after.store, place), Object(direct.store, place))
                      <==> Object(mid, place) == Object(s, place) || !NeedsTwo(Object(s, place), ControllerBuild(cr))))
  {
    hide Resolved, Single, Kept, Outcome, SetDefaults, Reconcile, TameBuilds, ConsoleApart, DeployTask, Front,
         Settles, NeedsTwo, Alike, ControllerBuild, Attempted, Path, BuildTasks, GatewayTheorems.Attempts, Steady;
    var cr, mid := Instance(s, key), GatewayTheorems.Attempts(s, key, attempts);
    var todo, n := Resolved(cr, c, s), |Front(cr, c)|;
    AttemptsLeave(s, key, attempts, c);
    var cr1 := Instance(mid, key);
    DeploymentAfter(s, mid, key, attempts, c);
    SteadyResolved(cr, cr1, c, s, mid);
    SameApart(cr, cr1);
    CompletedReconcile(s, key, c);
    CompletedReconcile(mid, key, c);
    ProgramPlaces(cr, c, c, s);
    forall i | 0 <= i < |todo|
      ensures Outcome(todo[i], Object(mid, Kept(todo[i]))).Some? <==> Outcome(todo[i], Object(s, Kept(todo[i]))).Some?
      ensures i != n ==> Outcome(todo[i], Object(mid, Kept(todo[i]))) == Outcome(todo[i], Object(s, Kept(todo[i])))
    {
      if i != n {
        ChildAfter(todo[i], Object(s, Kept(todo[i])), Object(mid, Kept(todo[i])));
      }
    }
    assert Outcomes.Completable(todo, mid) <==> Outcomes.Completable(todo, s);
    if Outcomes.Completable(todo, s) {
      assert Object(Reconcile(World(mid, []), key, c).0.store, Kept(todo[n]))
             == Outcome(todo[n], Object(mid, Kept(todo[n])));
      assert Object(Reconcile(World(s, []), key, c).0.store, Kept(todo[n]))
             == Outcome(todo[n], Object(s, Kept(todo[n])));
    }
  }
}
