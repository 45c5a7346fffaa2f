/** What builds of a controller's Deployment, cut off anywhere, make of it, and when that shows. */
module DeploymentConvergence {
  import opened Kubernetes
  import opened Tasks
  import opened Outcomes
  import opened SecondOutcomes
  import CD = ControllerDeployment
  import opened ControllerEnv

  // ---- Alike but for the order of the environment ----

  predicate AlikeContainers(a: Container, b: Container) {
    a.(env := []) == b.(env := []) && multiset(a.env) == multiset(b.env)
  }

  predicate AlikeLists(a: seq<Container>, b: seq<Container>) {
    |a| == |b| && forall i | 0 <= i < |a| :: AlikeContainers(a[i], b[i])
  }

  /** The same specification, apart from the order of environment lists. */
  predicate AlikeSpecs(a: DeploymentSpec, b: DeploymentSpec) {
    && a.(template := a.template.(containers := [])) == b.(template := b.template.(containers := []))
    && AlikeLists(a.template.containers, b.template.containers)
  }

  predicate Alike(a: Option<Obj>, b: Option<Obj>) {
    || a == b
    || (&& a.Some? && b.Some? && a.value.Deployment? && b.value.Deployment?
        && a.value.meta == b.value.meta && a.value.owner == b.value.owner
            && AlikeSpecs(a.value.deployment, b.value.deployment))
  }

  lemma {:induction false} DistinctCount<T>(s: seq<T>, x: T)
    requires forall i, j :: 0 <= i < j < |s| ==> s[i] != s[j]
    ensures multiset(s)[x] == if x in s then 1 else 0
  {
    if s != [] {
      var front, last := s[..|s| - 1], s[|s| - 1];
      assert s == front + [last];
      DistinctCount(front, x);
    }
  }

  /** All iteration orders give the same variables. */
  lemma UserEnvIsAlike(user: map<string, string>, p: Order, q: Order)
    requires IsOrder(p, user) && IsOrder(q, user)
    ensures multiset(UserEnv(user, p)) == multiset(UserEnv(user, q))
  {
    var a, b := UserEnv(user, p), UserEnv(user, q);
    assert forall i, j :: 0 <= i < j < |a| ==> a[i].name != a[j].name;
    assert forall i, j :: 0 <= i < j < |b| ==> b[i].name != b[j].name;
    forall x ensures multiset(a)[x] == multiset(b)[x] {
      DistinctCount(a, x);
      DistinctCount(b, x);
      if x in a {
        var i :| 0 <= i < |a| && a[i] == x;
        var j := UserEnvEntry(user, p, i, q);
      }
      if x in b {
        var i :| 0 <= i < |b| && b[i] == x;
        var j := UserEnvEntry(user, q, i, p);
      }
    }
  }

  lemma GeneratedAlike(builtin: seq<EnvVar>, required: set<string>, user: map<string, string>, p: Order, q: Order,
      prior: seq<EnvVar>)
    requires IsOrder(p, user) && IsOrder(q, user)
    ensures multiset(Generate(builtin, required, user, p, prior))
            == multiset(Generate(builtin, required, user, q, prior))
  {
    DecisionIsOrderIndependent(builtin, required, user, p, q, prior);
    UserEnvIsAlike(user, p, q);
    hide Settled;
  }

  lemma RefreshAlike(c: Container, i: nat, b: CD.Build, p: CD.Orders, q: CD.Orders)
    requires b.fields.controller.resources.Some? && CD.ValidOrders(p, b.fields) && CD.ValidOrders(q, b.fields)
    ensures AlikeContainers(CD.Refresh(c, i, b, p), CD.Refresh(c, i, b, q))
  {
    hide Generate, PilotBuiltin, ControllerBuiltin, CD.ControllerArgs, CD.PilotArguments;
    var f := b.fields;
    GeneratedAlike(ControllerBuiltin(), CONTROLLER_REQUIRED, f.controller.env, p.controller(i), q.controller(i), c.env);
    GeneratedAlike(PilotBuiltin(b.meta.ns, f), {}, f.pilot.env, p.pilot(i), q.pilot(i), c.env);
  }

  lemma NewAlike(n: nat, b: CD.Build, p: CD.Orders, q: CD.Orders)
    requires b.fields.controller.resources.Some? && CD.ValidOrders(p, b.fields) && CD.ValidOrders(q, b.fields)
    ensures AlikeContainers(CD.NewController(n, b, p), CD.NewController(n, b, q))
    ensures b.fields.pilot.resources.Some? ==> AlikeContainers(CD.NewPilot(n, b, p), CD.NewPilot(n, b, q))
  {
    hide Generate, PilotBuiltin, ControllerBuiltin, CD.ControllerArgs, CD.PilotArguments;
    var f := b.fields;
    GeneratedAlike(ControllerBuiltin(), CONTROLLER_REQUIRED, f.controller.env, p.controller(n), q.controller(n), []);
    GeneratedAlike(PilotBuiltin(b.meta.ns, f), {}, f.pilot.env, p.pilot(n), q.pilot(n), []);
  }

  lemma AlikeConcat(a: seq<Container>, b: seq<Container>, c: seq<Container>, d: seq<Container>)
    requires AlikeLists(a, b) && AlikeLists(c, d)
    ensures AlikeLists(a + c, b + d)
  {
  }

  lemma MergesAlike(cs: seq<Container>, b: CD.Build, p: CD.Orders, q: CD.Orders)
    requires CD.Merge(cs, b, p).Some? && CD.ValidOrders(p, b.fields) && CD.ValidOrders(q, b.fields)
    ensures CD.Merge(cs, b, q).Some? && AlikeLists(CD.Merge(cs, b, p).value, CD.Merge(cs, b, q).value)
  {
    hide CD.Refresh, CD.NewController, CD.NewPilot, AlikeContainers, CD.HasController, CD.HasPilot, CD.ValidOrders;
    var f, rp, rq := b.fields, CD.RefreshAll(cs, b, p), CD.RefreshAll(cs, b, q);
    forall i | 0 <= i < |cs| ensures AlikeContainers(rp[i], rq[i]) {
      RefreshAlike(cs[i], i, b, p, q);
    }
    NewAlike(|cs|, b, p, q);
    var cp, cq := if CD.HasController(cs, f) then [] else [CD.NewController(|cs|, b, p)],
                  if CD.HasController(cs, f) then [] else [CD.NewController(|cs|, b, q)];
    var pp, pq := if CD.HasPilot(cs, f) then [] else [CD.NewPilot(|cs|, b, p)],
                  if CD.HasPilot(cs, f) then [] else [CD.NewPilot(|cs|, b, q)];
    AlikeConcat(rp, rq, cp, cq);
    AlikeConcat(rp + cp, rq + cq, pp, pq);
  }

  /** Two builds of one specification differ in the order of the environment only. */
  lemma BuildsAlike(spec: DeploymentSpec, b: CD.Build, p: CD.Orders, q: CD.Orders)
    requires CD.UpdateSpec(spec, b, p).Some? && CD.ValidOrders(p, b.fields) && CD.ValidOrders(q, b.fields)
    ensures CD.UpdateSpec(spec, b, q).Some?
            && AlikeSpecs(CD.UpdateSpec(spec, b, p).value, CD.UpdateSpec(spec, b, q).value)
  {
    hide CD.Merge, CD.Volumes, AlikeContainers, CD.ValidOrders;
    MergesAlike(spec.template.containers, b, p, q);
  }

  // ---- Two outcomes of one Deployment ----

  /** Two outcomes of one Deployment are alike. */
  lemma OutcomesAlike(t: Task, u: Task, found: Option<Obj>)
    requires SameDeploy(t, u) && Outcome(t, found).Some?
    ensures Outcome(u, found).Some? && Alike(Outcome(t, found), Outcome(u, found))
  {
    hide CD.UpdateSpec, CD.StableEnv, CD.ValidOrders, CD.DistinctNames, AlikeSpecs;
    var b := t.build;
    if found.None? {
      FreshAlike(t, u);
    } else {
      var f := found.value;
      CD.FastPathRefines(f.deployment, b, t.first, u.first);
      CD.PanicsForAnyOrder(f.deployment, b, t.first, u.first);
      CD.PanicsForAnyOrder(f.deployment, b, t.first, t.second);
      CD.PanicsForAnyOrder(f.deployment, b, t.first, u.second);
      BuildsAlike(f.deployment, b, t.second, u.second);
    }
  }

  lemma FreshAlike(t: Task, u: Task)
    requires SameDeploy(t, u) && Outcome(t, None).Some?
    ensures Outcome(u, None).Some? && Alike(Outcome(t, None), Outcome(u, None))
  {
    hide CD.UpdateSpec, CD.StableEnv, CD.ValidOrders, CD.DistinctNames;
    var b := t.build;
    CD.PanicsForAnyOrder(EMPTY_SPEC, b, t.first, u.first);
    TwoBuildsAlike(EMPTY_SPEC, b, t.first, t.second, u.first, u.second);
  }

  /** Built twice from nothing: the second build only gives the pilot the controller's resources. */
  lemma TwoBuildsAlike(spec: DeploymentSpec, b: CD.Build, p: CD.Orders, p': CD.Orders, q: CD.Orders, q': CD.Orders)
    requires CD.UpdateSpec(spec, b, p).Some? && CD.DistinctNames(b.fields) && CD.StableEnv(b)
    requires CD.ValidOrders(p, b.fields) && CD.ValidOrders(p', b.fields) && CD.ValidOrders(q, b.fields)
             && CD.ValidOrders(q', b.fields)
    ensures CD.UpdateSpec(spec, b, q).Some?
    ensures var once, once' := CD.UpdateSpec(spec, b, p).value, CD.UpdateSpec(spec, b, q).value;
            && CD.UpdateSpec(once, b, p').Some? && CD.UpdateSpec(once', b, q').Some?
            && AlikeSpecs(CD.UpdateSpec(once, b, p').value, CD.UpdateSpec(once', b, q').value)
  {
    hide CD.Merge, CD.Volumes, CD.StableEnv, CD.ValidOrders, AlikeLists;
    CD.PanicsForAnyOrder(spec, b, p, q);
    TwoMergesAlike(spec.template.containers, b, p, p', q, q');
  }

  lemma TwoMergesAlike(cs: seq<Container>, b: CD.Build, p: CD.Orders, p': CD.Orders, q: CD.Orders, q': CD.Orders)
    requires CD.Merge(cs, b, p).Some? && CD.DistinctNames(b.fields) && CD.StableEnv(b)
    requires CD.ValidOrders(p, b.fields) && CD.ValidOrders(p', b.fields) && CD.ValidOrders(q, b.fields)
             && CD.ValidOrders(q', b.fields)
    ensures CD.Merge(cs, b, q).Some?
    ensures var once, once' := CD.Merge(cs, b, p).value, CD.Merge(cs, b, q).value;
            && CD.Merge(once, b, p').Some? && CD.Merge(once', b, q').Some?
            && AlikeLists(CD.Merge(once, b, p').value, CD.Merge(once', b, q').value)
  {
    MergesAlike(cs, b, p, q);
    MergeHasResources(cs, b, p);
    hide CD.Merge, CD.StableEnv, CD.ValidOrders, CD.HasPilot, CD.NewPilot, AlikeLists;
    CD.SecondMerge(cs, b, p, p');
    CD.SecondMerge(cs, b, q, q');
    ResourcesAlike(CD.Merge(cs, b, p).value, CD.Merge(cs, b, q).value, b);
  }

  lemma MergeHasResources(cs: seq<Container>, b: CD.Build, o: CD.Orders)
    requires CD.Merge(cs, b, o).Some?
    ensures b.fields.controller.resources.Some?
  {
  }

  lemma ResourcesAlike(a: seq<Container>, c: seq<Container>, b: CD.Build)
    requires AlikeLists(a, c) && b.fields.controller.resources.Some?
    ensures |a| > 0 ==> AlikeLists(a[|a| - 1 := a[|a| - 1].(resources := b.fields.controller.resources.value)],
                                   c[|c| - 1 := c[|c| - 1].(resources := b.fields.controller.resources.value)])
  {
  }

  lemma RebuildsAlike(t: Task, u: Task, found: Option<Obj>)
    requires SameRebuild(t, u) && Outcome(t, found).Some?
    ensures Outcome(u, found).Some? && Alike(Outcome(t, found), Outcome(u, found))
  {
    hide CD.UpdateSpec, CD.StableEnv, CD.ValidOrders, CD.DistinctNames, AlikeSpecs;
    var b := BuildOf(t);
    if found.None? {
      var o :| CD.ValidOrders(o, b.fields) && CD.UpdateSpec(EMPTY_SPEC, b, o) == Some(t.init.deployment);
      var o' :| CD.ValidOrders(o', b.fields) && CD.UpdateSpec(EMPTY_SPEC, b, o') == Some(u.init.deployment);
      TwoBuildsAlike(EMPTY_SPEC, b, o, t.mutation.orders, o', u.mutation.orders);
    } else {
      BuildsAlike(found.value.deployment, b, t.mutation.orders, u.mutation.orders);
    }
  }

  lemma PairsAlike(t: Task, u: Task, found: Option<Obj>)
    requires Pair(t, u) && Outcome(t, found).Some?
    ensures Outcome(u, found).Some? && Alike(Outcome(t, found), Outcome(u, found))
  {
    hide Outcome, Alike, SameDeploy, SameRebuild;
    if SameDeploy(t, u) {
      OutcomesAlike(t, u, found);
    } else {
      RebuildsAlike(t, u, found);
    }
  }

  /** The build that a Deployment without a pilot needs a second of shows: the pilot's resources differ. */
  lemma SecondBuildShows(t: Task, u: Task, found: Option<Obj>)
    requires SameDeploy(t, u) && SameDeploy(u, t) && Outcome(t, found).Some? && NeedsTwo(found, t.build)
    ensures Outcome(u, Outcome(t, found)).Some? && Outcome(u, found).Some?
    ensures !Alike(Outcome(u, Outcome(t, found)), Outcome(u, found))
  {
    hide CD.Merge, CD.StableEnv, CD.ValidOrders, CD.Volumes;
    var b, f := t.build, found.value;
    var cs := f.deployment.template.containers;
    hide CD.DistinctNames;
    SecondDeploy(t, u, found);
    OutcomesAlike(t, u, found);
    PilotAppended(f.deployment, b, t.second, u.second);
    PilotAppended(f.deployment, b, u.second, u.second);
    CD.PanicsForAnyOrder(f.deployment, b, t.first, t.second);
    CD.PanicsForAnyOrder(f.deployment, b, t.first, u.second);
    Unbuilt(f.deployment, b, t.first);
    Unbuilt(f.deployment, b, u.first);
    Rebuilt(f.deployment, b, t.second, u.first, u.second);
  }

  /** A Deployment without a pilot is changed by every build. */
  lemma Unbuilt(spec: DeploymentSpec, b: CD.Build, o: CD.Orders)
    requires !CD.HasPilot(spec.template.containers, b.fields) && CD.DistinctNames(b.fields)
    ensures CD.UpdateSpec(spec, b, o) != Some(spec)
  {
    hide CD.Volumes, CD.RefreshAll, CD.NewPilot, CD.NewController, CD.HasController;
    if CD.Merge(spec.template.containers, b, o).Some? {
      CD.MergeHasBoth(spec.template.containers, b, o);
    }
  }

  lemma PilotAppended(spec: DeploymentSpec, b: CD.Build, o: CD.Orders, q: CD.Orders)
    requires CD.UpdateSpec(spec, b, o).Some? && !CD.HasPilot(spec.template.containers, b.fields)
    requires CD.DistinctNames(b.fields) && CD.StableEnv(b) && CD.ValidOrders(o, b.fields) && CD.ValidOrders(q, b.fields)
    ensures var m := CD.UpdateSpec(spec, b, o).value.template.containers;
            |m| > 0 && b.fields.pilot.resources == Some(m[|m| - 1].resources)
  {
    hide CD.Volumes, CD.RefreshAll, CD.NewController, CD.HasController, CD.StableEnv, CD.ValidOrders;
    CD.SecondMerge(spec.template.containers, b, o, q);
  }

  lemma Rebuilt(spec: DeploymentSpec, b: CD.Build, o: CD.Orders, q: CD.Orders, r: CD.Orders)
    requires CD.UpdateSpec(spec, b, o).Some? && !CD.HasPilot(spec.template.containers, b.fields)
    requires b.fields.pilot.resources != b.fields.controller.resources
    requires CD.DistinctNames(b.fields) && CD.StableEnv(b)
    requires CD.ValidOrders(o, b.fields) && CD.ValidOrders(q, b.fields) && CD.ValidOrders(r, b.fields)
    ensures var once := CD.UpdateSpec(spec, b, o).value;
            && CD.UpdateSpec(once, b, q).Some? && CD.UpdateSpec(once, b, q).value != once
            && CD.UpdateSpec(once, b, r).Some?
            && var m := CD.UpdateSpec(once, b, r).value.template.containers;
               |m| > 0 && b.fields.controller.resources == Some(m[|m| - 1].resources)
  {
    hide CD.Volumes, CD.RefreshAll, CD.NewController, CD.HasController, CD.StableEnv, CD.ValidOrders;
    CD.SecondMerge(spec.template.containers, b, o, r);
    SecondBuild(spec, b, o, q);
  }

  lemma SecondRebuildShows(t: Task, u: Task, found: Option<Obj>)
    requires SameRebuild(t, u) && SameRebuild(u, t) && Outcome(t, found).Some? && NeedsTwo(found, BuildOf(t))
    ensures Outcome(u, Outcome(t, found)).Some? && Outcome(u, found).Some?
    ensures !Alike(Outcome(u, Outcome(t, found)), Outcome(u, found))
  {
    hide CD.Merge, CD.StableEnv, CD.ValidOrders, CD.Volumes, BuiltFresh, CD.DistinctNames;
    var b, f := BuildOf(t), found.value;
    RebuildsAlike(t, u, found);
    PilotAppended(f.deployment, b, t.mutation.orders, u.mutation.orders);
    PilotAppended(f.deployment, b, u.mutation.orders, u.mutation.orders);
    Rebuilt(f.deployment, b, t.mutation.orders, u.mutation.orders, u.mutation.orders);
  }

  lemma SecondPairShows(t: Task, u: Task, found: Option<Obj>)
    requires Pair(t, u) && Pair(u, t) && Outcome(t, found).Some? && NeedsTwo(found, BuildOf(t))
    ensures Outcome(u, Outcome(t, found)).Some? && Outcome(u, found).Some?
    ensures !Alike(Outcome(u, Outcome(t, found)), Outcome(u, found))
  {
    hide Outcome, Alike, NeedsTwo, CD.StableEnv, CD.ValidOrders, CD.DistinctNames, BuiltFresh;
    if SameDeploy(t, u) {
      SecondBuildShows(t, u, found);
    } else {
      SecondRebuildShows(t, u, found);
    }
  }

  // ---- Attempts ----

  /** An attempt leaves the object as it was or as the task wants it. */
  predicate Attempted(t: Task, before: Option<Obj>, after: Option<Obj>) {
    after == before || (Single(t) && Outcome(t, before).Some? && after == Outcome(t, before))
  }

  /** What a sequence of attempts can leave. */
  ghost predicate Path(tasks: seq<Task>, before: Option<Obj>, after: Option<Obj>)
    decreases |tasks|
  {
    if tasks == [] then after == before
    else exists mid :: Attempted(tasks[0], before, mid) && Path(tasks[1..], mid, after)
  }

  ghost predicate AllPaired(tasks: seq<Task>, u: Task) {
    forall t :: t in tasks ==> Pair(t, t) && Pair(t, u) && Pair(u, t)
  }

  lemma PairFacts(t: Task, u: Task)
    requires Pair(t, u)
    ensures Single(t) && Single(u) && Kept(t) == Kept(u) && BuildsWith(t, BuildOf(t)) && BuildsWith(u, BuildOf(t))
  {
    hide CD.StableEnv, CD.ValidOrders, CD.DistinctNames, BuiltFresh, CD.UpdateSpec;
  }

  lemma AllPairs(t: Task, r: Task, u: Task)
    requires Pair(t, u) && Pair(u, t) && Pair(r, u) && Pair(u, r)
    ensures Pair(t, r) && Pair(r, t)
  {
  }

  /** Once settled, the Deployment stays as it is whatever is attempted. */
  lemma {:induction false} SettledStays(tasks: seq<Task>, before: Option<Obj>, after: Option<Obj>)
    requires Path(tasks, before, after) && forall t :: t in tasks ==> Single(t) && Outcome(t, before) == before
    ensures after == before
    decreases |tasks|
  {
    hide Outcome, Single;
    if tasks != [] {
      var mid :| Attempted(tasks[0], before, mid) && Path(tasks[1..], mid, after);
      assert tasks[0] in tasks;
      SettledStays(tasks[1..], mid, after);
    }
  }

  /** `after` is what one build makes of `before`, or a second one of that. */
  ghost predicate Builds(t: Task, r: Task, before: Option<Obj>, after: Option<Obj>) {
    && Single(t) && Single(r) && Outcome(t, before).Some?
    && (after == Outcome(t, before) || after == Outcome(r, Outcome(t, before)))
  }

  ghost predicate BuiltFrom(tasks: seq<Task>, before: Option<Obj>, after: Option<Obj>) {
    exists t, r :: t in tasks && r in tasks && Builds(t, r, before, after)
  }

  /** From a Deployment that has its pilot at most one more build changes anything. */
  lemma {:induction false} SecondBuilds(tasks: seq<Task>, u: Task, before: Option<Obj>, after: Option<Obj>)
    requires Path(tasks, before, after) && Pair(u, u) && AllPaired(tasks, u) && !NeedsTwo(before, BuildOf(u))
    ensures after == before || exists r :: r in tasks && Single(r) && after == Outcome(r, before)
    decreases |tasks|
  {
    hide Outcome, Pair, NeedsTwo, Single, Kept;
    if tasks != [] {
      var mid :| Attempted(tasks[0], before, mid) && Path(tasks[1..], mid, after);
      var t := tasks[0];
      if mid == before {
        SecondBuilds(tasks[1..], u, before, after);
        if after != before {
          var r :| r in tasks[1..] && Single(r) && after == Outcome(r, before);
          assert r in tasks;
        }
      } else {
        PairFacts(t, u);
        PairFacts(u, u);
        forall r | r in tasks[1..] ensures Single(r) && Outcome(r, mid) == mid {
          assert r in tasks;
          PairFacts(r, u);
          AllPairs(t, r, u);
          SecondPair(t, r, before);
        }
        SettledStays(tasks[1..], mid, after);
        assert t in tasks && after == Outcome(t, before);
      }
    }
  }

  /** What attempts can leave: the Deployment as it was, or one that was built, and then perhaps built again. */
  lemma {:induction false} AfterAttempts(tasks: seq<Task>, u: Task, before: Option<Obj>, after: Option<Obj>)
    requires Path(tasks, before, after) && Pair(u, u) && AllPaired(tasks, u)
    ensures after == before || BuiltFrom(tasks, before, after)
    decreases |tasks|
  {
    hide Outcome, Pair, NeedsTwo, Single, Kept;
    if tasks != [] {
      var mid :| Attempted(tasks[0], before, mid) && Path(tasks[1..], mid, after);
      var t := tasks[0];
      if mid == before {
        AfterAttempts(tasks[1..], u, before, after);
        if after != before {
          var a, r :| a in tasks[1..] && r in tasks[1..] && Builds(a, r, before, after);
          assert a in tasks && r in tasks;
        }
      } else {
        PairFacts(t, u);
        PairFacts(u, u);
        SecondPair(t, u, before);
        SecondBuilds(tasks[1..], u, mid, after);
        if after == mid {
          assert t in tasks && Builds(t, t, before, after);
        } else {
          var r :| r in tasks[1..] && Single(r) && after == Outcome(r, mid);
          assert t in tasks && r in tasks && Builds(t, r, before, after);
        }
      }
    }
  }

  /** Whether built once or twice, what the last run makes of it is the same as of what was built once. */
  lemma BuiltTwice(t: Task, r: Task, u: Task, before: Option<Obj>, after: Option<Obj>)
    requires Pair(t, u) && Pair(u, t) && Pair(r, u) && Pair(u, r) && Builds(t, r, before, after)
    ensures Outcome(u, after).Some?
    ensures !NeedsTwo(before, BuildOf(u)) ==> after == Outcome(t, before)
    ensures after == Outcome(t, before) || Outcome(u, after) == after
  {
    hide Outcome, Pair, NeedsTwo, Single, Kept;
    PairFacts(t, u);
    PairFacts(u, t);
    AllPairs(t, r, u);
    SecondPair(t, u, before);
    SecondPair(t, r, before);
    if after != Outcome(t, before) {
      SecondPair(r, u, Outcome(t, before));
    }
  }

  lemma AlikeItself(a: Option<Obj>)
    ensures Alike(a, a)
  {
  }

  lemma AlikeTurns(a: Option<Obj>, b: Option<Obj>, c: Option<Obj>)
    requires Alike(a, b)
    ensures Alike(b, c) ==> Alike(a, c)
    ensures Alike(a, c) ==> Alike(b, c)
  {
  }

  /** Nor does it show which of the attempts built it the second time. */
  lemma AlikeRight(t: Task, r: Task, u: Task, before: Option<Obj>, after: Option<Obj>)
    requires Pair(t, u) && Pair(u, t) && Pair(r, u) && Pair(u, r) && Builds(t, r, before, after)
    requires Outcome(u, before).Some? && Outcome(u, Outcome(t, before)).Some? && Outcome(u, after).Some?
    requires after == Outcome(t, before) || Outcome(u, after) == after
    requires !Alike(Outcome(u, Outcome(t, before)), Outcome(u, before))
    ensures !Alike(Outcome(u, after), Outcome(u, before))
  {
    hide Outcome, Pair, Alike;
    PairFacts(t, u);
    if after != Outcome(t, before) {
      PairsAlike(r, u, Outcome(t, before));
      AlikeTurns(after, Outcome(u, Outcome(t, before)), Outcome(u, before));
    }
  }

  /** However many builds were attempted: one that completes after them leaves the Deployment, up to the order of its
      environment, as it would have left it at first exactly when no attempt wrote it, or the Deployment found at
      first needed no second build. */
  lemma BuildsConvergeIff(tasks: seq<Task>, u: Task, before: Option<Obj>, after: Option<Obj>)
    requires Path(tasks, before, after) && Pair(u, u) && AllPaired(tasks, u) && Outcome(u, before).Some?
    ensures Outcome(u, after).Some?
    ensures Alike(Outcome(u, after), Outcome(u, before)) <==> after == before || !NeedsTwo(before, BuildOf(u))
  {
    hide Outcome, Pair, NeedsTwo, Alike, Single, Kept;
    PairFacts(u, u);
    AfterAttempts(tasks, u, before, after);
    if after == before {
      AlikeItself(Outcome(u, before));
    } else {
      var t, r :| t in tasks && r in tasks && Builds(t, r, before, after);
      PairFacts(t, u);
      BuiltTwice(t, r, u, before, after);
      if NeedsTwo(before, BuildOf(u)) {
        SecondPairShows(t, u, before);
        AlikeRight(t, r, u, before, after);
      } else {
        SecondPair(t, u, before);
        PairsAlike(t, u, before);
        AlikeItself(Outcome(u, after));
      }
    }
  }
}
