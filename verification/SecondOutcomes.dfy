/** What a second outcome of a task is: the same as the first, except for a Deployment that needs two builds. */
module SecondOutcomes {
  import opened Kubernetes
  import opened Tasks
  import opened Runs
  import opened Outcomes
  import opened ControllerPrograms
  import opened ApiStore
  import CD = ControllerDeployment
  import CS = ControllerService
  import ConfigMaps

  // ---- What a second outcome is ----

  /** Tasks that find their own outcome as they want it. */
  ghost predicate Settles(t: Task) {
    Single(t) && forall x: Option<Obj> :: Outcome(t, x).Some? ==> Outcome(t, Outcome(t, x)) == Outcome(t, x)
  }

  lemma EnsureSettles(t: Task)
    requires Single(t) && t.Ensure? && Scoped(KeyOf(t.init)) == KeyOf(t.init)
    requires || t.mutation.SetRules? || t.mutation.Bind? || t.mutation.SetData? || t.mutation.SetDefinition?
             || t.mutation.SetControllerService?
    ensures Settles(t)
  {
    forall x: Option<Obj> | Outcome(t, x).Some? ensures Outcome(t, Outcome(t, x)) == Outcome(t, x) {
      var start := if x.Some? then x.value else t.init;
      ApplyKeepsKey(t.mutation, start);
      MutationSettles(t.mutation, start);
    }
  }

  lemma MutationSettles(m: Mutation, o: Obj)
    requires m.SetRules? || m.Bind? || m.SetData? || m.SetDefinition? || m.SetControllerService?
    ensures Apply(m, o).Some? ==> Apply(m, Apply(m, o).value) == Apply(m, o)
  {
    if m.SetControllerService? && o.Service? {
      CS.UpdateIsIdempotent(o.service, m.fields);
    }
  }

  lemma FrontSettles(cr: CR, c: Choice)
    requires cr.spec.ControllerSpec?
    ensures forall t :: t in Front(cr, c) ==> Settles(t)
  {
    hide ConfigMaps.Data, ConfigMaps.SettledData, Apply;
    forall t | t in Front(cr, c) ensures Settles(t) {
      if t == CreateOnly(AccountObj(cr)) {
        assert Settles(t);
      } else if t in DefinitionTasks(c) {
        var i :| 0 <= i < |c.manifests| && DefinitionTasks(c)[i] == t;
        EnsureSettles(DefinitionTask(c.manifests[i]));
      } else if t in RbacTasks(cr) {
        RbacSettles(cr, t);
      } else {
        assert t == ConfigTask(cr);
        EnsureSettles(t);
      }
    }
  }

  lemma RbacSettles(cr: CR, t: Task)
    requires t in RbacTasks(cr)
    ensures Settles(t)
  {
    hide Apply, Settles;
    EnsureSettles(t);
  }

  lemma LastSettle(cr: CR)
    requires cr.spec.ControllerSpec?
    ensures Settles(IngressTask(cr)) && Settles(ControllerServiceTask(cr))
  {
    hide Apply, CS.Update;
    EnsureSettles(ControllerServiceTask(cr));
  }

  // ---- The Deployment ----

  /** A second build of the whole specification. */
  lemma SecondBuild(spec: DeploymentSpec, b: CD.Build, p: CD.Orders, q: CD.Orders)
    requires CD.UpdateSpec(spec, b, p).Some? && CD.DistinctNames(b.fields) && CD.StableEnv(b)
    requires CD.ValidOrders(p, b.fields) && CD.ValidOrders(q, b.fields)
    ensures var once := CD.UpdateSpec(spec, b, p).value;
            var twice := CD.UpdateSpec(once, b, q);
            && twice.Some?
            && (twice.value == once <==>
                  || CD.HasPilot(spec.template.containers, b.fields)
                  || b.fields.pilot.resources == b.fields.controller.resources)
            && CD.HasPilot(once.template.containers, b.fields)
  {
    hide CD.Merge, CD.Volumes;
    CD.MergeStabilises(spec.template.containers, b, p, q, q);
    CD.MergeHasBoth(spec.template.containers, b, p);
  }

  /** Whether the Deployment found needs two builds to settle: it has no pilot yet, and the pilot would be
      appended with other resources than the next build gives it. */
  predicate NeedsTwo(found: Option<Obj>, b: CD.Build) {
    && found.Some? && found.value.Deployment?
    && !CD.HasPilot(found.value.deployment.template.containers, b.fields)
    && b.fields.pilot.resources != b.fields.controller.resources
  }

  /** The Deployment's task, and the one of a later run. */
  ghost predicate SameDeploy(t: Task, u: Task) {
    && Single(t) && Single(u) && t.DeployController? && u.DeployController?
    && t.probe == u.probe && t.owner == u.owner && t.meta == u.meta && t.build == u.build
    && CD.DistinctNames(t.build.fields) && CD.StableEnv(t.build)
    && CD.ValidOrders(t.first, t.build.fields) && CD.ValidOrders(t.second, t.build.fields)
    && CD.ValidOrders(u.first, t.build.fields) && CD.ValidOrders(u.second, t.build.fields)
  }

  /** After one outcome the next can complete, and changes something exactly when two builds are needed. */
  lemma SecondDeploy(t: Task, u: Task, found: Option<Obj>)
    requires SameDeploy(t, u) && Outcome(t, found).Some?
    ensures var once := Outcome(t, found);
            && Outcome(u, once).Some? && (Outcome(u, once) == once <==> !NeedsTwo(found, t.build))
            && !NeedsTwo(once, t.build)
  {
    hide CD.UpdateSpec, CD.HasPilot, CD.StableEnv, CD.ValidOrders, CD.DistinctNames;
    if found.None? {
      FreshSettles(t, u);
    } else {
      FoundSettles(t, u, found.value);
    }
  }

  lemma FreshSettles(t: Task, u: Task)
    requires SameDeploy(t, u) && Outcome(t, None).Some?
    ensures Outcome(u, Outcome(t, None)) == Outcome(t, None) && !NeedsTwo(Outcome(t, None), t.build)
  {
    hide CD.UpdateSpec, CD.HasPilot, CD.StableEnv, CD.ValidOrders, CD.DistinctNames;
    var b := t.build;
    var built := CD.UpdateSpec(EMPTY_SPEC, b, t.first).value;
    CD.FreshDeploymentIsSettled(b, t.first, t.second, u.first);
    SecondBuild(built, b, t.second, u.first);
  }

  lemma FoundSettles(t: Task, u: Task, f: Obj)
    requires SameDeploy(t, u) && Outcome(t, Some(f)).Some?
    ensures var once := Outcome(t, Some(f));
            && Outcome(u, once).Some? && (Outcome(u, once) == once <==> !NeedsTwo(Some(f), t.build))
            && !NeedsTwo(once, t.build)
  {
    hide CD.UpdateSpec, CD.HasPilot, CD.StableEnv, CD.ValidOrders, CD.DistinctNames;
    var b := t.build;
    var sp := CD.UpdateSpec(f.deployment, b, t.first);
    SecondBuild(f.deployment, b, t.first, u.first);
    CD.FastPathRefines(f.deployment, b, t.first, u.first);
    CD.PanicsForAnyOrder(f.deployment, b, t.first, t.second);
    if sp != Some(f.deployment) {
      SecondBuild(f.deployment, b, t.second, u.first);
      SecondBuild(f.deployment, b, t.second, u.second);
    }
  }

  // ---- The Deployment that is never found ----

  ghost predicate BuiltFresh(spec: DeploymentSpec, b: CD.Build) {
    exists o :: CD.ValidOrders(o, b.fields) && CD.UpdateSpec(EMPTY_SPEC, b, o) == Some(spec)
  }

  /** A create-or-update of a Deployment built from nothing, without the fast path. */
  ghost predicate Rebuilds(t: Task) {
    && t.Ensure? && t.init.Deployment? && t.mutation.MergeDeployment?
    && var b := t.mutation.build;
       && CD.DistinctNames(b.fields) && CD.StableEnv(b) && CD.ValidOrders(t.mutation.orders, b.fields)
       && BuiltFresh(t.init.deployment, b)
  }

  ghost predicate SameRebuild(t: Task, u: Task) {
    && Rebuilds(t) && Rebuilds(u) && t.init.meta == u.init.meta && t.init.owner == u.init.owner
    && t.mutation.build == u.mutation.build
  }

  /** The Deployment's tasks of two runs over one instance. */
  ghost predicate Pair(t: Task, u: Task) {
    SameDeploy(t, u) || SameRebuild(t, u)
  }

  function BuildOf(t: Task): CD.Build
    requires t.DeployController? || (t.Ensure? && t.mutation.MergeDeployment?)
  {
    if t.DeployController? then t.build else t.mutation.build
  }

  predicate BuildsWith(t: Task, b: CD.Build) {
    || (t.DeployController? && t.build == b)
    || (t.Ensure? && t.mutation.MergeDeployment? && t.mutation.build == b)
  }

  lemma FreshRebuildSettles(t: Task, u: Task)
    requires SameRebuild(t, u) && Outcome(t, None).Some?
    ensures Outcome(u, Outcome(t, None)) == Outcome(t, None) && !NeedsTwo(Outcome(t, None), BuildOf(t))
  {
    hide CD.UpdateSpec, CD.HasPilot, CD.StableEnv, CD.ValidOrders, CD.DistinctNames;
    var b := BuildOf(t);
    var o :| CD.ValidOrders(o, b.fields) && CD.UpdateSpec(EMPTY_SPEC, b, o) == Some(t.init.deployment);
    CD.FreshDeploymentIsSettled(b, o, t.mutation.orders, u.mutation.orders);
    SecondBuild(t.init.deployment, b, t.mutation.orders, u.mutation.orders);
  }

  lemma FoundRebuildSettles(t: Task, u: Task, f: Obj)
    requires SameRebuild(t, u) && Outcome(t, Some(f)).Some?
    ensures var once := Outcome(t, Some(f));
            && Outcome(u, once).Some? && (Outcome(u, once) == once <==> !NeedsTwo(Some(f), BuildOf(t)))
            && !NeedsTwo(once, BuildOf(t))
  {
    hide CD.UpdateSpec, CD.HasPilot, CD.StableEnv, CD.ValidOrders, CD.DistinctNames, BuiltFresh;
    SecondBuild(f.deployment, BuildOf(t), t.mutation.orders, u.mutation.orders);
  }

  /** After one outcome the next can complete, and changes something exactly when two builds are needed. */
  lemma SecondPair(t: Task, u: Task, found: Option<Obj>)
    requires Pair(t, u) && Outcome(t, found).Some?
    ensures var once := Outcome(t, found);
            && Outcome(u, once).Some? && (Outcome(u, once) == once <==> !NeedsTwo(found, BuildOf(t)))
            && !NeedsTwo(once, BuildOf(t)) && Kept(u) == Kept(t) && BuildOf(u) == BuildOf(t)
  {
    hide CD.UpdateSpec, CD.HasPilot, CD.StableEnv, CD.ValidOrders, CD.DistinctNames, BuiltFresh, EnsureOutcome,
         NeedsTwo;
    if SameDeploy(t, u) {
      SecondDeploy(t, u, found);
    } else if found.None? {
      FreshRebuildSettles(t, u);
      NothingNeedsTwo(BuildOf(t));
    } else {
      FoundRebuildSettles(t, u, found.value);
    }
  }

  lemma NothingNeedsTwo(b: CD.Build)
    ensures !NeedsTwo(None, b)
  {
  }

  // ---- The Deployment of two runs ----

  /** The controller's builds settle, whatever orders the runs range in. */
  ghost predicate TameBuilds(cr: CR, p: Choice, q: Choice)
    requires cr.spec.ControllerSpec?
  {
    var b := ControllerBuild(cr);
    && CD.DistinctNames(b.fields) && CD.StableEnv(b)
    && CD.ValidOrders(p.first, b.fields) && CD.ValidOrders(p.second, b.fields)
    && CD.ValidOrders(q.first, b.fields) && CD.ValidOrders(q.second, b.fields)
  }

  /** The Deployment can be built on what is there. */
  predicate CanBuild(cr: CR, c: Choice, s: Store)
    requires cr.spec.ControllerSpec?
  {
    var t := DeployTask(cr, c, s); Single(t) && Outcome(t, Object(s, DeploymentKey(cr, s))).Some?
  }

  /** In one store the two runs' tasks for the Deployment are a pair. */
  lemma DeployTasksPair(cr: CR, p: Choice, q: Choice, s: Store)
    requires cr.spec.ControllerSpec? && TameBuilds(cr, p, q) && Sound(s) && CanBuild(cr, p, s)
    ensures Pair(DeployTask(cr, p, s), DeployTask(cr, q, s)) && Pair(DeployTask(cr, q, s), DeployTask(cr, p, s))
    ensures Pair(DeployTask(cr, p, s), DeployTask(cr, p, s)) && Pair(DeployTask(cr, q, s), DeployTask(cr, q, s))
    ensures BuildsWith(DeployTask(cr, p, s), ControllerBuild(cr))
  {
    hide CD.UpdateSpec, CD.StableEnv, CD.ValidOrders, CD.DistinctNames, ControllerBuild;
    if Probe(cr) != Named(cr) && Probe(cr) !in s.objects {
      FreshTasksPair(cr, p, q, s);
    }
  }

  lemma FreshTasksPair(cr: CR, p: Choice, q: Choice, s: Store)
    requires cr.spec.ControllerSpec? && TameBuilds(cr, p, q) && Sound(s)
    requires Outcome(FreshTask(ControllerDeploymentTask(cr, p)), Object(s, Named(cr))).Some?
    ensures var t, u := FreshTask(ControllerDeploymentTask(cr, p)), FreshTask(ControllerDeploymentTask(cr, q));
            && SameRebuild(t, u) && SameRebuild(u, t) && SameRebuild(t, t) && SameRebuild(u, u)
            && BuildsWith(t, ControllerBuild(cr))
  {
    hide CD.UpdateSpec, CD.StableEnv, CD.ValidOrders, CD.DistinctNames, ControllerBuild;
    var b := ControllerBuild(cr);
    var d, e := ControllerDeploymentTask(cr, p), ControllerDeploymentTask(cr, q);
    assert Named(cr) in s.objects ==> KeyOf(s.objects[Named(cr)].obj) == Named(cr);
    UnbuildableFails(World(s, []), d);
    CD.PanicsForAnyOrder(EMPTY_SPEC, b, p.first, q.first);
    assert d.build == b && e.build == b;
    assert BuiltFresh(CD.UpdateSpec(EMPTY_SPEC, b, p.first).value, b);
    assert BuiltFresh(CD.UpdateSpec(EMPTY_SPEC, b, q.first).value, b);
  }
}
