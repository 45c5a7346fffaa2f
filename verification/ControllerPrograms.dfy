/** The tasks of a controller as they come out in a given store: where its Deployment is, and what its console
    shares with its children. */
module ControllerPrograms {
  import opened Kubernetes
  import opened ApiStore
  import opened Tasks
  import opened Runs
  import opened Outcomes
  import CD = ControllerDeployment
  import CS = ControllerService
  import CC = ConsoleChildren
  import ConfigMaps

  // ---- No two tasks of a controller share an object ----

  predicate DistinctManifests(c: Choice) {
    forall i, j | 0 <= i < j < |c.manifests| :: c.manifests[i].name != c.manifests[j].name
  }

  /** The order in which a controller's kinds of object come. */
  function Stage(k: Kind): nat {
    match k
    case DefinitionKind => 0
    case ServiceAccountKind => 1
    case ClusterRoleKind => 2
    case ClusterRoleBindingKind => 3
    case RoleKind => 4
    case RoleBindingKind => 5
    case ConfigMapKind => 6
    case DeploymentKind => 7
    case IngressClassKind => 8
    case ServiceKind => 9
    case _ => 10
  }

  /** Single tasks on distinct objects, none beyond the stage. */
  ghost predicate Staged(todo: seq<Task>, top: nat) {
    Outcomes.DistinctObjects(todo) && forall i :: 0 <= i < |todo| ==> Stage(Kept(todo[i]).kind) <= top
  }

  lemma StagedSnoc(todo: seq<Task>, top: nat, t: Task, next: nat)
    requires Staged(todo, top) && Single(t) && top < Stage(Kept(t).kind) <= next
    ensures Staged(todo + [t], next)
  {
    hide Single, Kept;
    assert forall i :: 0 <= i < |todo| ==> (todo + [t])[i] == todo[i];
  }

  lemma DefinitionsStaged(c: Choice)
    requires DistinctManifests(c)
    ensures Staged(DefinitionTasks(c), 0)
  {
    var todo := DefinitionTasks(c);
    assert forall i :: 0 <= i < |todo| ==> todo[i] == DefinitionTask(c.manifests[i]);
  }

  lemma RbacStages(cr: CR)
    ensures var r := RbacTasks(cr);
            r == [] || (&& |r| == 4 && (forall i :: 0 <= i < 4 ==> Single(r[i]) && r[i].Ensure?)
                        && Kept(r[0]).kind == ClusterRoleKind && Kept(r[1]).kind == ClusterRoleBindingKind
                        && Kept(r[2]).kind == RoleKind && Kept(r[3]).kind == RoleBindingKind)
  {
    hide Rules, ClusterRoleRef, NamespacedRoleRef, InitialRoleRef, OwnSubject, BindingName, ClusterRoleName,
         RoleBindingName, RoleName;
  }

  lemma RbacStaged(todo: seq<Task>, r: seq<Task>)
    requires Staged(todo, 1)
    requires r == [] || (&& |r| == 4 && (forall i :: 0 <= i < 4 ==> Single(r[i]))
                         && Kept(r[0]).kind == ClusterRoleKind && Kept(r[1]).kind == ClusterRoleBindingKind
                         && Kept(r[2]).kind == RoleKind && Kept(r[3]).kind == RoleBindingKind)
    ensures Staged(todo + r, 5)
  {
    hide Single, Kept;
    if r == [] {
      assert todo + r == todo;
    } else {
      StagedSnoc(todo, 1, r[0], 2);
      StagedSnoc(todo + [r[0]], 2, r[1], 3);
      StagedSnoc(todo + [r[0]] + [r[1]], 3, r[2], 4);
      StagedSnoc(todo + [r[0]] + [r[1]] + [r[2]], 4, r[3], 5);
      assert todo + r == todo + [r[0]] + [r[1]] + [r[2]] + [r[3]];
    }
  }

  lemma TailStages(cr: CR)
    requires cr.spec.ControllerSpec?
    ensures Single(ConfigTask(cr)) && Kept(ConfigTask(cr)).kind == ConfigMapKind
    ensures Single(IngressTask(cr)) && Kept(IngressTask(cr)).kind == IngressClassKind
    ensures Single(ControllerServiceTask(cr)) && Kept(ControllerServiceTask(cr)).kind == ServiceKind
  {
  }

  /** The tasks before the Deployment's. */
  function Front(cr: CR, c: Choice): seq<Task> {
    DefinitionTasks(c) + (if AccountOn(cr) then [CreateOnly(AccountObj(cr))] else []) + RbacTasks(cr) + [ConfigTask(cr)]
  }

  lemma FrontStaged(cr: CR, c: Choice)
    requires cr.spec.ControllerSpec? && DistinctManifests(c)
    ensures Staged(Front(cr, c), 6)
  {
    hide RbacTasks, ConfigTask, DefinitionTasks;
    var d, a := DefinitionTasks(c), if AccountOn(cr) then [CreateOnly(AccountObj(cr))] else [];
    DefinitionsStaged(c);
    if AccountOn(cr) {
      StagedSnoc(d, 0, CreateOnly(AccountObj(cr)), 1);
    } else {
      assert d + a == d;
    }
    hide Single, Kept;
    RbacStages(cr);
    RbacStaged(d + a, RbacTasks(cr));
    TailStages(cr);
    StagedSnoc(d + a + RbacTasks(cr), 5, ConfigTask(cr), 6);
  }

  lemma Pieces(f: seq<Task>, a: Task, b: Task, c: Task, d: Task)
    ensures f + [a, b, c, d] == f + [a] + [b] + [c] + [d]
  {
  }

  // ---- The Deployment under its two names ----

  /** Where the Deployment is looked up: under the name of the controller's container. */
  function Probe(cr: CR): Key
    requires cr.spec.ControllerSpec?
  {
    Key(DeploymentKind, cr.meta.ns, cr.spec.controller.controller.name)
  }

  /** Where it is created: under the name of the instance. */
  function Named(cr: CR): Key {
    Key(DeploymentKind, cr.meta.ns, cr.meta.name)
  }

  /** Where a reconcile keeps it. */
  function DeploymentKey(cr: CR, s: Store): Key
    requires cr.spec.ControllerSpec?
  {
    if Probe(cr) in s.objects then Probe(cr) else Named(cr)
  }

  /** A task that reads and then fails, as building a Deployment without resources does. */
  function Unbuildable(t: Task): Task
    requires t.DeployController?
  {
    Ensure(Deployment(t.meta, Some(t.owner), EMPTY_SPEC), SetRules(Literal("")))
  }

  /** What is left of the Deployment's task when the lookup has found nothing. */
  function FreshTask(t: Task): Task
    requires t.DeployController?
  {
    match CD.UpdateSpec(EMPTY_SPEC, t.build, t.first)
    case None => Unbuildable(t)
    case Some(sp) => Ensure(Deployment(t.meta, Some(t.owner), sp), MergeDeployment(t.build, t.second))
  }

  /** The Deployment's task on one object: if the names differ, either on the Deployment that happens to have the
      container's name, or on the one with the instance's name, which the lookup never finds. */
  function DeployTask(cr: CR, c: Choice, s: Store): Task
    requires cr.spec.ControllerSpec?
  {
    var t := ControllerDeploymentTask(cr, c);
    if Probe(cr) == Named(cr) then t
    else if Probe(cr) in s.objects then t.(meta := t.meta.(name := Probe(cr).name))
    else FreshTask(t)
  }

  lemma DeployTaskKept(cr: CR, c: Choice, s: Store)
    requires cr.spec.ControllerSpec?
    ensures Single(DeployTask(cr, c, s)) && Kept(DeployTask(cr, c, s)) == DeploymentKey(cr, s)
  {
    hide CD.UpdateSpec;
  }

  lemma DeployTaskRuns(w: World, cr: CR, c: Choice)
    requires Sound(w.store) && w.fates == [] && cr.spec.ControllerSpec?
    ensures RunTask(w, ControllerDeploymentTask(cr, c)) == RunTask(w, DeployTask(cr, c, w.store))
  {
    hide CD.UpdateSpec, Apply, Plan;
    var t, s := ControllerDeploymentTask(cr, c), w.store;
    assert Tick(w).(store := s) == w;
    if Probe(cr) in s.objects {
      assert KeyOf(s.objects[Probe(cr)].obj) == Probe(cr);
      assert TaskCall(s, DeployTask(cr, c, s)) == TaskCall(s, t);
    } else {
      assert TaskCall(s, t) == (s, FreshDeployment(t));
      if CD.UpdateSpec(EMPTY_SPEC, t.build, t.first).None? {
        UnbuildableFails(w, t);
      }
    }
  }

  lemma UnbuildableFails(w: World, t: Task)
    requires w.fates == [] && t.DeployController? && Sound(w.store)
    ensures RunTask(w, Unbuildable(t)) == (w, false)
    ensures forall x: Option<Obj> :: (x.Some? ==> x.value.Deployment?) ==> Outcome(Unbuildable(t), x).None?
  {
    var s, k := w.store, Key(DeploymentKind, t.meta.ns, t.meta.name);
    assert k in s.objects ==> KeyOf(s.objects[k].obj) == k;
    assert Plan(s, Unbuildable(t).init, Unbuildable(t).mutation) == Abort;
    assert Tick(w).(store := s) == w;
  }

  /** The program with the Deployment's task as it comes out in `s`. */
  function Resolved(cr: CR, c: Choice, s: Store): seq<Task>
    requires cr.spec.ControllerSpec?
  {
    Front(cr, c) + [DeployTask(cr, c, s)] + [IngressTask(cr)] + [ControllerServiceTask(cr)]
  }

  lemma ProgramParts(cr: CR, c: Choice)
    requires cr.spec.ControllerSpec?
    ensures Program(cr, c)
            == Front(cr, c) + [ControllerDeploymentTask(cr, c)] + [IngressTask(cr)] + [ControllerServiceTask(cr)]
  {
    hide RbacTasks, ConfigTask, DefinitionTasks, ControllerDeploymentTask, IngressTask, ControllerServiceTask;
    Pieces(DefinitionTasks(c) + (if AccountOn(cr) then [CreateOnly(AccountObj(cr))] else []) + RbacTasks(cr),
           ConfigTask(cr), ControllerDeploymentTask(cr, c), IngressTask(cr), ControllerServiceTask(cr));
  }

  lemma ResolvedIsDistinct(cr: CR, c: Choice, s: Store)
    requires cr.spec.ControllerSpec? && DistinctManifests(c)
    ensures Staged(Resolved(cr, c, s), 9)
  {
    hide Front, DeployTask, IngressTask, ControllerServiceTask, Single, Kept, ConfigTask;
    FrontStaged(cr, c);
    TailStages(cr);
    DeployTaskKept(cr, c, s);
    StagedSnoc(Front(cr, c), 6, DeployTask(cr, c, s), 7);
    StagedSnoc(Front(cr, c) + [DeployTask(cr, c, s)], 7, IngressTask(cr), 8);
    StagedSnoc(Front(cr, c) + [DeployTask(cr, c, s)] + [IngressTask(cr)], 8, ControllerServiceTask(cr), 9);
  }

  /** Without interference a controller's program runs as the resolved one. */
  lemma ResolvedRuns(w: World, cr: CR, c: Choice)
    requires Sound(w.store) && w.fates == [] && cr.spec.ControllerSpec? && DistinctManifests(c)
    ensures RunTasks(w, Program(cr, c)) == RunTasks(w, Resolved(cr, c, w.store))
  {
    hide Front, DeployTask, IngressTask, ControllerServiceTask, ControllerDeploymentTask, Single, Kept, RunTask,
         RunTasks, Program;
    var f, d, d' := Front(cr, c), ControllerDeploymentTask(cr, c), DeployTask(cr, c, w.store);
    var i, v := IngressTask(cr), ControllerServiceTask(cr);
    ProgramParts(cr, c);
    Regroup(f, d, i, v);
    Regroup(f, d', i, v);
    RunTasksAppend(w, f, [d] + [i] + [v]);
    RunTasksAppend(w, f, [d'] + [i] + [v]);
    FrontStaged(cr, c);
    FrontLeavesDeployments(cr, c, Probe(cr));
    SoloFrame(w, f, Probe(cr));
    var w1 := RunTasks(w, f).0;
    SameResolution(cr, c, w.store, w1.store);
    DeployTaskRuns(w1, cr, c);
    SameHead(w1, d, d', [i] + [v]);
    assert [d] + [i] + [v] == [d] + ([i] + [v]) && [d'] + [i] + [v] == [d'] + ([i] + [v]);
  }

  lemma Regroup(f: seq<Task>, d: Task, i: Task, v: Task)
    ensures f + [d] + [i] + [v] == f + ([d] + [i] + [v])
  {
  }

  lemma SameHead(w: World, d: Task, e: Task, rest: seq<Task>)
    requires RunTask(w, d) == RunTask(w, e)
    ensures RunTasks(w, [d] + rest) == RunTasks(w, [e] + rest)
  {
    hide RunTask;
    assert ([d] + rest)[1..] == rest && ([e] + rest)[1..] == rest;
  }

  lemma FrontLeavesDeployments(cr: CR, c: Choice, k: Key)
    requires cr.spec.ControllerSpec? && Staged(Front(cr, c), 6) && k.kind == DeploymentKind
    ensures Untouched(Front(cr, c), k)
  {
    hide Front, Single, Kept;
  }

  /** The Deployment's task only depends on whether the lookup finds something. */
  lemma SameResolution(cr: CR, c: Choice, s: Store, s': Store)
    requires cr.spec.ControllerSpec? && Read(s, Probe(cr)) == Read(s', Probe(cr))
    ensures DeployTask(cr, c, s) == DeployTask(cr, c, s') && DeploymentKey(cr, s) == DeploymentKey(cr, s')
  {
    hide FreshTask, ControllerDeploymentTask;
  }

  // ---- The children do not depend on the marks ----

  /** What no reconcile changes in an instance, as far as its children are concerned. */
  lemma SameChildren(cr: CR, cr': CR, c: Choice)
    requires cr' == cr.(finalizers := cr'.finalizers, deployed := cr'.deployed)
    ensures Program(cr', c) == Program(cr, c)
  {
    hide RbacTasks, ConfigTask, GatewayDeploymentTask, GatewayServiceTask, ControllerDeploymentTask, IngressTask,
         ControllerServiceTask, DefinitionTasks, AccountObj;
    SameRbac(cr, cr');
    if cr.spec.GatewaySpec? {
      SameGatewayTasks(cr, cr', c);
    } else {
      SameControllerTasks(cr, cr', c);
    }
  }

  lemma SameGatewayTasks(cr: CR, cr': CR, c: Choice)
    requires cr.spec.GatewaySpec? && cr' == cr.(finalizers := cr'.finalizers, deployed := cr'.deployed)
    ensures AccountObj(cr') == AccountObj(cr) && ConfigTask(cr') == ConfigTask(cr)
    ensures GatewayDeploymentTask(cr', c) == GatewayDeploymentTask(cr, c)
            && GatewayServiceTask(cr') == GatewayServiceTask(cr)
  {
    hide ConfigMaps.Data, ConfigMaps.SettledData;
  }

  lemma SameControllerTasks(cr: CR, cr': CR, c: Choice)
    requires cr.spec.ControllerSpec? && cr' == cr.(finalizers := cr'.finalizers, deployed := cr'.deployed)
    ensures AccountObj(cr') == AccountObj(cr) && ConfigTask(cr') == ConfigTask(cr)
            && IngressTask(cr') == IngressTask(cr)
    ensures ControllerDeploymentTask(cr', c) == ControllerDeploymentTask(cr, c)
    ensures ControllerServiceTask(cr') == ControllerServiceTask(cr)
  {
    hide ConfigMaps.Data, ConfigMaps.SettledData, CS.Update;
  }

  lemma SameRbac(cr: CR, cr': CR)
    requires cr' == cr.(finalizers := cr'.finalizers, deployed := cr'.deployed)
    ensures RbacTasks(cr') == RbacTasks(cr)
  {
  }

  /** Nor does how they come out. */
  lemma SameResolved(cr: CR, cr': CR, c: Choice, s: Store, s': Store)
    requires cr.spec.ControllerSpec? && cr' == cr.(finalizers := cr'.finalizers, deployed := cr'.deployed)
    requires Read(s', Probe(cr)) == Read(s, Probe(cr))
    ensures Resolved(cr', c, s') == Resolved(cr, c, s) && DeploymentKey(cr', s') == DeploymentKey(cr, s)
  {
    hide RbacTasks, ConfigTask, ControllerDeploymentTask, IngressTask, ControllerServiceTask, DefinitionTasks,
         AccountObj, FreshTask;
    SameRbac(cr, cr');
    SameControllerTasks(cr, cr', c);
  }

  // ---- The console's objects ----

  /** The keys of the console's objects. */
  predicate ConsoleKey(cr: CR, k: Key)
    requires HasConsole(cr)
  {
    || k == Key(ClusterRoleKind, "", ConsoleName(cr) + "-" + cr.meta.ns)
    || k == Key(ClusterRoleBindingKind, "", ConsoleBindingName(cr))
    || (&& k.ns == cr.meta.ns && k.name == ConsoleName(cr)
        && k.kind in {RoleKind, RoleBindingKind, ServiceAccountKind, ConfigMapKind, DeploymentKind, ServiceKind})
  }

  lemma ConsoleRbacKeys(cr: CR)
    requires HasConsole(cr)
    ensures forall t :: t in ConsoleRbacTasks(cr) ==> Single(t) && ConsoleKey(cr, Kept(t))
  {
  }

  lemma ConsoleOtherKeys(cr: CR, c: Choice)
    requires HasConsole(cr)
    ensures var others := [ CreateOnly(ConsoleAccountObj(cr)), ConsoleConfigTask(cr), ConsoleDeploymentTask(cr, c),
                            ConsoleServiceTask(cr) ];
            forall t :: t in others ==> Single(t) && ConsoleKey(cr, Kept(t))
  {
    hide CC.InitialConfig, CC.UpdateSpec, ConsoleBuild, ConsoleParams;
  }

  lemma ConsoleKeys(cr: CR, c: Choice)
    requires HasConsole(cr)
    ensures var todo := ConsoleProgram(cr, c);
            forall i :: 0 <= i < |todo| ==> Single(todo[i]) && ConsoleKey(cr, Kept(todo[i]))
  {
    hide ConsoleRbacTasks, ConsoleAccountObj, ConsoleConfigTask, ConsoleDeploymentTask, ConsoleServiceTask, Single,
         Kept, ConsoleKey;
    ConsoleRbacKeys(cr);
    ConsoleOtherKeys(cr, c);
    var tail := [ConsoleConfigTask(cr), ConsoleDeploymentTask(cr, c), ConsoleServiceTask(cr)];
    assert forall t :: t in tail ==> Single(t) && ConsoleKey(cr, Kept(t));
    assert forall t :: t in ConsoleProgram(cr, c) ==> Single(t) && ConsoleKey(cr, Kept(t));
  }

  /** The keys of the children's objects. */
  predicate ChildKey(cr: CR, k: Key)
    requires cr.spec.ControllerSpec?
  {
    || k.kind == DefinitionKind || k.kind == IngressClassKind
    || (AccountOn(cr) && k == KeyOf(AccountObj(cr)))
    || (RbacOn(cr) && k in { Key(ClusterRoleKind, "", ClusterRoleName(cr)), BindingKey(cr),
                             Key(RoleKind, cr.meta.ns, RoleName(cr)),
                             Key(RoleBindingKind, cr.meta.ns, AccountName(cr)) })
    || k == Key(ConfigMapKind, cr.meta.ns, "cm-" + cr.meta.name)
    || k == Probe(cr) || k == Named(cr) || k == Key(ServiceKind, cr.meta.ns, cr.meta.name)
  }

  lemma ChildKeys(cr: CR, c: Choice, s: Store)
    requires cr.spec.ControllerSpec?
    ensures var todo := Resolved(cr, c, s);
            forall i :: 0 <= i < |todo| ==> Single(todo[i]) && ChildKey(cr, Kept(todo[i]))
  {
    hide DeployTask, RbacTasks, DefinitionTasks, ConfigTask, IngressTask, ControllerServiceTask, ChildKey, Single,
         Kept;
    DeployTaskKept(cr, c, s);
    DeploymentIsChild(cr, s);
    DefinitionKeys(cr, c);
    AccountKey(cr);
    RbacKeys(cr);
    TailKeys(cr);
  }

  lemma DeploymentIsChild(cr: CR, s: Store)
    requires cr.spec.ControllerSpec?
    ensures ChildKey(cr, DeploymentKey(cr, s))
  {
  }

  lemma DefinitionKeys(cr: CR, c: Choice)
    requires cr.spec.ControllerSpec?
    ensures var d := DefinitionTasks(c); forall i :: 0 <= i < |d| ==> Single(d[i]) && ChildKey(cr, Kept(d[i]))
  {
    forall i | 0 <= i < |c.manifests|
      ensures Single(DefinitionTasks(c)[i]) && ChildKey(cr, Kept(DefinitionTasks(c)[i]))
    {
      assert DefinitionTasks(c)[i] == DefinitionTask(c.manifests[i]);
    }
  }

  lemma AccountKey(cr: CR)
    requires cr.spec.ControllerSpec?
    ensures AccountOn(cr) ==> var t := CreateOnly(AccountObj(cr)); Single(t) && ChildKey(cr, Kept(t))
  {
  }

  lemma RbacKeys(cr: CR)
    requires cr.spec.ControllerSpec?
    ensures var r := RbacTasks(cr); forall i :: 0 <= i < |r| ==> Single(r[i]) && ChildKey(cr, Kept(r[i]))
  {
  }

  lemma TailKeys(cr: CR)
    requires cr.spec.ControllerSpec?
    ensures Single(ConfigTask(cr)) && ChildKey(cr, Kept(ConfigTask(cr)))
    ensures Single(IngressTask(cr)) && ChildKey(cr, Kept(IngressTask(cr)))
    ensures Single(ControllerServiceTask(cr)) && ChildKey(cr, Kept(ControllerServiceTask(cr)))
  {
    hide ConfigMaps.Data, ConfigMaps.SettledData, CS.Update;
  }

  /** No object of the console is one of the children's. */
  predicate ConsoleApart(cr: CR)
    requires cr.spec.ControllerSpec?
  {
    HasConsole(cr) ==>
      && ConsoleName(cr) !in {cr.meta.name, cr.spec.controller.controller.name, "cm-" + cr.meta.name}
      && (AccountOn(cr) ==> ConsoleName(cr) != AccountName(cr))
      && (RbacOn(cr) ==>
            ConsoleName(cr) != CONTROLLER_ROLE && ConsoleName(cr) + "-" + cr.meta.ns != ClusterRoleName(cr))
  }

  lemma BindingsTell(ns: string, a: string, b: string)
    ensures ns + "-" + a == ns + "-" + b ==> a == b
  {
    var x, y := ns + "-" + a, ns + "-" + b;
    assert x[|ns| + 1..] == a && y[|ns| + 1..] == b;
  }

  lemma SameApart(cr: CR, cr': CR)
    requires cr.spec.ControllerSpec? && cr' == cr.(finalizers := cr'.finalizers, deployed := cr'.deployed)
    ensures ConsoleApart(cr') == ConsoleApart(cr) && HasConsole(cr') == HasConsole(cr) && Probe(cr') == Probe(cr)
  {
  }

  lemma ConsoleIsApart(cr: CR, k: Key)
    requires HasConsole(cr) && ConsoleApart(cr) && ChildKey(cr, k)
    ensures !ConsoleKey(cr, k)
  {
    BindingsTell(cr.meta.ns, ConsoleName(cr), AccountName(cr));
    hide AccountName;
  }

  /** So the console's tasks leave the children alone. */
  lemma ConsoleLeaves(cr: CR, c: Choice, k: Key)
    requires cr.spec.ControllerSpec? && ((ConsoleApart(cr) && ChildKey(cr, k)) || Stage(k.kind) == 10)
    ensures Untouched(ConsoleProgram(cr, c), k)
  {
    if HasConsole(cr) {
      hide ConsoleProgram, Single, Kept, ChildKey;
      ConsoleKeys(cr, c);
      if Stage(k.kind) != 10 {
        ConsoleIsApart(cr, k);
      }
    }
  }
}
