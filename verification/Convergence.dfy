/** What whole reconciles of one gateway leave behind, however many of them were cut off. */
module Convergence {
  import opened Kubernetes
  import opened ApiStore
  import opened Tasks
  import opened Runs
  import ConfigMaps
  import GatewayChildren

  // ---- Tasks as functions of the object they manage ----

  /** The kinds of task a gateway runs. None of its objects is built under another key than it is kept. */
  predicate Plain(t: Task) {
    match t
    case CreateOnly(o) => !o.CustomResource? && Scoped(KeyOf(o)) == KeyOf(o)
    case Ensure(init, _) => !init.CustomResource? && Scoped(KeyOf(init)) == KeyOf(init)
    case Crash => true
    case _ => false
  }

  function Managed(t: Task): Key
    requires Plain(t) && !t.Crash?
  {
    match t case CreateOnly(o) => KeyOf(o) case Ensure(init, _) => KeyOf(init)
  }

  /** The object after the task has completed; None when it cannot complete. */
  function Result(t: Task, current: Option<Obj>): Option<Obj>
    requires Plain(t)
  {
    match t
    case CreateOnly(o) => if current.Some? then current else Some(o)
    case Ensure(init, m) => Apply(m, if current.Some? then current.value else init)
    case Crash => None
  }

  /** What one task does to the world, whatever becomes of its calls. */
  ghost predicate TaskEffects(w: World, t: Task, w': World, ok: bool)
    requires Plain(t) && !t.Crash?
  {
    var before, after := Object(w.store, Managed(t)), Object(w'.store, Managed(t));
    var result := Result(t, before);
    && Sound(w'.store)
    && (forall k :: k != Managed(t) ==> Read(w'.store, k) == Read(w.store, k))
    && Stepped(t, before, after)
    && (ok ==> result.Some? && after == result)
    && (w.fates == [] ==> w'.fates == [] && (ok <==> result.Some?))
    && (before.Some? && result == before ==> w'.store == w.store)
  }

  lemma TaskEffect(w: World, t: Task)
    requires Sound(w.store) && Plain(t) && !t.Crash?
    ensures TaskEffects(w, t, RunTask(w, t).0, RunTask(w, t).1)
  {
    if t.CreateOnly? {
      CreateOnlyEffect(w, t);
    } else {
      EnsureEffect(w, t);
    }
  }

  lemma CreateOnlyEffect(w: World, t: Task)
    requires Sound(w.store) && Plain(t) && t.CreateOnly?
    ensures TaskEffects(w, t, RunTask(w, t).0, RunTask(w, t).1)
  {
    CreateEffect(w.store, t.obj);
    var s' := TaskCall(w.store, t).0;
    assert forall k :: k != Managed(t) ==> Read(s', k) == Read(w.store, k);
  }

  /** One call to read, and one to write unless nothing is to be written. */
  lemma EnsureEffect(w: World, t: Task)
    requires Sound(w.store) && Plain(t) && t.Ensure?
    ensures TaskEffects(w, t, RunTask(w, t).0, RunTask(w, t).1)
  {
    hide Apply;
    var s, plan := w.store, Plan(w.store, t.init, t.mutation);
    ApplyKeepsKey(t.mutation, t.init);
    if Managed(t) in s.objects {
      ApplyKeepsKey(t.mutation, s.objects[Managed(t)].obj);
    }
    assert Tick(w).(store := s) == Tick(w);
    if !Faulty(w) && plan.Commit? {
      assert RunTask(w, t) == RunTask(Tick(w), FinishWrite(plan.write));
      WriteEffect(Tick(w), plan.write);
      PlannedWrite(s, t);
    }
  }

  /** What a planned write does if it is carried out. */
  lemma PlannedWrite(s: Store, t: Task)
    requires Sound(s) && Plain(t) && t.Ensure? && Plan(s, t.init, t.mutation).Commit?
    ensures var r := Perform(s, Plan(s, t.init, t.mutation).write);
            && r.Ok? && Sound(r.value)
            && (forall k :: k != Managed(t) ==> Read(r.value, k) == Read(s, k))
            && Object(r.value, Managed(t)) == Result(t, Object(s, Managed(t)))
            && Result(t, Object(s, Managed(t))) != Object(s, Managed(t))
  {
    hide Apply, Perform;
    ApplyKeepsKey(t.mutation, if Managed(t) in s.objects then s.objects[Managed(t)].obj else t.init);
    CommitStores(s, t.init, t.mutation);
  }

  lemma WriteEffect(w: World, write: Write)
    ensures RunTask(w, FinishWrite(write)) == RunWrite(w, Perform(w.store, write))
  {
  }

  ghost predicate DistinctTasks(todo: seq<Task>) {
    && (forall i :: 0 <= i < |todo| ==> Plain(todo[i]))
    && (forall i, j :: 0 <= i < j < |todo| && !todo[i].Crash? && !todo[j].Crash? ==>
          Managed(todo[i]) != Managed(todo[j]))
  }

  /** `k` is managed by none of the tasks. */
  ghost predicate Unmanaged(todo: seq<Task>, k: Key)
    requires DistinctTasks(todo)
  {
    forall i :: 0 <= i < |todo| && !todo[i].Crash? ==> Managed(todo[i]) != k
  }

  /** The object is as before or as the task wants it. */
  predicate Stepped(t: Task, before: Option<Obj>, after: Option<Obj>)
    requires Plain(t)
  {
    after == before || (Result(t, before).Some? && after == Result(t, before))
  }

  /** Every task's object is as before or as the task wants it. */
  ghost predicate Between(todo: seq<Task>, s: Store, s': Store)
    requires DistinctTasks(todo)
  {
    forall i :: 0 <= i < |todo| && !todo[i].Crash? ==>
      Stepped(todo[i], Object(s, Managed(todo[i])), Object(s', Managed(todo[i])))
  }

  /** Every task can complete, and its object is as it wants it. */
  ghost predicate Completed(todo: seq<Task>, s: Store, s': Store)
    requires DistinctTasks(todo)
  {
    forall i :: 0 <= i < |todo| ==>
      && !todo[i].Crash?
      && Result(todo[i], Object(s, Managed(todo[i]))).Some?
      && Object(s', Managed(todo[i])) == Result(todo[i], Object(s, Managed(todo[i])))
  }

  /** No task has anything to complain about. */
  ghost predicate Completable(todo: seq<Task>, s: Store)
    requires DistinctTasks(todo)
  {
    forall i :: 0 <= i < |todo| ==> !todo[i].Crash? && Result(todo[i], Object(s, Managed(todo[i]))).Some?
  }

  /** Every task's object is there and as wanted. */
  ghost predicate AtRest(todo: seq<Task>, s: Store)
    requires DistinctTasks(todo)
  {
    forall i :: 0 <= i < |todo| ==>
      && !todo[i].Crash?
      && Object(s, Managed(todo[i])).Some?
      && Result(todo[i], Object(s, Managed(todo[i]))) == Object(s, Managed(todo[i]))
  }

  /** The effect of a task list, as one predicate. */
  ghost predicate Effect(todo: seq<Task>, w: World, w': World, ok: bool)
    requires DistinctTasks(todo)
  {
    && Sound(w'.store)
    && (forall k :: Unmanaged(todo, k) ==> Read(w'.store, k) == Read(w.store, k))
    && Between(todo, w.store, w'.store)
    && (ok ==> Completed(todo, w.store, w'.store))
    && (w.fates == [] ==> w'.fates == [] && (ok <==> Completable(todo, w.store)))
    && (AtRest(todo, w.store) ==> w'.store == w.store)
  }

  lemma {:induction false} TasksEffect(w: World, todo: seq<Task>)
    requires Sound(w.store) && DistinctTasks(todo)
    ensures var (w', ok) := RunTasks(w, todo); Effect(todo, w, w', ok)
    decreases |todo|
  {
    if todo != [] && !todo[0].Crash? {
      var rest := todo[1..];
      var (w1, ok) := RunTask(w, todo[0]);
      TaskEffect(w, todo[0]);
      HeadKept(todo, w, w1);
      if ok {
        TasksEffect(w1, rest);
        var (w', ok') := RunTasks(w1, rest);
        HeadThenRest(todo, w, w1, w', ok');
      } else {
        HeadOnly(todo, w, w1);
      }
    }
  }

  /** `s1` differs from `s` at most in the object of the first task. */
  ghost predicate HeadStep(todo: seq<Task>, s: Store, s1: Store)
    requires DistinctTasks(todo) && todo != [] && !todo[0].Crash?
  {
    && (forall k :: k != Managed(todo[0]) ==> Read(s1, k) == Read(s, k))
    && Stepped(todo[0], Object(s, Managed(todo[0])), Object(s1, Managed(todo[0])))
    && (Object(s, Managed(todo[0])).Some?
        && Result(todo[0], Object(s, Managed(todo[0]))) == Object(s, Managed(todo[0])) ==>
          s1 == s)
  }

  lemma HeadKept(todo: seq<Task>, w: World, w1: World)
    requires DistinctTasks(todo) && todo != [] && !todo[0].Crash? && HeadStep(todo, w.store, w1.store)
    ensures DistinctTasks(todo[1..])
    ensures forall i :: 0 < i < |todo| && !todo[i].Crash? ==>
        Object(w1.store, Managed(todo[i])) == Object(w.store, Managed(todo[i]))
  {
    forall i | 0 < i < |todo| && !todo[i].Crash?
      ensures Object(w1.store, Managed(todo[i])) == Object(w.store, Managed(todo[i]))
    {
      assert Read(w1.store, Managed(todo[i])) == Read(w.store, Managed(todo[i]));
    }
  }

  lemma HeadOnly(todo: seq<Task>, w: World, w1: World)
    requires DistinctTasks(todo) && todo != [] && !todo[0].Crash? && HeadStep(todo, w.store, w1.store)
        && Sound(w1.store)
    requires forall i :: 0 < i < |todo| && !todo[i].Crash? ==>
        Object(w1.store, Managed(todo[i])) == Object(w.store, Managed(todo[i]))
    requires w.fates == [] ==> w1.fates == [] && Result(todo[0], Object(w.store, Managed(todo[0]))).None?
    ensures Effect(todo, w, w1, false)
  {
  }

  lemma HeadThenRest(todo: seq<Task>, w: World, w1: World, w': World, ok: bool)
    requires DistinctTasks(todo) && todo != [] && !todo[0].Crash? && HeadStep(todo, w.store, w1.store)
    requires forall i :: 0 < i < |todo| && !todo[i].Crash? ==>
        Object(w1.store, Managed(todo[i])) == Object(w.store, Managed(todo[i]))
    requires Result(todo[0], Object(w.store, Managed(todo[0]))).Some?
             && Object(w1.store, Managed(todo[0])) == Result(todo[0], Object(w.store, Managed(todo[0])))
    requires w.fates == [] ==> w1.fates == []
    requires DistinctTasks(todo[1..]) && Effect(todo[1..], w1, w', ok)
    ensures Effect(todo, w, w', ok)
  {
    var rest := todo[1..];
    assert forall i :: 0 < i < |todo| ==> todo[i] == rest[i - 1];
    assert Unmanaged(rest, Managed(todo[0]));
    assert Read(w'.store, Managed(todo[0])) == Read(w1.store, Managed(todo[0]));
    forall k | Unmanaged(todo, k) ensures Read(w'.store, k) == Read(w.store, k) {
      assert Unmanaged(rest, k) && k != Managed(todo[0]);
    }
    CompletableTail(todo, w.store, w1.store);
    AtRestTail(todo, w.store, w1.store);
    forall i | 0 <= i < |todo| && !todo[i].Crash?
      ensures Stepped(todo[i], Object(w.store, Managed(todo[i])), Object(w'.store, Managed(todo[i])))
    {
      if i > 0 {
        assert todo[i] == rest[i - 1];
      }
    }
    if ok {
      forall i | 0 <= i < |todo| ensures !todo[i].Crash? && Result(todo[i], Object(w.store, Managed(todo[i]))).Some?
          && Object(w'.store, Managed(todo[i])) == Result(todo[i], Object(w.store, Managed(todo[i])))
      {
        if i > 0 {
          assert todo[i] == rest[i - 1];
        }
      }
    }
  }

  lemma CompletableTail(todo: seq<Task>, s: Store, s1: Store)
    requires todo != [] && DistinctTasks(todo) && DistinctTasks(todo[1..]) && !todo[0].Crash?
    requires Result(todo[0], Object(s, Managed(todo[0]))).Some?
    requires forall i :: 0 < i < |todo| && !todo[i].Crash? ==>
        Object(s1, Managed(todo[i])) == Object(s, Managed(todo[i]))
    ensures Completable(todo, s) <==> Completable(todo[1..], s1)
  {
    var rest := todo[1..];
    assert forall i :: 0 < i < |todo| ==> todo[i] == rest[i - 1];
    if Completable(todo, s) {
      assert forall i :: 0 <= i < |rest| ==> rest[i] == todo[i + 1];
    }
  }

  lemma AtRestTail(todo: seq<Task>, s: Store, s1: Store)
    requires todo != [] && DistinctTasks(todo) && DistinctTasks(todo[1..]) && !todo[0].Crash?
    requires forall i :: 0 < i < |todo| && !todo[i].Crash? ==>
        Object(s1, Managed(todo[i])) == Object(s, Managed(todo[i]))
    ensures AtRest(todo, s) ==> AtRest(todo[1..], s1)
  {
    var rest := todo[1..];
    assert forall i :: 0 <= i < |rest| ==> rest[i] == todo[i + 1];
  }

  // ---- The gateway's program ----

  /** The instance without what a reconcile writes into it. */
  function Essence(cr: CR): CR {
    cr.(finalizers := {}, deployed := false)
  }

  /** The children do not depend on finalizers or status. */
  lemma ProgramOfEssence(cr: CR, c: Choice)
    requires cr.spec.GatewaySpec?
    ensures Program(Essence(cr), c) == Program(cr, c)
  {
    var e := Essence(cr);
    assert RbacTasks(e) == RbacTasks(cr);
    assert ConfigTask(e) == ConfigTask(cr);
    assert AccountObj(e) == AccountObj(cr);
    assert GatewayDeploymentTask(e, c) == GatewayDeploymentTask(cr, c);
    assert GatewayServiceTask(e) == GatewayServiceTask(cr);
  }

  /** The position of a kind in the gateway's program. */
  function Stage(k: Kind): nat {
    match k
    case ServiceAccountKind => 1
    case ClusterRoleKind => 2
    case ClusterRoleBindingKind => 3
    case RoleKind => 4
    case RoleBindingKind => 5
    case ConfigMapKind => 6
    case DeploymentKind => 7
    case ServiceKind => 8
    case _ => 0
  }

  /** Tasks that can still run manage objects of later and later kinds, all at or below stage `top`. */
  ghost predicate Staged(todo: seq<Task>, top: nat) {
    && (forall i :: 0 <= i < |todo| ==> Plain(todo[i]) && (!todo[i].Crash? ==> 0 < Stage(Managed(todo[i]).kind) <= top))
    && (forall i, j :: 0 <= i < j < |todo| && !todo[i].Crash? && !todo[j].Crash? ==>
          Stage(Managed(todo[i]).kind) < Stage(Managed(todo[j]).kind))
  }

  lemma StagedSnoc(todo: seq<Task>, top: nat, t: Task)
    requires Staged(todo, top) && Plain(t) && (t.Crash? || Stage(Managed(t).kind) == top + 1)
    ensures Staged(todo + [t], top + 1)
  {
  }

  /** `t` manages an object of this kind, or crashes. */
  predicate Manages(t: Task, k: Kind) {
    Plain(t) && (t.Crash? || Managed(t).kind == k)
  }

  lemma StagedPair(todo: seq<Task>, top: nat, t: Task, u: Task)
    requires Staged(todo, top) && Plain(t) && Plain(u)
    requires (t.Crash? || Stage(Managed(t).kind) == top + 1) && (u.Crash? || Stage(Managed(u).kind) == top + 2)
    ensures Staged(todo + [t, u], top + 2)
  {
    StagedSnoc(todo, top, t);
    StagedSnoc(todo + [t], top + 1, u);
    assert todo + [t, u] == todo + [t] + [u];
  }

  lemma StagedFour(todo: seq<Task>, r: seq<Task>)
    requires Staged(todo, 1) && |r| == 4
    requires Manages(r[0], ClusterRoleKind) && Manages(r[1], ClusterRoleBindingKind) && Manages(r[2], RoleKind)
        && Manages(r[3], RoleBindingKind)
    ensures Staged(todo + r, 5)
  {
    StagedPair(todo, 1, r[0], r[1]);
    assert todo + r == todo + [r[0], r[1]] + [r[2], r[3]];
    hide Staged;
    StagedPair(todo + [r[0], r[1]], 3, r[2], r[3]);
  }

  lemma RbacKinds(cr: CR)
    ensures var r := RbacTasks(cr);
            r == [] || (|r| == 4 && Manages(r[0], ClusterRoleKind) && Manages(r[1], ClusterRoleBindingKind)
                        && Manages(r[2], RoleKind) && Manages(r[3], RoleBindingKind))
  {
    hide Rules, ClusterRoleRef, NamespacedRoleRef, InitialRoleRef, OwnSubject, BindingName, ClusterRoleName,
         RoleBindingName, RoleName;
  }

  lemma StagedRbac(todo: seq<Task>, cr: CR)
    requires Staged(todo, 1)
    ensures Staged(todo + RbacTasks(cr), 5)
  {
    hide RbacTasks;
    RbacKinds(cr);
    if RbacTasks(cr) == [] {
      assert todo + RbacTasks(cr) == todo;
    } else {
      StagedFour(todo, RbacTasks(cr));
    }
  }

  lemma StagedParts(a: Task, r: seq<Task>, m: Task, k: seq<Task>, d: Task, s: Task)
    requires Manages(a, ServiceAccountKind) && Staged([a] + r, 5) && Manages(m, ConfigMapKind)
    requires k == [] || k == [Crash]
    requires Manages(d, DeploymentKind) && Manages(s, ServiceKind)
    ensures Staged([a] + r + [m] + k + [d, s], 8)
  {
    hide Staged;
    StagedSnoc([a] + r, 5, m);
    var front := [a] + r + [m];
    if k == [] {
      assert front + k == front;
    } else {
      StagedCrash(front, 6);
    }
    StagedSnoc(front + k, 6, d);
    StagedSnoc(front + k + [d], 7, s);
    assert front + k + [d, s] == front + k + [d] + [s];
  }

  lemma TaskKinds(cr: CR, c: Choice)
    requires cr.spec.GatewaySpec?
    ensures Manages(CreateOnly(AccountObj(cr)), ServiceAccountKind) && Manages(ConfigTask(cr), ConfigMapKind)
    ensures Manages(GatewayDeploymentTask(cr, c), DeploymentKind)
  {
    hide GatewayChildren.DeploymentOf, ConfigMaps.Data, ConfigMaps.SettledData;
  }

  lemma ServiceKinds(cr: CR)
    requires cr.spec.GatewaySpec?
    ensures Manages(GatewayServiceTask(cr), ServiceKind)
  {
    match GatewayChildren.ServiceLabels(cr.meta.labels, cr.spec.gateway)
    case None =>
      assert GatewayServiceTask(cr) == Crash;
    case Some(_) =>
      assert GatewayServiceTask(cr).Ensure? && GatewayServiceTask(cr).init.Service?;
  }

  /** One object of each kind, so no two tasks compete. */
  lemma ProgramIsStaged(cr: CR, c: Choice)
    requires cr.spec.GatewaySpec?
    ensures Staged(Program(cr, c), 8)
  {
    hide GatewayChildren.DeploymentOf, GatewayChildren.ServiceOf, ConfigMaps.Data, ConfigMaps.SettledData;
    var k := if GatewayChildren.SkywalkingOn(cr.spec.gateway) then [Crash] else [];
    TaskKinds(cr, c);
    ServiceKinds(cr);
    StagedRbac([CreateOnly(AccountObj(cr))], cr);
    StagedParts(CreateOnly(AccountObj(cr)), RbacTasks(cr), ConfigTask(cr), k, GatewayDeploymentTask(cr, c),
        GatewayServiceTask(cr));
  }

  lemma StagedCrash(todo: seq<Task>, top: nat)
    requires Staged(todo, top)
    ensures Staged(todo + [Crash], top)
  {
  }

  lemma ProgramIsDistinct(cr: CR, c: Choice)
    requires cr.spec.GatewaySpec?
    ensures var todo := Program(cr, c);
            DistinctTasks(todo)
            && forall i :: 0 <= i < |todo| && !todo[i].Crash? ==>
                 !IsCRKind(Managed(todo[i]).kind) && Managed(todo[i]).kind != NamespaceKind
  {
    ProgramIsStaged(cr, c);
    StagedIsDistinct(Program(cr, c));
  }

  lemma StagedIsDistinct(todo: seq<Task>)
    requires Staged(todo, 8)
    ensures DistinctTasks(todo)
    ensures forall i :: 0 <= i < |todo| && !todo[i].Crash? ==>
              !IsCRKind(Managed(todo[i]).kind) && Managed(todo[i]).kind != NamespaceKind
  {
  }

  // ---- Absorption ----

  /** A completed `t` leaves the same object whether or not `t'` completed before it. */
  ghost predicate Absorbs(t: Task, t': Task) {
    && Plain(t) && Plain(t') && (t.Crash? <==> t'.Crash?)
    && (!t.Crash? ==>
          && Managed(t) == Managed(t')
          && forall x :: Result(t', x).Some? ==> Result(t, Result(t', x)) == Result(t, x))
  }

  /** The mutate functions that settle at once. */
  predicate Settling(m: Mutation) {
    m.SetRules? || m.Bind? || m.SetData? || m.SetDeployment? || m.SetGatewayService?
  }

  lemma ApplyTwice(m: Mutation, o: Obj)
    requires Settling(m) && Apply(m, o).Some?
    ensures Apply(m, Apply(m, o).value) == Apply(m, o)
  {
    if m.SetGatewayService? {
      GatewayChildren.ServiceIsIdempotent(o.service, o.meta.labels, m.gateway);
    }
  }

  lemma AbsorbsItself(t: Task)
    requires Plain(t) && (t.Ensure? ==> Settling(t.mutation))
    ensures Absorbs(t, t)
  {
    if t.Ensure? {
      forall x | Result(t, x).Some? ensures Result(t, Result(t, x)) == Result(t, x) {
        ApplyTwice(t.mutation, if x.Some? then x.value else t.init);
      }
    }
  }

  lemma DeploymentAbsorbs(cr: CR, c: Choice, c': Choice)
    requires cr.spec.GatewaySpec?
    ensures Absorbs(GatewayDeploymentTask(cr, c), GatewayDeploymentTask(cr, c'))
  {
    hide GatewayChildren.DeploymentOf;
  }

  lemma SettlingTasks(cr: CR)
    requires cr.spec.GatewaySpec?
    ensures forall i :: 0 <= i < |RbacTasks(cr)| ==>
              RbacTasks(cr)[i].Ensure? && Settling(RbacTasks(cr)[i].mutation) && Plain(RbacTasks(cr)[i])
    ensures ConfigTask(cr).Ensure? && Settling(ConfigTask(cr).mutation) && Plain(ConfigTask(cr))
    ensures GatewayServiceTask(cr).Crash? || (GatewayServiceTask(cr).Ensure?
        && Settling(GatewayServiceTask(cr).mutation))
    ensures Plain(GatewayServiceTask(cr))
  {
  }

  /** Two programs of one instance, generated with different iteration orders, absorb each other. */
  ghost predicate ProgramsAbsorb(todo: seq<Task>, todo': seq<Task>) {
    |todo| == |todo'| && forall i :: 0 <= i < |todo| ==> Absorbs(todo[i], todo'[i])
  }

  lemma ProgramAbsorbs(cr: CR, c: Choice, c': Choice)
    requires cr.spec.GatewaySpec?
    ensures ProgramsAbsorb(Program(cr, c), Program(cr, c'))
  {
    hide GatewayChildren.DeploymentOf, ConfigTask, RbacTasks, GatewayServiceTask, GatewayDeploymentTask;
    var a, r, m := CreateOnly(AccountObj(cr)), RbacTasks(cr), ConfigTask(cr);
    var k := if GatewayChildren.SkywalkingOn(cr.spec.gateway) then [Crash] else [];
    var d, d', s := GatewayDeploymentTask(cr, c), GatewayDeploymentTask(cr, c'), GatewayServiceTask(cr);
    var todo, todo' := [a] + r + [m] + k + [d, s], [a] + r + [m] + k + [d', s];
    assert Program(cr, c) == todo && Program(cr, c') == todo';
    SettlingTasks(cr);
    DeploymentAbsorbs(cr, c, c');
    forall i | 0 <= i < |todo| ensures Absorbs(todo[i], todo'[i]) {
      if i == |todo| - 2 {
      } else {
        SameOutsideOne([a] + r + [m] + k, d, d', s, i);
        InPieces(a, r, m, k, d, s, i);
        AbsorbsItself(todo[i]);
      }
    }
  }

  lemma SameOutsideOne(front: seq<Task>, d: Task, d': Task, s: Task, i: nat)
    requires i < |front| + 2 && i != |front|
    ensures (front + [d, s])[i] == (front + [d', s])[i]
  {
  }

  lemma InPieces(a: Task, r: seq<Task>, m: Task, k: seq<Task>, d: Task, s: Task, i: nat)
    requires (k == [] || k == [Crash]) && i < |r| + |k| + 4 && i != |r| + |k| + 2
    ensures var t := ([a] + r + [m] + k + [d, s])[i];
            t == a || t in r || t == m || t == Crash || t == s
  {
    var front := [a] + r + [m] + k;
    if i == |front| + 1 {
      assert (front + [d, s])[i] == s;
    } else {
      assert (front + [d, s])[i] == front[i];
    }
  }
}
