/** What failure-free runs leave behind, task by task, for every kind of task: the controller's and the console's
    included. */
module Outcomes {
  import opened Kubernetes
  import opened ApiStore
  import opened Tasks
  import CD = ControllerDeployment

  /** A task with one object: a controller's Deployment must be looked up under the name it is created with. */
  predicate Single(t: Task) {
    match t
    case CreateOnly(o) => !o.CustomResource?
    case Ensure(init, _) => !init.CustomResource?
    case EnsureIfMissing(init, _) => !init.CustomResource?
    case DeployController(probe, _, meta, _, _, _) => probe == Key(DeploymentKind, meta.ns, meta.name)
    case _ => false
  }

  /** Where the server keeps the task's object. */
  function Kept(t: Task): Key
    requires Single(t)
  {
    match t
    case CreateOnly(o) => Scoped(KeyOf(o))
    case Ensure(init, _) => Scoped(KeyOf(init))
    case EnsureIfMissing(init, _) => Scoped(KeyOf(init))
    case DeployController(probe, _, _, _, _, _) => probe
  }

  function EnsureOutcome(init: Obj, m: Mutation, current: Option<Obj>): Option<Obj> {
    match current
    case None => (match Apply(m, init) case None => None case Some(o) => Some(Stripped(o)))
    case Some(found) => if KeyOf(init) != Scoped(KeyOf(init)) then None else Apply(m, found)
  }

  /** The object after the task has completed; None when it cannot complete. */
  function Outcome(t: Task, current: Option<Obj>): Option<Obj>
    requires Single(t)
  {
    match t
    case CreateOnly(o) => if current.Some? then current else Some(Stripped(o))
    case Ensure(init, m) => EnsureOutcome(init, m, current)
    case EnsureIfMissing(init, m) => if current.Some? then current else EnsureOutcome(init, m, None)
    case DeployController(_, owner, meta, b, first, second) =>
      if current.None? then
        match CD.UpdateSpec(EMPTY_SPEC, b, first)
        case None => None
        case Some(sp) => EnsureOutcome(Deployment(meta, Some(owner), sp), MergeDeployment(b, second), None)
      else if !current.value.Deployment? then None
      else
        var found := current.value;
        match CD.UpdateSpec(found.deployment, b, first)
        case None => None
        case Some(sp) =>
          if sp == found.deployment then current
          else if found.owner.Some? && found.owner.value != owner then None
          else EnsureOutcome(Deployment(found.meta, Some(owner), sp), MergeDeployment(b, second), current)
  }

  /** What one failure-free task does. */
  ghost predicate Carried(s: Store, t: Task, s': Store, ok: bool)
    requires Single(t)
  {
    var k := Kept(t);
    var result := Outcome(t, Object(s, k));
    && Sound(s') && (ok <==> result.Some?)
    && (forall q :: q != k ==> Read(s', q) == Read(s, q))
    && (ok ==> Object(s', k) == result)
    && (!ok || result == Object(s, k) ==> s' == s)
  }

  lemma SoloTask(w: World, t: Task)
    requires Sound(w.store) && w.fates == [] && Single(t)
    ensures var (w', ok) := RunTask(w, t); w'.fates == [] && Carried(w.store, t, w'.store, ok)
  {
    hide Apply, CD.UpdateSpec;
    var s := w.store;
    assert Tick(w).(store := s) == w;
    match t
    case CreateOnly(o) => CreateEffect(s, o);
    case Ensure(init, m) => SoloEnsure(w, init, m);
    case EnsureIfMissing(init, m) =>
      if Scoped(KeyOf(init)) !in s.objects {
        assert RunTask(w, t) == RunTask(w, Ensure(init, m));
        SoloEnsure(w, init, m);
      }
    case DeployController(_, _, _, _, _, _) => SoloDeploy(w, t);
  }

  lemma SoloEnsure(w: World, init: Obj, m: Mutation)
    requires Sound(w.store) && w.fates == [] && !init.CustomResource?
    ensures var (w', ok) := RunTask(w, Ensure(init, m));
            w'.fates == [] && Carried(w.store, Ensure(init, m), w'.store, ok)
  {
    hide Apply, Perform;
    var s, k, plan := w.store, Scoped(KeyOf(init)), Plan(w.store, init, m);
    var start := if k in s.objects then s.objects[k].obj else init;
    assert Tick(w).(store := s) == w;
    ApplyKeepsKey(m, start);
    assert k in s.objects ==> KeyOf(start) == k;
    if plan.Commit? {
      assert RunTask(w, Ensure(init, m)) == RunTask(w, FinishWrite(plan.write));
      SoloWrite(w, plan.write);
      CommitStores(s, init, m);
    }
  }

  lemma SoloWrite(w: World, write: Write)
    requires w.fates == []
    ensures RunTask(w, FinishWrite(write)) == RunWrite(w, Perform(w.store, write))
  {
  }

  lemma SoloDeploy(w: World, t: Task)
    requires Sound(w.store) && w.fates == [] && Single(t) && t.DeployController?
    ensures var (w', ok) := RunTask(w, t); w'.fates == [] && Carried(w.store, t, w'.store, ok)
  {
    hide Apply, CD.UpdateSpec, Plan;
    var s, k := w.store, t.probe;
    assert Tick(w).(store := s) == w;
    assert k in s.objects ==> KeyOf(s.objects[k].obj) == k;
    var step := TaskCall(s, t).1;
    if step.More? {
      assert RunTask(w, t) == RunTask(w, step.task);
      SoloEnsure(w, step.task.init, step.task.mutation);
      assert Scoped(KeyOf(step.task.init)) == k;
    }
  }

  // ---- Lists of tasks ----

  /** Single tasks, no two with the same object. */
  ghost predicate DistinctObjects(todo: seq<Task>) {
    && (forall i :: 0 <= i < |todo| ==> Single(todo[i]))
    && (forall i, j :: 0 <= i < j < |todo| ==> Kept(todo[i]) != Kept(todo[j]))
  }

  ghost predicate Untouched(todo: seq<Task>, k: Key) {
    forall i :: 0 <= i < |todo| ==> Single(todo[i]) && Kept(todo[i]) != k
  }

  /** Objects that no task of the list keeps stay as they are, whether it completes or not. */
  lemma {:induction false} SoloFrame(w: World, todo: seq<Task>, k: Key)
    requires Sound(w.store) && w.fates == [] && Untouched(todo, k)
    ensures var (w', ok) := RunTasks(w, todo);
            w'.fates == [] && Sound(w'.store) && Read(w'.store, k) == Read(w.store, k)
    decreases |todo|
  {
    hide Outcome, RunTask, Kept;
    if todo != [] {
      SoloTask(w, todo[0]);
      SoloFrame(RunTask(w, todo[0]).0, todo[1..], k);
    }
  }

  /** Every task can complete on what is there. */
  ghost predicate Completable(todo: seq<Task>, s: Store)
    requires DistinctObjects(todo)
  {
    forall i :: 0 <= i < |todo| ==> Outcome(todo[i], Object(s, Kept(todo[i]))).Some?
  }

  /** Every task's object is as it wants it. */
  ghost predicate Completed(todo: seq<Task>, s: Store, s': Store)
    requires DistinctObjects(todo)
  {
    forall i :: 0 <= i < |todo| ==>
      && Outcome(todo[i], Object(s, Kept(todo[i]))).Some?
      && Object(s', Kept(todo[i])) == Outcome(todo[i], Object(s, Kept(todo[i])))
  }

  ghost predicate AllAtRest(todo: seq<Task>, s: Store)
    requires DistinctObjects(todo)
  {
    forall i :: 0 <= i < |todo| ==>
      Object(s, Kept(todo[i])).Some? && Outcome(todo[i], Object(s, Kept(todo[i]))) == Object(s, Kept(todo[i]))
  }

  lemma {:induction false} SoloTasks(w: World, todo: seq<Task>)
    requires Sound(w.store) && w.fates == [] && DistinctObjects(todo)
    ensures var (w', ok) := RunTasks(w, todo);
            && w'.fates == [] && Sound(w'.store) && (ok <==> Completable(todo, w.store))
            && (ok ==> Completed(todo, w.store, w'.store))
            && (AllAtRest(todo, w.store) ==> w'.store == w.store)
    decreases |todo|
  {
    hide Outcome, RunTask, Kept, Single;
    if todo != [] {
      var rest := todo[1..];
      var (w1, ok) := RunTask(w, todo[0]);
      SoloTask(w, todo[0]);
      RestUnmoved(todo, w.store, w1.store);
      if ok {
        SoloTasks(w1, rest);
        RestCompletes(todo, w.store, w1.store);
        HeadStays(w1, todo);
        var (w', ok') := RunTasks(w1, rest);
        if ok' {
          CompletedWhole(todo, w.store, w1.store, w'.store);
        }
      }
    }
  }

  /** The first task leaves the objects of the others alone. */
  lemma RestUnmoved(todo: seq<Task>, s: Store, s1: Store)
    requires DistinctObjects(todo) && todo != [] && forall q :: q != Kept(todo[0]) ==> Read(s1, q) == Read(s, q)
    ensures DistinctObjects(todo[1..])
    ensures forall i :: 0 < i < |todo| ==> Object(s1, Kept(todo[i])) == Object(s, Kept(todo[i]))
  {
    hide Kept, Single;
    forall i | 0 < i < |todo| ensures Object(s1, Kept(todo[i])) == Object(s, Kept(todo[i])) {
      assert Read(s1, Kept(todo[i])) == Read(s, Kept(todo[i]));
    }
  }

  lemma RestCompletes(todo: seq<Task>, s: Store, s1: Store)
    requires DistinctObjects(todo) && todo != [] && DistinctObjects(todo[1..])
             && Outcome(todo[0], Object(s, Kept(todo[0]))).Some?
    requires forall i :: 0 < i < |todo| ==> Object(s1, Kept(todo[i])) == Object(s, Kept(todo[i]))
    ensures Completable(todo[1..], s1) <==> Completable(todo, s)
    ensures AllAtRest(todo, s) ==> AllAtRest(todo[1..], s1)
  {
    hide Outcome, Kept, Single;
    var rest := todo[1..];
    assert forall i :: 0 <= i < |rest| ==> rest[i] == todo[i + 1];
    if Completable(rest, s1) {
      forall i | 0 <= i < |todo| ensures Outcome(todo[i], Object(s, Kept(todo[i]))).Some? {
        if i > 0 {
          assert rest[i - 1] == todo[i];
        }
      }
    }
  }

  /** The other tasks leave the object of the first alone. */
  lemma HeadStays(w1: World, todo: seq<Task>)
    requires Sound(w1.store) && w1.fates == [] && DistinctObjects(todo) && todo != []
    ensures Object(RunTasks(w1, todo[1..]).0.store, Kept(todo[0])) == Object(w1.store, Kept(todo[0]))
  {
    hide Outcome, Kept, Single, RunTasks;
    SoloFrame(w1, todo[1..], Kept(todo[0]));
    assert Read(RunTasks(w1, todo[1..]).0.store, Kept(todo[0])) == Read(w1.store, Kept(todo[0]));
  }

  lemma CompletedWhole(todo: seq<Task>, s: Store, s1: Store, s': Store)
    requires DistinctObjects(todo) && todo != [] && DistinctObjects(todo[1..]) && Completed(todo[1..], s1, s')
    requires Outcome(todo[0], Object(s, Kept(todo[0]))).Some?
    requires Object(s', Kept(todo[0])) == Outcome(todo[0], Object(s, Kept(todo[0])))
    requires forall i :: 0 < i < |todo| ==> Object(s1, Kept(todo[i])) == Object(s, Kept(todo[i]))
    ensures Completed(todo, s, s')
  {
    hide Outcome, Kept, Single;
    var rest := todo[1..];
    forall i | 0 <= i < |todo|
      ensures Outcome(todo[i], Object(s, Kept(todo[i]))).Some?
      ensures Object(s', Kept(todo[i])) == Outcome(todo[i], Object(s, Kept(todo[i])))
    {
      if i > 0 {
        assert rest[i - 1] == todo[i];
      }
    }
  }
}
