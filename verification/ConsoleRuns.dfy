/** The console's tasks without interference: what the first two decide. */
module ConsoleRuns {
  import opened Kubernetes
  import opened ApiStore
  import opened Tasks
  import opened Runs
  import Outcomes
  import CC = ConsoleChildren

  /** The console's ClusterRole as the server keeps it. */
  function ConsoleRoleKey(cr: CR): Key
    requires HasConsole(cr)
  {
    Key(ClusterRoleKind, "", ConsoleName(cr) + "-" + cr.meta.ns)
  }

  function ConsoleBindingKey(cr: CR): Key
    requires HasConsole(cr)
  {
    Key(ClusterRoleBindingKind, "", ConsoleBindingName(cr))
  }

  /** The tasks of the console after its ClusterRoleBinding. */
  function ConsoleRest(cr: CR, c: Choice): seq<Task>
    requires HasConsole(cr)
  {
    ConsoleRbacTasks(cr)[2..] + (if AccountOn(cr) then [CreateOnly(ConsoleAccountObj(cr))] else [])
    + [ConsoleConfigTask(cr), ConsoleDeploymentTask(cr, c), ConsoleServiceTask(cr)]
  }

  lemma ConsoleShape(cr: CR, c: Choice)
    requires HasConsole(cr)
    ensures ConsoleProgram(cr, c) == [ConsoleRbacTasks(cr)[0]] + ([ConsoleRbacTasks(cr)[1]] + ConsoleRest(cr, c))
  {
    hide ConsoleConfigTask, ConsoleDeploymentTask, ConsoleServiceTask;
    var r := ConsoleRbacTasks(cr);
    assert |r| == 4;
    assert r == [r[0]] + ([r[1]] + r[2..]);
    hide ConsoleRbacTasks;
  }

  /** No other object of the console is cluster-scoped. */
  predicate InNamespace(t: Task) {
    Outcomes.Single(t) && !ClusterScoped(Outcomes.Kept(t).kind)
  }

  lemma RbacInNamespace(cr: CR)
    requires HasConsole(cr)
    ensures |ConsoleRbacTasks(cr)[2..]| == 2 && forall t :: t in ConsoleRbacTasks(cr)[2..] ==> InNamespace(t)
  {
  }

  lemma ConsoleInNamespace(cr: CR, c: Choice)
    requires HasConsole(cr)
    ensures InNamespace(CreateOnly(ConsoleAccountObj(cr))) && InNamespace(ConsoleConfigTask(cr))
    ensures InNamespace(ConsoleDeploymentTask(cr, c)) && InNamespace(ConsoleServiceTask(cr))
  {
    hide CC.InitialConfig, CC.UpdateSpec, ConsoleBuild, ConsoleParams;
  }

  lemma RestLeaves(cr: CR, c: Choice, k: Key)
    requires HasConsole(cr) && ClusterScoped(k.kind)
    ensures Outcomes.Untouched(ConsoleRest(cr, c), k)
  {
    hide ConsoleRbacTasks, ConsoleAccountObj, ConsoleConfigTask, ConsoleDeploymentTask, ConsoleServiceTask,
         Outcomes.Single, Outcomes.Kept;
    RbacInNamespace(cr);
    ConsoleInNamespace(cr, c);
    assert forall t :: t in ConsoleRest(cr, c) ==> InNamespace(t);
    assert forall i :: 0 <= i < |ConsoleRest(cr, c)| ==> ConsoleRest(cr, c)[i] in ConsoleRest(cr, c);
  }

  lemma OneOfTasks(w: World, t: Task, rest: seq<Task>)
    ensures RunTasks(w, [t] + rest) == var (w', ok) := RunTask(w, t); if ok then RunTasks(w', rest) else (w', false)
  {
    assert ([t] + rest)[1..] == rest;
  }

  /** The console's ClusterRole is built with a namespace and read back without one: once it is there, every later
      reconcile of the console fails at its first object and writes nothing. */
  lemma ConsoleFailsNextTime(w: World, cr: CR, c: Choice)
    requires Sound(w.store) && w.fates == [] && HasConsole(cr) && cr.meta.ns != ""
    requires ConsoleRoleKey(cr) in w.store.objects
    ensures !RunTasks(w, ConsoleProgram(cr, c)).1 && RunTasks(w, ConsoleProgram(cr, c)).0.store == w.store
  {
    var t0 := ConsoleRbacTasks(cr)[0];
    assert Outcomes.Single(t0) && Outcomes.Kept(t0) == ConsoleRoleKey(cr);
    assert KeyOf(t0.init) != Scoped(KeyOf(t0.init));
    hide RunTasks, RunTask, ConsoleRest, ConsoleProgram;
    ConsoleShape(cr, c);
    OneOfTasks(w, t0, [ConsoleRbacTasks(cr)[1]] + ConsoleRest(cr, c));
    Outcomes.SoloTask(w, t0);
  }

  /** Nor can a console get past a binding that is already there. */
  lemma ConsoleStopsAtBinding(w: World, cr: CR, c: Choice)
    requires Sound(w.store) && w.fates == [] && HasConsole(cr) && cr.meta.ns != ""
    requires ConsoleBindingKey(cr) in w.store.objects
    ensures !RunTasks(w, ConsoleProgram(cr, c)).1
  {
    var t0, t1 := ConsoleRbacTasks(cr)[0], ConsoleRbacTasks(cr)[1];
    RoleTask(cr);
    BindingTask(cr);
    hide RunTasks, RunTask, ConsoleRest, ConsoleProgram, ConsoleRbacTasks, Outcomes.Single, Outcomes.Kept,
         Outcomes.Outcome;
    ConsoleShape(cr, c);
    OneOfTasks(w, t0, [t1] + ConsoleRest(cr, c));
    Outcomes.SoloTask(w, t0);
    var w1 := RunTask(w, t0).0;
    assert Read(w1.store, ConsoleBindingKey(cr)) == Read(w.store, ConsoleBindingKey(cr));
    OneOfTasks(w1, t1, ConsoleRest(cr, c));
    Outcomes.SoloTask(w1, t1);
  }

  lemma RoleTask(cr: CR)
    requires HasConsole(cr)
    ensures var t := ConsoleRbacTasks(cr)[0];
            && Outcomes.Single(t) && Outcomes.Kept(t) == ConsoleRoleKey(cr) && Outcomes.Outcome(t, None).Some?
            && (cr.meta.ns != "" ==> forall x: Option<Obj> :: x.Some? ==> Outcomes.Outcome(t, x).None?)
  {
    assert KeyOf(ConsoleRbacTasks(cr)[0].init) == Key(ClusterRoleKind, cr.meta.ns, ConsoleName(cr) + "-" + cr.meta.ns);
  }

  lemma BindingTask(cr: CR)
    requires HasConsole(cr)
    ensures var t := ConsoleRbacTasks(cr)[1];
            && Outcomes.Single(t) && Outcomes.Kept(t) == ConsoleBindingKey(cr)
            && (var o := Outcomes.Outcome(t, None);
                o.Some? && o.value.ClusterRoleBinding? && ConsoleSubject(cr) in o.value.subjects)
            && (cr.meta.ns != "" ==> forall x: Option<Obj> :: x.Some? ==> Outcomes.Outcome(t, x).None?)
  {
    assert KeyOf(ConsoleRbacTasks(cr)[1].init) == Key(ClusterRoleBindingKind, cr.meta.ns, ConsoleBindingName(cr));
  }

  /** Whatever becomes of the console, afterwards its ClusterRole is there. */
  lemma ConsoleRoleStays(w: World, cr: CR, c: Choice)
    requires Sound(w.store) && w.fates == [] && HasConsole(cr)
    ensures ConsoleRoleKey(cr) in RunTasks(w, ConsoleProgram(cr, c)).0.store.objects
  {
    var t0, t1, k := ConsoleRbacTasks(cr)[0], ConsoleRbacTasks(cr)[1], ConsoleRoleKey(cr);
    RoleTask(cr);
    BindingTask(cr);
    hide RunTasks, RunTask, ConsoleRest, ConsoleProgram, ConsoleRbacTasks, Outcomes.Single, Outcomes.Kept,
         Outcomes.Outcome;
    ConsoleShape(cr, c);
    OneOfTasks(w, t0, [t1] + ConsoleRest(cr, c));
    Outcomes.SoloTask(w, t0);
    var (w1, ok) := RunTask(w, t0);
    if ok {
      OneOfTasks(w1, t1, ConsoleRest(cr, c));
      Outcomes.SoloTask(w1, t1);
      var w2 := RunTask(w1, t1).0;
      assert Read(w2.store, k) == Read(w1.store, k);
      RestLeaves(cr, c, k);
      Outcomes.SoloFrame(w2, ConsoleRest(cr, c), k);
      assert Read(RunTasks(w2, ConsoleRest(cr, c)).0.store, k) == Read(w2.store, k);
    }
  }

  /** A console whose two cluster-scoped objects are not there yet creates them, whatever becomes of the rest. */
  lemma ConsoleCreatesBinding(w: World, cr: CR, c: Choice)
    requires Sound(w.store) && w.fates == [] && HasConsole(cr)
    requires ConsoleRoleKey(cr) !in w.store.objects && ConsoleBindingKey(cr) !in w.store.objects
    ensures var s := RunTasks(w, ConsoleProgram(cr, c)).0.store;
            && ConsoleBindingKey(cr) in s.objects
            && var o := s.objects[ConsoleBindingKey(cr)].obj; o.ClusterRoleBinding? && ConsoleSubject(cr) in o.subjects
  {
    var t0, t1, k := ConsoleRbacTasks(cr)[0], ConsoleRbacTasks(cr)[1], ConsoleBindingKey(cr);
    RoleTask(cr);
    BindingTask(cr);
    hide RunTasks, RunTask, ConsoleRest, ConsoleProgram, ConsoleRbacTasks, Outcomes.Single, Outcomes.Kept,
         Outcomes.Outcome;
    ConsoleShape(cr, c);
    OneOfTasks(w, t0, [t1] + ConsoleRest(cr, c));
    Outcomes.SoloTask(w, t0);
    var w1 := RunTask(w, t0).0;
    assert Read(w1.store, k) == Read(w.store, k);
    OneOfTasks(w1, t1, ConsoleRest(cr, c));
    Outcomes.SoloTask(w1, t1);
    var w2 := RunTask(w1, t1).0;
    RestLeaves(cr, c, k);
    Outcomes.SoloFrame(w2, ConsoleRest(cr, c), k);
    assert Read(RunTasks(w2, ConsoleRest(cr, c)).0.store, k) == Read(w2.store, k);
  }
}
