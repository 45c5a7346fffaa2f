/** Who is in the shared bindings, whatever the users do, whichever runs are in flight and wherever they fail. */
module ProtocolGrants {
  import opened Kubernetes
  import opened ApiStore
  import opened Bindings
  import opened Tasks
  import opened Runs
  import opened Protocol
  import opened ProtocolChildren
  import CD = ControllerDeployment

  function Subjects(s: Store, n: string): seq<Subject> {
    var k := Key(ClusterRoleBindingKind, "", n);
    if k in s.objects && s.objects[k].obj.ClusterRoleBinding? then s.objects[k].obj.subjects else []
  }

  // ---- What one call does to the bindings ----

  /** Every binding other than the run's own, and after the status update its console's, is untouched; that one
      may only gain its own subject, or lose it, and does lose it when the finalizer moves on. */
  lemma CallSubjects(s: Store, key: Key, ph: Phase, c: Choice, n: string)
    requires Sound(s) && IsCRKind(key.kind) && RunOk(s, key, ph)
    ensures var (s', ph') := Call(s, key, ph, c);
            if Revokes(ph, ph') && n == BindingName(ph.cr)
            then Subjects(s', n) == RemoveSubject(Subjects(s, n), AccountName(ph.cr), ph.cr.meta.ns)
            else Subjects(s', n) == Subjects(s, n) || Grants(s, ph, s', n)
  {
    hide Program, ConsoleProgram, TaskCall, Advance, TasksOk;
    match ph
    case PersistFinalizer(_, _) => QuietSubjects(s, key, ph, c, n);
    case MarkDeployed(_, _, _) => QuietSubjects(s, key, ph, c, n);
    case DropFinalizer(_, _) => QuietSubjects(s, key, ph, c, n);
    case WriteBinding(cr, _, existing, version) => RevokeSubjects(s, key, ph, c, n);
    case Working(cr, _, todo, later) =>
      assert TasksOk(s, cr, todo, later.None?);
      HeadOk(s, cr, todo, later.None?);
      TaskSubjects(s, key, ph, n);
    case _ =>
  }

  lemma HeadOk(s: Store, cr: CR, todo: seq<Task>, late: bool)
    requires TasksOk(s, cr, todo, late) && todo != []
    ensures TaskOk(s, cr, todo[0], late)
  {
  }

  /** The call finishes the run's binding `n` and puts its own or its console's subject there. */
  ghost predicate Grants(s: Store, ph: Phase, s': Store, n: string) {
    && ph.Working? && JustBound(s, ph) && Granting(ph.cr, ph.later.None?) && n == GrantName(ph.cr, ph.later.None?)
    && Subjects(s', n) == AddSubject(Subjects(s, n), GrantSubject(ph.cr, ph.later.None?))
  }

  /** The three writes to the resource itself. */
  lemma QuietSubjects(s: Store, key: Key, ph: Phase, c: Choice, n: string)
    requires Sound(s) && (ph.PersistFinalizer? || ph.MarkDeployed? || ph.DropFinalizer?)
    ensures Subjects(Call(s, key, ph, c).0, n) == Subjects(s, n)
  {
    hide StartWork, Advance;
    var o := CustomResource(if ph.PersistFinalizer? then WithFinalizer(ph.cr) else WithoutFinalizer(ph.cr));
    UpdateEffect(s, o, ph.version);
    var r := Update(s, o, ph.version);
    assert r.Ok? ==> Read(r.value, Key(ClusterRoleBindingKind, "", n)) == Read(s, Key(ClusterRoleBindingKind, "", n));
  }

  lemma RevokeSubjects(s: Store, key: Key, ph: Phase, c: Choice, n: string)
    requires Sound(s) && ph.WriteBinding? && RunOk(s, key, ph)
    ensures var (s', ph') := Call(s, key, ph, c);
            if Revokes(ph, ph') && n == BindingName(ph.cr)
            then Subjects(s', n) == RemoveSubject(Subjects(s, n), AccountName(ph.cr), ph.cr.meta.ns)
            else Subjects(s', n) == Subjects(s, n)
  {
    hide BindingName, AccountName, CleansUp, Held;
    UpdateEffect(s, Cleaned(ph.existing, ph.cr), ph.bindingVersion);
    var s', k := Call(s, key, ph, c).0, Key(ClusterRoleBindingKind, "", n);
    assert n != BindingName(ph.cr) ==> Read(s', k) == Read(s, k);
  }

  lemma TaskSubjects(s: Store, key: Key, ph: Phase, n: string)
    requires Sound(s) && IsCRKind(key.kind) && ph.Working? && ph.todo != []
             && TaskOk(s, ph.cr, ph.todo[0], ph.later.None?)
    ensures var s' := TaskCall(s, ph.todo[0]).0; Subjects(s', n) == Subjects(s, n) || Grants(s, ph, s', n)
  {
    hide Apply, CD.UpdateSpec, Perform;
    var t, cr, late := ph.todo[0], ph.cr, ph.later.None?;
    match t
    case CreateOnly(o) => CreateEffect(s, o);
    case FinishWrite(w) =>
      if Perform(s, w).Ok? {
        WriteSubjects(s, key, cr, w, late, n);
      }
    case DeployController(_, _, _, _, _, _) => DeployOk(s, cr, t, late);
    case _ =>
  }

  lemma WriteSubjects(s: Store, key: Key, cr: CR, w: Write, late: bool, n: string)
    requires Sound(s) && IsCRKind(key.kind) && WriteOk(s, cr, w, late) && Perform(s, w).Ok?
    ensures var s' := Perform(s, w).value;
            || Subjects(s', n) == Subjects(s, n)
            || (w.obj.ClusterRoleBinding? && Granting(cr, late) && n == GrantName(cr, late)
                && Subjects(s', n) == AddSubject(Subjects(s, n), GrantSubject(cr, late)))
  {
    hide Perform, BindingName, AccountName;
    PerformIsChildWrite(s, cr, w, late, key);
    var s', k := Perform(s, w).value, Key(ClusterRoleBindingKind, "", n);
    if k != Scoped(KeyOf(w.obj)) {
      assert Read(s', k) == Read(s, k);
    }
  }

  // ---- Ownership ----

  /** `k` is in the store with its finalizer, `x` in binding `n` is its grant, and no run of `k` is already past
      cleaning up. */
  ghost predicate Owns(st: State, k: Key, n: string, x: Subject) {
    && Holds(st.store, k) && (k in st.runs ==> !st.runs[k].DropFinalizer?)
    && var cr := Resource(st.store, k);
       Finalizer(cr) in cr.finalizers && CleansUp(cr) && BindingName(cr) == n && OwnSubject(cr) == x
  }

  ghost predicate Owned(st: State, n: string, x: Subject) {
    exists k :: Owns(st, k, n, x)
  }

  /** `x` was put in binding `n` for a console, and no controller's finalizer has taken it out since. */
  predicate Consoled(st: State, n: string, x: Subject) {
    ControllerGrant(n, x) && x in st.consoled
  }

  /** Every grant has an owner, or is a console's. */
  ghost predicate Accounted(st: State) {
    forall n, x :: x in Subjects(st.store, n) && Grant(n, x) ==> Owned(st, n, x) || Consoled(st, n, x)
  }

  /** What was put in for a console is there. */
  ghost predicate ConsolesPresent(st: State) {
    forall x :: x in st.consoled ==> x in Subjects(st.store, x.ns + "-" + x.name)
  }

  /** No leaked grants. */
  ghost predicate NoLeaks(st: State) {
    forall n, x :: x in Subjects(st.store, n) && Grant(n, x) ==> Owned(st, n, x)
  }

  ghost predicate AllClean(s: Store) {
    forall n :: CleanGrants(n, Subjects(s, n))
  }

  lemma PersistKeeps(s: Store, key: Key, cr: CR, version: nat)
    requires Sound(s) && IsCRKind(key.kind) && RunOk(s, key, PersistFinalizer(cr, version))
    ensures var r := Update(s, CustomResource(WithFinalizer(cr)), version); r.Ok? ==> KeepsResource(s, r.value, key)
  {
    UpdateEffect(s, CustomResource(WithFinalizer(cr)), version);
    if Holds(s, key) {
      DefaultsAgree(Resource(s, key));
    }
  }

  /** A run's own calls keep its resource too, until the finalizer is dropped. */
  lemma OwnCallKeeps(s: Store, key: Key, ph: Phase, c: Choice)
    requires Sound(s) && IsCRKind(key.kind) && RunOk(s, key, ph) && !ph.DropFinalizer?
    ensures KeepsResource(s, Call(s, key, ph, c).0, key)
  {
    hide StartWork, TaskCall, TaskOk, Advance, SetDefaults;
    match ph
    case PersistFinalizer(cr, version) => PersistKeeps(s, key, cr, version);
    case Working(cr, version, todo, later) => TaskCallOk(s, cr, todo[0], later.None?, key);
    case WriteBinding(cr, _, existing, version) => RevokeKeeps(s, key, Cleaned(existing, cr), version);
    case _ =>
  }

  lemma RevokeKeeps(s: Store, key: Key, o: Obj, version: nat)
    requires Sound(s) && IsCRKind(key.kind) && o.ClusterRoleBinding?
    ensures Update(s, o, version).Ok? ==> KeepsResource(s, Update(s, o, version).value, key)
  {
    UpdateEffect(s, o, version);
    if Update(s, o, version).Ok? {
      KeysAfter(s, Update(s, o, version).value, Scoped(KeyOf(o)));
      ChildWrite(s, Update(s, o, version).value, key, Scoped(KeyOf(o)));
    }
  }

  /** Only a finalizer that has cleaned up, or has nothing to clean up, goes on to drop itself. */
  lemma DropComesAfterRevoking(s: Store, key: Key, ph: Phase, c: Choice)
    requires Sound(s) && RunOk(s, key, ph) && !ph.DropFinalizer? && Call(s, key, ph, c).1.DropFinalizer?
    ensures Revokes(ph, Call(s, key, ph, c).1) || (Holds(s, key) && !CleansUp(Resource(s, key)))
  {
    hide Program, ConsoleProgram;
    if ph.Fetch? {
      DefaultsAgree(Resource(s, key));
    }
  }

  lemma OwnedIsKept(s: Store, s': Store, k: Key)
    requires Holds(s, k) && Finalizer(Resource(s, k)) in Resource(s, k).finalizers && KeepsResource(s, s', k)
    requires Sound(s) && Sound(s')
    ensures Holds(s', k) && Finalizer(Resource(s', k)) in Resource(s', k).finalizers
    ensures CleansUp(Resource(s, k)) ==> CleansUp(Resource(s', k))
    ensures BindingName(Resource(s', k)) == BindingName(Resource(s, k))
        && OwnSubject(Resource(s', k)) == OwnSubject(Resource(s, k))
  {
    assert KeyOf(s.objects[k].obj) == k && KeyOf(s'.objects[k].obj) == k;
  }

  /** Ownership ends only with the call that removes the grant. */
  lemma OwnsKept(st: State, a: Action, k: Key, n: string, x: Subject)
    requires Base(st) && Enabled(st, a) && Owns(st, k, n, x)
    ensures Owns(Do(st, a), k, n, x) || (a.Step? && a.key == k && Revokes(st.runs[k], Do(st, a).runs[k]))
  {
    hide Call, RunOk, FinishedBinding, Required, BindingName, OwnSubject, CleansUp, Rely;
    match a
    case Begin(_) =>
    case Fail(key) => NeverDropsByFault(st.runs[key]);
    case Step(key, c) =>
      CallKeepsOwner(st, key, c, k);
      if key == k && Call(st.store, k, st.runs[k], c).1.DropFinalizer? {
        DropComesAfterRevoking(st.store, k, st.runs[k], c);
      }
    case Lose(key, c) =>
      CallKeepsOwner(st, key, c, k);
      NeverDropsByFault(st.runs[key]);
    case _ =>
      UserRely(st, a, k);
      RelyKeepsResource(st.store, Do(st, a).store, k);
      OwnedIsKept(st.store, Do(st, a).store, k);
  }

  lemma RelyKeepsResource(s: Store, s': Store, k: Key)
    requires Rely(s, s', k)
    ensures KeepsResource(s, s', k)
  {
  }

  lemma NeverDropsByFault(ph: Phase)
    ensures !OnFault(ph).DropFinalizer?
  {
    hide TaskFault;
  }

  /** Whoever's call it is, the owner is still there with its finalizer, unless it is dropping it. */
  lemma CallKeepsOwner(st: State, key: Key, c: Choice, k: Key)
    requires Base(st) && InFlight(st, key) && Holds(st.store, k)
    requires Finalizer(Resource(st.store, k)) in Resource(st.store, k).finalizers
             && (k in st.runs ==> !st.runs[k].DropFinalizer?)
    ensures var s, s' := st.store, Call(st.store, key, st.runs[key], c).0;
            && Holds(s', k) && Finalizer(Resource(s', k)) in Resource(s', k).finalizers
            && (CleansUp(Resource(s, k)) ==> CleansUp(Resource(s', k)))
            && BindingName(Resource(s', k)) == BindingName(Resource(s, k))
            && OwnSubject(Resource(s', k)) == OwnSubject(Resource(s, k))
  {
    hide Call, RunOk, BindingName, OwnSubject, CleansUp, Rely, KeepsResource;
    var s, s' := st.store, Call(st.store, key, st.runs[key], c).0;
    CallOk(s, key, st.runs[key], c);
    if key == k {
      OwnCallKeeps(s, k, st.runs[k], c);
    } else {
      assert KeyOf(s.objects[k].obj) == k;
      RelyKeepsResource(s, s', k);
    }
    OwnedIsKept(s, s', k);
  }

  /** The user's actions, and the ends and beginnings of runs, leave every binding alone. */
  lemma OthersKeepSubjects(st: State, a: Action, n: string)
    requires Sound(st.store) && Enabled(st, a) && !CarriedOut(a)
    ensures Subjects(Do(st, a).store, n) == Subjects(st.store, n)
    ensures Do(st, a).consoled == st.consoled
  {
    hide OnFault;
  }

  // ---- Every grant has an owner or is a console's ----

  /** A grant that a call has just put in. */
  lemma NewGrant(st: State, a: Action, n: string, x: Subject)
    requires Base(st) && Enabled(st, a) && CarriedOut(a)
    requires x in Subjects(Do(st, a).store, n) && x !in Subjects(st.store, n)
    ensures Owned(Do(st, a), n, x) || Consoled(Do(st, a), n, x)
  {
    hide Call, RunOk, FinishedBinding, Required, OnFault;
    var st', s, ph := Do(st, a), st.store, st.runs[a.key];
    var (s', ph') := Call(s, a.key, ph, a.choice);
    CallSubjects(s, a.key, ph, a.choice, n);
    if Revokes(ph, ph') && n == BindingName(ph.cr) {
      RemoveMembers(Subjects(s, n), AccountName(ph.cr), ph.cr.meta.ns);
    } else {
      assert Grants(s, ph, s', n);
      if ph.later.Some? {
        WorkingHeld(s, a.key, ph);
        assert KeyOf(s.objects[a.key].obj) == a.key;
        CallKeepsOwner(st, a.key, a.choice, a.key);
        NeverDropsByFault(ph);
        WorkNeverDrops(s, a.key, ph, a.choice);
        assert Owns(st', a.key, n, x);
      }
    }
  }

  lemma WorkingHeld(s: Store, key: Key, ph: Phase)
    requires RunOk(s, key, ph) && (ph.Working? || ph.MarkDeployed?)
    ensures Held(s, key, ph.cr)
  {
  }

  lemma WorkNeverDrops(s: Store, key: Key, ph: Phase, c: Choice)
    requires ph.Working?
    ensures !Call(s, key, ph, c).1.DropFinalizer?
  {
    hide TaskCall;
  }

  lemma AccountedKeptAt(st: State, a: Action, n: string, x: Subject)
    requires Base(st) && Accounted(st) && Enabled(st, a)
    requires x in Subjects(Do(st, a).store, n) && Grant(n, x)
    ensures Owned(Do(st, a), n, x) || Consoled(Do(st, a), n, x)
  {
    hide Call, RunOk, FinishedBinding, Required, OnFault, BindingName;
    if CarriedOut(a) && x !in Subjects(st.store, n) {
      NewGrant(st, a, n, x);
    } else {
      if !CarriedOut(a) {
        OthersKeepSubjects(st, a, n);
      }
      if Owned(st, n, x) {
        var k :| Owns(st, k, n, x);
        OwnsKept(st, a, k, n, x);
        if !Owns(Do(st, a), k, n, x) {
          RevokedByOwner(st, a, k, n, x);
        }
      } else if CarriedOut(a) {
        ConsoledKept(st, a, n, x);
      }
    }
  }

  /** A step by which an owner stops owning removes the subject. */
  lemma RevokedByOwner(st: State, a: Action, k: Key, n: string, x: Subject)
    requires Base(st) && Enabled(st, a) && Owns(st, k, n, x) && a.Step? && a.key == k
             && Revokes(st.runs[k], Do(st, a).runs[k])
    ensures x !in Subjects(Do(st, a).store, n)
    ensures ControllerGrant(n, x) ==> x !in Do(st, a).consoled
  {
    hide Call, FinishedBinding, Required, OnFault;
    var s, ph := st.store, st.runs[k];
    JustBoundIsWorking(s, ph);
    CallSubjects(s, k, ph, a.choice, n);
    RemoveMembers(Subjects(s, n), x.name, x.ns);
    assert KeyOf(s.objects[k].obj) == k;
    SchemesAreDisjoint(n, x);
  }

  /** A console's grant stays on record, or is taken out by a controller's finalizer. */
  lemma ConsoledKept(st: State, a: Action, n: string, x: Subject)
    requires Base(st) && Enabled(st, a) && CarriedOut(a) && Consoled(st, n, x) && x in Subjects(Do(st, a).store, n)
    ensures Consoled(Do(st, a), n, x)
  {
    hide Call, FinishedBinding, Required, OnFault;
    var s, ph := st.store, st.runs[a.key];
    var ph' := Call(s, a.key, ph, a.choice).1;
    if Revokes(ph, ph') && ph.cr.spec.ControllerSpec? && x == OwnSubject(ph.cr) {
      CallSubjects(s, a.key, ph, a.choice, n);
      RemoveMembers(Subjects(s, n), AccountName(ph.cr), ph.cr.meta.ns);
    }
  }

  /** What a run has just bound has its subject in it. */
  lemma JustBoundHasSubject(s: Store, key: Key, ph: Phase)
    requires Sound(s) && IsCRKind(key.kind) && RunOk(s, key, ph) && JustBound(s, ph)
    ensures Granting(ph.cr, ph.later.None?)
    ensures GrantSubject(ph.cr, ph.later.None?) in Subjects(TaskCall(s, ph.todo[0]).0, GrantName(ph.cr, ph.later.None?))
  {
    hide CD.UpdateSpec, BindingName, AccountName, Held, Plan, Perform;
    var t, late := ph.todo[0], ph.later.None?;
    HeadOk(s, ph.cr, ph.todo, late);
    match t
    case FinishWrite(w) => PerformIsChildWrite(s, ph.cr, w, late, key);
    case Ensure(init, m) => FoundHasSubject(s, ph.cr, init, m, late);
    case _ =>
  }

  lemma FoundHasSubject(s: Store, cr: CR, init: Obj, m: Mutation, late: bool)
    requires Sound(s) && TaskOk(s, cr, Ensure(init, m), late) && init.ClusterRoleBinding? && Plan(s, init, m).Skip?
    ensures GrantSubject(cr, late) in Subjects(s, GrantName(cr, late))
  {
    hide BindingName, AccountName, Apply;
    var found := s.objects[Scoped(KeyOf(init))].obj;
    assert KeyOf(found) == Scoped(KeyOf(init));
    BindKeeps(found, m);
  }

  lemma ConsolesPresentKeptAt(st: State, a: Action, x: Subject)
    requires Base(st) && ConsolesPresent(st) && AllClean(st.store) && Enabled(st, a) && x in Do(st, a).consoled
    ensures x in Subjects(Do(st, a).store, x.ns + "-" + x.name)
  {
    hide Call, FinishedBinding, Required, OnFault, RunOk;
    var n := x.ns + "-" + x.name;
    if !CarriedOut(a) {
      OthersKeepSubjects(st, a, n);
    } else {
      var s, ph := st.store, st.runs[a.key];
      var (s', ph') := Call(s, a.key, ph, a.choice);
      if x in st.consoled {
        CallSubjects(s, a.key, ph, a.choice, n);
        if Revokes(ph, ph') && n == BindingName(ph.cr) {
          JustBoundIsWorking(s, ph);
          RemoveMembers(Subjects(s, n), AccountName(ph.cr), ph.cr.meta.ns);
          SchemesAreDisjoint(n, x);
          CleanShape(n, Subjects(s, n), x);
        }
      } else {
        JustBoundIsWorking(s, ph);
        JustBoundHasSubject(s, a.key, ph);
        WorkStore(s, a.key, ph, a.choice);
      }
    }
  }

  lemma CleanShape(n: string, subjects: seq<Subject>, x: Subject)
    requires CleanGrants(n, subjects) && x in subjects && Grant(n, x)
    ensures x == AccountSubject(x.name, x.ns)
  {
  }

  lemma JustBoundIsWorking(s: Store, ph: Phase)
    ensures JustBound(s, ph) ==> ph.Working? && ph.todo != []
  {
  }

  lemma WorkStore(s: Store, key: Key, ph: Phase, c: Choice)
    requires ph.Working? && ph.todo != []
    ensures Call(s, key, ph, c).0 == TaskCall(s, ph.todo[0]).0
  {
    hide TaskCall;
  }

  lemma CleanKeptAt(st: State, a: Action, n: string)
    requires Base(st) && AllClean(st.store) && Enabled(st, a)
    ensures CleanGrants(n, Subjects(Do(st, a).store, n))
  {
    hide Call, FinishedBinding, Required, OnFault, RunOk, CleanGrants;
    if CarriedOut(a) {
      var s, ph := st.store, st.runs[a.key];
      CallSubjects(s, a.key, ph, a.choice, n);
      if Grants(s, ph, Do(st, a).store, n) {
        AddKeepsTheRest(n, Subjects(s, n), GrantSubject(ph.cr, ph.later.None?));
      } else if ph.WriteBinding? && n == BindingName(ph.cr) {
        RemoveKeepsClean(n, Subjects(s, n), AccountName(ph.cr), ph.cr.meta.ns);
      }
    } else {
      OthersKeepSubjects(st, a, n);
    }
  }

  lemma ForeignKeptAt(st: State, a: Action, n: string)
    requires Base(st) && Enabled(st, a)
    ensures Foreign(n, Subjects(Do(st, a).store, n)) == Foreign(n, Subjects(st.store, n))
  {
    hide Call, FinishedBinding, Required, OnFault, RunOk, Foreign;
    if CarriedOut(a) {
      var s, ph := st.store, st.runs[a.key];
      CallSubjects(s, a.key, ph, a.choice, n);
      if Grants(s, ph, Do(st, a).store, n) {
        AddKeepsTheRest(n, Subjects(s, n), GrantSubject(ph.cr, ph.later.None?));
      } else if ph.WriteBinding? && n == BindingName(ph.cr) {
        RemoveKeepsForeign(n, Subjects(s, n), AccountName(ph.cr), ph.cr.meta.ns);
      }
    } else {
      OthersKeepSubjects(st, a, n);
    }
  }

  /** No binding holds a subject of the shape of a grant yet. */
  ghost predicate Ungranted(s: Store) {
    forall n, x :: x in Subjects(s, n) ==> !Grant(n, x)
  }

  lemma {:induction false} ForeignOfUngranted(n: string, subjects: seq<Subject>)
    requires forall x :: x in subjects ==> !Grant(n, x)
    ensures Foreign(n, subjects) == subjects
  {
    if subjects != [] {
      ForeignOfUngranted(n, subjects[..|subjects| - 1]);
      assert subjects == subjects[..|subjects| - 1] + [subjects[|subjects| - 1]];
    }
  }

  /** What all executions keep of the bindings. */
  ghost predicate Orderly(st: State) {
    Accounted(st) && ConsolesPresent(st) && AllClean(st.store)
  }

  lemma OrderlyKept(st: State, a: Action)
    requires Base(st) && Orderly(st) && Enabled(st, a)
    ensures Orderly(Do(st, a))
  {
    hide Do, Base, Owned, Consoled, CleanGrants;
    var st' := Do(st, a);
    forall n, x | x in Subjects(st'.store, n) && Grant(n, x) ensures Owned(st', n, x) || Consoled(st', n, x) {
      AccountedKeptAt(st, a, n, x);
    }
    forall x | x in st'.consoled ensures x in Subjects(st'.store, x.ns + "-" + x.name) {
      ConsolesPresentKeptAt(st, a, x);
    }
    forall n ensures CleanGrants(n, Subjects(st'.store, n)) {
      CleanKeptAt(st, a, n);
    }
  }

  lemma {:induction false} OrderlyFrom(st: State, actions: seq<Action>)
    requires Base(st) && Orderly(st) && Legal(st, actions)
    ensures Orderly(Execute(st, actions))
    ensures forall n :: Foreign(n, Subjects(Execute(st, actions).store, n)) == Foreign(n, Subjects(st.store, n))
    decreases |actions|
  {
    hide Orderly, Base, Do, Enabled, Foreign;
    if actions != [] {
      var a := actions[0];
      BaseKept(st, a);
      OrderlyKept(st, a);
      OrderlyFrom(Do(st, a), actions[1..]);
      forall n ensures Foreign(n, Subjects(Execute(st, actions).store, n)) == Foreign(n, Subjects(st.store, n)) {
        ForeignKeptAt(st, a, n);
      }
    }
  }

  lemma StartIsOrderly(st: State)
    requires Start(st) && Ungranted(st.store)
    ensures Base(st) && Orderly(st)
  {
  }

  /** Gateways never leak: at any moment of any execution every grant in a gateway's binding belongs to a gateway
      that is in the store, still carries its finalizer and has not yet cleaned up. */
  lemma GatewaysNeverLeak(st: State, actions: seq<Action>, n: string, x: Subject)
    requires Start(st) && Ungranted(st.store) && Legal(st, actions)
    requires x in Subjects(Execute(st, actions).store, n) && GatewayGrant(n, x)
    ensures Owned(Execute(st, actions), n, x)
  {
    StartIsOrderly(st);
    OrderlyFrom(st, actions);
    SchemesAreDisjoint(n, x);
    assert Grant(n, x);
  }

  /** The subjects that are not grants are those of the beginning, in their order, and no grant is there twice. */
  lemma ForeignSubjectsStay(st: State, actions: seq<Action>, n: string)
    requires Start(st) && Ungranted(st.store) && Legal(st, actions)
    ensures Foreign(n, Subjects(Execute(st, actions).store, n)) == Subjects(st.store, n)
    ensures CleanGrants(n, Subjects(Execute(st, actions).store, n))
  {
    StartIsOrderly(st);
    OrderlyFrom(st, actions);
    ForeignOfUngranted(n, Subjects(st.store, n));
  }

  // ---- Exact membership ----

  /** No two resources of one kind share account name and namespace. Their bindings may still be the same one. */
  ghost predicate Apart(s: Store) {
    forall k, q :: Holds(s, k) && Holds(s, q) && k.kind == q.kind && k != q ==>
      OwnSubject(Resource(s, k)) != OwnSubject(Resource(s, q))
  }

  ghost predicate AlwaysApart(st: State, actions: seq<Action>)
    requires Legal(st, actions)
    decreases |actions|
  {
    Apart(st.store) && (actions == [] || AlwaysApart(Do(st, actions[0]), actions[1..]))
  }

  /** `k` is alive and its subject is in its binding. */
  ghost predicate Member(s: Store, k: Key) {
    && Holds(s, k)
    && var cr := Resource(s, k);
       !cr.deleting && Finalizer(cr) in cr.finalizers && OwnSubject(cr) in Subjects(s, BindingName(cr))
  }

  ghost predicate AllMembers(st: State) {
    forall k :: k in st.granted ==> IsCRKind(k.kind) && Member(st.store, k)
  }

  lemma BindingNamesTell(a: CR, b: CR)
    requires BindingName(a) == BindingName(b) && OwnSubject(a) == OwnSubject(b)
    ensures a.spec.GatewaySpec? == b.spec.GatewaySpec?
  {
    SchemesAreDisjoint(BindingName(a), OwnSubject(a));
  }

  /** A run never takes the subject of another resource out. */
  lemma MemberThroughCall(st: State, key: Key, c: Choice, k: Key)
    requires Base(st) && Apart(st.store) && InFlight(st, key) && IsCRKind(k.kind) && Member(st.store, k)
    ensures Member(Call(st.store, key, st.runs[key], c).0, k)
  {
    hide Call, RunOk, BindingName, OwnSubject, CleansUp, Rely, KeepsResource;
    var s, ph := st.store, st.runs[key];
    var (s', ph') := Call(s, key, ph, c);
    var cr := Resource(s, k);
    var n := BindingName(cr);
    CallOk(s, key, ph, c);
    NotDropping(s, key, ph);
    if k in st.runs {
      NotDropping(s, k, st.runs[k]);
    }
    CallKeepsOwner(st, key, c, k);
    if key == k {
      CallOnOwnResource(s, k, ph, c);
    } else {
      CallElsewhere(s, key, ph, c, k);
      assert Read(s', k) == Read(s, k);
    }
    CallSubjects(s, key, ph, c, n);
    if Revokes(ph, ph') && n == BindingName(ph.cr) {
      RemoveMembers(Subjects(s, n), AccountName(ph.cr), ph.cr.meta.ns);
      OthersGrant(s, key, ph, k);
    }
  }

  /** A resource that is not being deleted is not dropping its finalizer. */
  lemma NotDropping(s: Store, key: Key, ph: Phase)
    requires RunOk(s, key, ph)
    ensures ph.DropFinalizer? || ph.WriteBinding? ==> Holds(s, key) && Resource(s, key).deleting && Held(s, key, ph.cr)
  {
  }

  /** What a finalizer takes out of a binding it shares with `k` is not the subject of `k`. */
  lemma OthersGrant(s: Store, key: Key, ph: Phase, k: Key)
    requires Sound(s) && ph.WriteBinding? && RunOk(s, key, ph) && Apart(s) && Member(s, k)
    requires BindingName(Resource(s, k)) == BindingName(ph.cr)
    ensures !(OwnSubject(Resource(s, k)).name == AccountName(ph.cr) && OwnSubject(Resource(s, k)).ns == ph.cr.meta.ns)
  {
    assert KeyOf(s.objects[k].obj) == k && KeyOf(s.objects[key].obj) == key;
    assert OwnSubject(Resource(s, key)) == OwnSubject(ph.cr);
    if OwnSubject(Resource(s, k)) == OwnSubject(ph.cr) {
      BindingNamesTell(Resource(s, k), ph.cr);
    }
  }

  /** When the binding is finished the subject is in it. */
  lemma FinishedIsMember(st: State, a: Action)
    requires Base(st) && Enabled(st, a) && CarriedOut(a)
    requires a.key in Do(st, a).granted && a.key !in st.granted
    ensures IsCRKind(a.key.kind) && Member(Do(st, a).store, a.key)
  {
    hide Call, RunOk, FinishedBinding, Required, OnFault, BindingName, OwnSubject;
    var s, ph := st.store, st.runs[a.key];
    JustBoundIsWorking(s, ph);
    JustBoundHasSubject(s, a.key, ph);
    WorkingHeld(s, a.key, ph);
    WorkStore(s, a.key, ph, a.choice);
    CallKeepsOwner(st, a.key, a.choice, a.key);
    SameGrant(Resource(s, a.key), ph.cr);
  }

  lemma SameGrant(a: CR, b: CR)
    requires a.spec.GatewaySpec? == b.spec.GatewaySpec? && AccountName(a) == AccountName(b) && KeyOfCR(a) == KeyOfCR(b)
    ensures BindingName(a) == BindingName(b) && OwnSubject(a) == OwnSubject(b)
  {
  }

  lemma MembersKept(st: State, a: Action)
    requires Base(st) && Apart(st.store) && Enabled(st, a) && AllMembers(st)
    ensures AllMembers(Do(st, a))
  {
    hide Call, RunOk, FinishedBinding, Required, OnFault, Member, Apart;
    var st' := Do(st, a);
    forall k | k in st'.granted ensures IsCRKind(k.kind) && Member(st'.store, k) {
      if CarriedOut(a) {
        if k in st.granted {
          MemberThroughCall(st, a.key, a.choice, k);
        } else {
          FinishedIsMember(st, a);
        }
      } else {
        UserMember(st, a, k);
      }
    }
  }

  lemma UserMember(st: State, a: Action, k: Key)
    requires Base(st) && Enabled(st, a) && !CarriedOut(a) && k in Do(st, a).granted && IsCRKind(k.kind)
    requires Member(st.store, k)
    ensures Member(Do(st, a).store, k)
  {
    hide OnFault, BindingName, OwnSubject, AccountName;
    if !a.Begin? && !a.Fail? {
      UserRely(st, a, k);
      RelyKeepsResource(st.store, Do(st, a).store, k);
      OwnedIsKept(st.store, Do(st, a).store, k);
    }
    OthersKeepSubjects(st, a, BindingName(Resource(st.store, k)));
  }

  lemma {:induction false} MembersFrom(st: State, actions: seq<Action>)
    requires Base(st) && AllMembers(st) && Legal(st, actions) && AlwaysApart(st, actions)
    ensures AllMembers(Execute(st, actions))
    decreases |actions|
  {
    if actions != [] {
      BaseKept(st, actions[0]);
      MembersKept(st, actions[0]);
      MembersFrom(Do(st, actions[0]), actions[1..]);
    }
  }

  lemma {:induction false} CountedOnce(n: string, subjects: seq<Subject>, x: Subject)
    requires CleanGrants(n, subjects) && Grant(n, x) && x in subjects
    ensures multiset(subjects)[x] == 1
  {
    var front, last := subjects[..|subjects| - 1], subjects[|subjects| - 1];
    assert subjects == front + [last];
    assert forall i :: 0 <= i < |front| ==> front[i] == subjects[i];
    if x in front {
      var i :| 0 <= i < |front| && front[i] == x;
      assert subjects[i] != subjects[|subjects| - 1];
      CountedOnce(n, front, x);
    } else {
      assert x !in multiset(front);
    }
  }

  /** The binding is the subjects it had in `before`, in their order, and grants of live resources and of consoles,
      each once. */
  ghost predicate ExactBinding(before: seq<Subject>, now: State, n: string) {
    && Foreign(n, Subjects(now.store, n)) == before
    && forall x :: x in Subjects(now.store, n) && Grant(n, x) ==>
         (Owned(now, n, x) || Consoled(now, n, x)) && multiset(Subjects(now.store, n))[x] == 1
  }

  /** The resource's own subject is in its binding, once. */
  ghost predicate MemberOnce(s: Store, k: Key) {
    Holds(s, k) && multiset(Subjects(s, BindingName(Resource(s, k))))[OwnSubject(Resource(s, k))] == 1
  }

  /** As long as no two live resources of a kind share account and namespace: every binding is the subjects it
      began with, in their order, together with grants of distinct live resources and consoles, and the grant of each
      resource that finished its binding and is not being deleted is there exactly once, even where several
      resources share the binding. */
  lemma ExactMembership(st: State, actions: seq<Action>, n: string, k: Key)
    requires Start(st) && Ungranted(st.store) && Legal(st, actions) && AlwaysApart(st, actions)
    ensures ExactBinding(Subjects(st.store, n), Execute(st, actions), n)
    ensures k in Execute(st, actions).granted ==>
              MemberOnce(Execute(st, actions).store, k) && !LeavingNow(Execute(st, actions).store, k)
  {
    var st' := Execute(st, actions);
    StartIsOrderly(st);
    OrderlyFrom(st, actions);
    ForeignSubjectsStay(st, actions, n);
    MembersFrom(st, actions);
    forall x | x in Subjects(st'.store, n) && Grant(n, x) ensures multiset(Subjects(st'.store, n))[x] == 1 {
      CountedOnce(n, Subjects(st'.store, n), x);
    }
    if k in st'.granted {
      var cr := Resource(st'.store, k);
      CountedOnce(BindingName(cr), Subjects(st'.store, BindingName(cr)), OwnSubject(cr));
    }
  }

  // ---- Whoever finishes its binding is a member ----

  /** A working run with RBAC on still has its binding ahead of it, or its resource is on record, unless the
      resource has been marked deleted meanwhile. */
  ghost predicate RunGranted(st: State, k: Key)
    requires k in st.runs
  {
    var ph := st.runs[k];
    BeforeStatus(ph) && RbacOn(ph.cr) ==>
      k in st.granted || LeavingNow(st.store, k) || (ph.Working? && WillMake(ph.todo, BindingKey(ph.cr)))
  }

  /** The run has not yet got its status update answered. */
  predicate BeforeStatus(ph: Phase) {
    (ph.Working? && ph.later.Some?) || ph.MarkDeployed?
  }

  ghost predicate LeavingNow(s: Store, k: Key) {
    Holds(s, k) && Resource(s, k).deleting
  }

  lemma ProgramBinds(cr: CR, c: Choice)
    requires RbacOn(cr)
    ensures WillMake(Program(cr, c), BindingKey(cr))
  {
    hide Program, Opening, RbacTasks, Closing;
    ProgramShape(cr, c);
    RbacReady(Store(map[], 0), cr);
    WillMakeConcat(Opening(cr, c), RbacTasks(cr), BindingKey(cr));
    WillMakeConcat(Opening(cr, c) + RbacTasks(cr), Closing(cr, c), BindingKey(cr));
  }

  lemma StartAhead(cr: CR, version: nat, c: Choice)
    ensures var ph := StartWork(cr, version, c);
            BeforeStatus(ph) && RbacOn(ph.cr) ==> ph.Working? && WillMake(ph.todo, BindingKey(ph.cr))
  {
    hide Program, ConsoleProgram;
    if RbacOn(cr) {
      ProgramBinds(cr, c);
    }
  }

  lemma StillAhead(cr: CR, version: nat, todo: seq<Task>, console: seq<Task>, step: TaskStep)
    requires todo != [] && WillMake(todo, BindingKey(cr))
    requires Makes(todo[0], BindingKey(cr)) ==>
               (step.More? && Makes(step.task, BindingKey(cr))) || step == Finished(false)
    ensures var ph := AfterTask(cr, version, todo, Some(console), step);
            BeforeStatus(ph) ==> ph.Working? && ph.cr == cr && WillMake(ph.todo, BindingKey(cr))
  {
    hide Makes, BindingName;
    var j :| 0 <= j < |todo| && Makes(todo[j], BindingKey(cr));
    if j > 0 {
      assert todo[1..][j - 1] == todo[j];
    }
    if step.More? {
      WillMakeConcat([step.task], todo[1..], BindingKey(cr));
      assert Makes(todo[0], BindingKey(cr)) ==> Makes([step.task][0], BindingKey(cr));
    }
  }

  /** After the status update there is nothing to show. */
  lemma NotBeforeAgain(s: Store, key: Key, ph: Phase, c: Choice)
    requires (ph.Working? && ph.later.None?) || ph.MarkDeployed?
    ensures !BeforeStatus(Call(s, key, ph, c).1) && (ph.Working? ==> !BeforeStatus(OnFault(ph)))
  {
    hide TaskCall, TaskFault;
  }

  lemma WorkGrants(st: State, key: Key, c: Choice)
    requires Base(st) && InFlight(st, key) && RunGranted(st, key) && st.runs[key].Working? && st.runs[key].later.Some?
    ensures RunGranted(Do(st, Step(key, c)), key)
  {
    hide Call, RunOk, TaskCall, TaskOk, FinishedBinding, Required, BindingName, Makes, NextConsoled, WillMake;
    var s, ph := st.store, st.runs[key];
    WorkOwnTask(s, key, ph);
    WorkingNext(s, key, ph, c);
    AfterTaskCr(ph.cr, ph.version, ph.todo, ph.later, TaskCall(s, ph.todo[0]).1);
    if RbacOn(ph.cr) {
      var (s', step) := TaskCall(s, ph.todo[0]);
      CallOnOwnResource(s, key, ph, c);
      LeavingStays(s, key, ph, c);
      if Makes(ph.todo[0], BindingKey(ph.cr)) {
        TaskMakes(s, ph.cr, ph.todo[0], false, BindingKey(ph.cr));
        BindingStepGrants(st, key, c);
      }
      if WillMake(ph.todo, BindingKey(ph.cr)) && !(Makes(ph.todo[0], BindingKey(ph.cr)) && step == Finished(true)) {
        StillAhead(ph.cr, ph.version, ph.todo, ph.later.value, step);
      }
    }
  }

  lemma AfterTaskCr(cr: CR, version: nat, todo: seq<Task>, later: Option<seq<Task>>, step: TaskStep)
    requires todo != []
    ensures var ph := AfterTask(cr, version, todo, later, step); ph.Working? || ph.MarkDeployed? ==> ph.cr == cr
  {
  }

  lemma WorkingNext(s: Store, key: Key, ph: Phase, c: Choice)
    requires ph.Working? && ph.todo != []
    ensures Call(s, key, ph, c).1 == AfterTask(ph.cr, ph.version, ph.todo, ph.later, TaskCall(s, ph.todo[0]).1)
  {
    hide TaskCall, AfterTask;
  }

  lemma WorkOwnTask(s: Store, key: Key, ph: Phase)
    requires RunOk(s, key, ph) && ph.Working?
    ensures ph.todo != [] && TaskOk(s, ph.cr, ph.todo[0], ph.later.None?) && Held(s, key, ph.cr)
  {
  }

  /** The mark of deletion stays while a run works. */
  lemma LeavingStays(s: Store, key: Key, ph: Phase, c: Choice)
    requires Sound(s) && IsCRKind(key.kind) && RunOk(s, key, ph) && ph.Working?
    ensures LeavingNow(s, key) ==> LeavingNow(Call(s, key, ph, c).0, key)
  {
    hide TaskCall, TaskOk, Held;
    TaskLeavesResources(s, ph.cr, ph.todo[0], ph.later.None?, key);
    assert Read(TaskCall(s, ph.todo[0]).0, key) == Read(s, key);
  }

  lemma BindingStepGrants(st: State, key: Key, c: Choice)
    requires Base(st) && InFlight(st, key) && st.runs[key].Working? && st.runs[key].later.Some?
    requires RbacOn(st.runs[key].cr) && Makes(st.runs[key].todo[0], BindingKey(st.runs[key].cr))
    ensures TaskCall(st.store, st.runs[key].todo[0]).1 == Finished(true) ==>
              key in Do(st, Step(key, c)).granted || LeavingNow(st.store, key)
  {
    hide Held, Required, BindingName, NextConsoled, Perform, Plan;
    var s, ph := st.store, st.runs[key];
    assert RunOk(s, key, ph);
    WorkOwnTask(s, key, ph);
    TaskLeavesResources(s, ph.cr, ph.todo[0], false, key);
    WorkStore(s, key, ph, c);
    HeldHolds(s, key, ph.cr);
    assert Read(TaskCall(s, ph.todo[0]).0, key) == Read(s, key);
  }

  lemma HeldHolds(s: Store, k: Key, cr: CR)
    requires Held(s, k, cr)
    ensures Holds(s, k)
  {
  }

  /** A run starts working with its binding ahead of it. */
  lemma BeginsAhead(s: Store, key: Key, ph: Phase, c: Choice)
    requires !ph.Working? && !ph.MarkDeployed?
    ensures var ph' := Call(s, key, ph, c).1;
            BeforeStatus(ph') && RbacOn(ph'.cr) ==> ph'.Working? && WillMake(ph'.todo, BindingKey(ph'.cr))
  {
    hide StartWork, SetDefaults;
    match ph
    case CheckNamespace(cr, version) => StartAhead(cr, version, c);
    case PersistFinalizer(cr, version) => StartAhead(WithFinalizer(cr), s.next, c);
    case _ =>
  }

  lemma StepGrants(st: State, key: Key, c: Choice)
    requires Base(st) && Enabled(st, Step(key, c)) && RunGranted(st, key)
    ensures RunGranted(Do(st, Step(key, c)), key)
  {
    var ph := st.runs[key];
    if ph.Working? && ph.later.Some? {
      WorkGrants(st, key, c);
    } else if ph.Working? || ph.MarkDeployed? {
      hide Call, RunOk, Required;
      NotBeforeAgain(st.store, key, ph, c);
    } else {
      hide Call, RunOk, Required;
      BeginsAhead(st.store, key, ph, c);
    }
  }

  /** A failed call either ends the run or leaves its binding where it is in the list. */
  lemma FaultGrants(st: State, a: Action)
    requires Base(st) && Enabled(st, a) && (a.Fail? || a.Lose?) && RunGranted(st, a.key)
    ensures RunGranted(Do(st, a), a.key)
  {
    hide Call, RunOk, TaskCall, TaskOk, Required, BindingName, Makes, NextConsoled, WillMake, TaskFault;
    var s, key, ph := st.store, a.key, st.runs[a.key];
    if ph.Working? && ph.later.Some? {
      WorkOwnTask(s, key, ph);
      FaultEndsWrites(s, key, ph, if a.Lose? then a.choice else SomeChoice());
      AfterTaskCr(ph.cr, ph.version, ph.todo, ph.later, TaskFault(ph.todo[0]));
      if WillMake(ph.todo, BindingKey(ph.cr)) {
        if Makes(ph.todo[0], BindingKey(ph.cr)) {
          TaskMakes(s, ph.cr, ph.todo[0], false, BindingKey(ph.cr));
          TaskFaultEnds(ph.todo[0]);
        }
        StillAhead(ph.cr, ph.version, ph.todo, ph.later.value, TaskFault(ph.todo[0]));
      }
    } else if ph.Working? {
      NotBeforeAgain(s, key, ph, SomeChoice());
    }
  }

  lemma TaskFaultEnds(t: Task)
    requires !TaskFault(t).More? && TaskFault(t) != Finished(true)
    ensures TaskFault(t) == Finished(false)
  {
  }

  ghost function SomeChoice(): Choice {
    var none: CD.Orders := CD.Orders((i: nat) => [], (i: nat) => []);
    Choice([], [], none, none, [], [], [])
  }

  ghost predicate AllRunsGranted(st: State) {
    forall k :: k in st.runs ==> RunGranted(st, k)
  }

  lemma RunsGrantedKept(st: State, a: Action)
    requires Base(st) && AllRunsGranted(st) && Enabled(st, a)
    ensures AllRunsGranted(Do(st, a))
  {
    var st' := Do(st, a);
    forall k | k in st'.runs ensures RunGranted(st', k) {
      if (CarriedOut(a) || a.Fail? || a.Begin?) && a.key == k {
        match a
        case Step(_, c) => StepGrants(st, k, c);
        case Fail(_) => FaultGrants(st, a);
        case Lose(_, _) => FaultGrants(st, a);
        case Begin(_) =>
      } else {
        OthersLeaveRunGranted(st, a, k);
      }
    }
  }

  lemma OthersLeaveRunGranted(st: State, a: Action, k: Key)
    requires Base(st) && Enabled(st, a) && k in st.runs && RunGranted(st, k)
    requires (CarriedOut(a) || a.Fail? || a.Begin?) ==> a.key != k
    ensures RunGranted(Do(st, a), k)
  {
    hide Call, OnFault, Required, WillMake, FinishedBinding, NextConsoled;
    if CarriedOut(a) {
      CallElsewhere(st.store, a.key, st.runs[a.key], a.choice, k);
      assert Read(Do(st, a).store, k) == Read(st.store, k);
    } else if a.MarkDeleted? && a.key == k {
      assert RunOk(st.store, k, st.runs[k]);
    }
  }

  lemma {:induction false} RunsGrantedFrom(st: State, actions: seq<Action>)
    requires Base(st) && AllRunsGranted(st) && Legal(st, actions)
    ensures AllRunsGranted(Execute(st, actions))
    decreases |actions|
  {
    if actions != [] {
      BaseKept(st, actions[0]);
      RunsGrantedKept(st, actions[0]);
      RunsGrantedFrom(Do(st, actions[0]), actions[1..]);
    }
  }

  /** A run with RBAC on that is about to mark its resource deployed has its subject in the binding, once,
      unless the resource is being deleted. */
  lemma DeployedMeansMember(st: State, actions: seq<Action>, k: Key)
    requires Start(st) && Ungranted(st.store) && Legal(st, actions) && AlwaysApart(st, actions)
    requires k in Execute(st, actions).runs && Execute(st, actions).runs[k].MarkDeployed?
        && RbacOn(Execute(st, actions).runs[k].cr)
    ensures LeavingNow(Execute(st, actions).store, k) || MemberOnce(Execute(st, actions).store, k)
  {
    var st' := Execute(st, actions);
    BaseAlways(st, actions);
    RunsGrantedFrom(st, actions);
    assert RunGranted(st', k);
    ExactMembership(st, actions, "", k);
  }
}
