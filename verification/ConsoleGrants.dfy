/** When consoles leave grants behind, told from the actions alone, and the rule that keeps them from it. */
module ConsoleGrants {
  import opened Kubernetes
  import opened ApiStore
  import opened Bindings
  import opened Tasks
  import opened Runs
  import opened Protocol
  import opened ProtocolGrants

  // ---- Which grants have no owner ----

  /** By this action a controller's run has its console's subject `x` in the console's binding. */
  predicate PutsIn(st: State, a: Action, x: Subject) {
    && CarriedOut(a) && a.key in st.runs
    && var ph := st.runs[a.key];
       JustBound(st.store, ph) && ph.Working? && ph.later.None? && HasConsole(ph.cr) && ConsoleSubject(ph.cr) == x
  }

  /** By this action the finalizer of a controller with this account takes `x` out. */
  predicate TakesOut(st: State, a: Action, x: Subject) {
    && CarriedOut(a) && a.key in st.runs
    && var ph := st.runs[a.key];
       && Revokes(ph, Call(st.store, a.key, ph, a.choice).1)
       && ph.cr.spec.ControllerSpec? && OwnSubject(ph.cr) == x
  }

  ghost predicate NeverTakenOut(st: State, actions: seq<Action>, x: Subject)
    requires Legal(st, actions)
    decreases |actions|
  {
    actions == [] || (!TakesOut(st, actions[0], x) && NeverTakenOut(Do(st, actions[0]), actions[1..], x))
  }

  /** Some action puts `x` in for a console, and none after it takes it out. */
  ghost predicate LeftIn(st: State, actions: seq<Action>, x: Subject)
    requires Legal(st, actions)
    decreases |actions|
  {
    actions != []
    && var next := Do(st, actions[0]);
       (PutsIn(st, actions[0], x) && NeverTakenOut(next, actions[1..], x)) || LeftIn(next, actions[1..], x)
  }

  lemma RecordOfOne(st: State, a: Action, x: Subject)
    requires Enabled(st, a)
    ensures x in Do(st, a).consoled <==> PutsIn(st, a, x) || (x in st.consoled && !TakesOut(st, a, x))
  {
    hide Call, OnFault, FinishedBinding, Required, OwnSubject;
    if CarriedOut(a) {
      JustBoundIsWorking(st.store, st.runs[a.key]);
    }
  }

  lemma {:induction false} RecordIff(st: State, actions: seq<Action>, x: Subject)
    requires Legal(st, actions)
    ensures x in Execute(st, actions).consoled
            <==> LeftIn(st, actions, x) || (x in st.consoled && NeverTakenOut(st, actions, x))
    decreases |actions|
  {
    hide Do, Enabled, PutsIn, TakesOut;
    if actions != [] {
      RecordOfOne(st, actions[0], x);
      RecordIff(Do(st, actions[0]), actions[1..], x);
    }
  }

  /** What nobody owns is a console's: at any moment of any execution a subject whose account no resource with its
      finalizer has is in a binding as a grant exactly when it is a console's by name, some controller's run has put
      it in for its console, and no controller's finalizer has taken it out since. */
  lemma UnownedIff(st: State, actions: seq<Action>, n: string, x: Subject)
    requires Start(st) && Ungranted(st.store) && Legal(st, actions) && !Owned(Execute(st, actions), n, x)
    ensures x in Subjects(Execute(st, actions).store, n) && Grant(n, x)
            <==> ControllerGrant(n, x) && LeftIn(st, actions, x)
  {
    StartIsOrderly(st);
    OrderlyFrom(st, actions);
    RecordIff(st, actions, x);
    var now := Execute(st, actions);
    hide Owned, Base, LeftIn, Legal, Execute;
    assert x in Subjects(now.store, n) && Grant(n, x) ==> Owned(now, n, x) || Consoled(now, n, x);
    assert Consoled(now, n, x) ==> n == x.ns + "-" + x.name;
  }

  // ---- The rule ----

  /** The rule for users: no console, or one that bears the name of the controller's own account while that
      account has its RBAC on. The console's grant then is the controller's own. */
  predicate OwnConsole(cr: CR) {
    HasConsole(cr) ==> RbacOn(cr) && ConsoleName(cr) == AccountName(cr)
  }

  ghost predicate Ruled(s: Store) {
    forall k :: Holds(s, k) ==> OwnConsole(Resource(s, k))
  }

  /** The users write no controller that breaks the rule. */
  ghost predicate UsersObey(actions: seq<Action>) {
    forall a :: a in actions ==> (a.CreateCR? || a.EditSpec? ==> OwnConsole(a.cr))
  }

  /** A run works on an instance that obeys the rule. */
  predicate RunRuled(ph: Phase) {
    ph.Fetch? || ph.Done? || OwnConsole(ph.cr)
  }

  ghost predicate AllRuled(st: State) {
    forall k :: k in st.runs ==> RunRuled(st.runs[k])
  }

  /** What was put in for a console has an owner. */
  ghost predicate ConsolesOwned(st: State) {
    forall x :: x in st.consoled ==> Owned(st, x.ns + "-" + x.name, x)
  }

  lemma DefaultsKeepRule(cr: CR)
    ensures OwnConsole(SetDefaults(cr)) == OwnConsole(cr)
  {
    DefaultsAgree(cr);
  }

  /** The rule does not look at the marks. */
  lemma MarksKeepRule(cr: CR, cr': CR)
    requires cr' == cr.(finalizers := cr'.finalizers, deployed := cr'.deployed, deleting := cr'.deleting)
    ensures OwnConsole(cr') == OwnConsole(cr)
  {
  }

  lemma AdvanceKeepsRule(cr: CR, version: nat, todo: seq<Task>, later: Option<seq<Task>>)
    requires OwnConsole(cr)
    ensures RunRuled(Advance(cr, version, todo, later))
  {
    hide OwnConsole;
  }

  lemma CallKeepsRule(s: Store, key: Key, ph: Phase, c: Choice)
    requires Ruled(s) && RunRuled(ph)
    ensures RunRuled(Call(s, key, ph, c).1) && RunRuled(OnFault(ph))
  {
    hide OwnConsole, Program, ConsoleProgram, TaskCall, TaskFault, SetDefaults, Advance;
    match ph
    case Fetch =>
      if Holds(s, key) {
        DefaultsKeepRule(Resource(s, key));
      }
    case CheckNamespace(cr, version) => AdvanceKeepsRule(cr, version, Program(cr, c), Some(ConsoleProgram(cr, c)));
    case PersistFinalizer(cr, version) =>
      var cr' := WithFinalizer(cr);
      MarksKeepRule(cr, cr');
      AdvanceKeepsRule(cr', s.next, Program(cr', c), Some(ConsoleProgram(cr', c)));
    case Working(cr, version, todo, later) =>
      if todo != [] {
        AdvanceKeepsRule(cr, version, todo[1..], later);
      }
    case MarkDeployed(cr, version, console) => AdvanceKeepsRule(cr, version, console, None);
    case _ =>
  }

  lemma RuledKept(st: State, a: Action)
    requires Base(st) && AllRuled(st) && Ruled(st.store) && Enabled(st, a)
    ensures AllRuled(Do(st, a))
  {
    hide Call, OnFault, RunOk, Ruled, RunRuled, FinishedBinding, Required;
    var st' := Do(st, a);
    forall k | k in st'.runs ensures RunRuled(st'.runs[k]) {
      if (CarriedOut(a) || a.Fail?) && a.key == k {
        CallKeepsRule(st.store, k, st.runs[k], if CarriedOut(a) then a.choice else SomeChoice());
      } else if a.Begin? && a.key == k {
        FetchIsRuled();
      }
    }
  }

  /** The operator writes a resource back with defaults and finalizer only, which the rule does not look at. */
  lemma StoreStaysRuled(st: State, a: Action)
    requires Base(st) && AllRuled(st) && Ruled(st.store) && Enabled(st, a)
    requires a.CreateCR? || a.EditSpec? ==> OwnConsole(a.cr)
    ensures Ruled(Do(st, a).store)
  {
    hide Call, OnFault, RunOk, FinishedBinding, Required, OwnConsole, RunRuled;
    var s, s' := st.store, Do(st, a).store;
    if CarriedOut(a) {
      forall k | Holds(s', k) ensures OwnConsole(Resource(s', k)) {
        CallKeepsRuled(s, a.key, st.runs[a.key], a.choice, k);
      }
    } else if a.MarkDeleted? {
      MarksKeepRule(Resource(s, a.key), Resource(s, a.key).(deleting := true));
      assert forall k :: Holds(s', k) && k != a.key ==> Holds(s, k) && Resource(s', k) == Resource(s, k);
    } else {
      forall k | Holds(s', k) ensures OwnConsole(Resource(s', k)) {
        if (a.CreateCR? || a.EditSpec?) && k == Scoped(KeyOfCR(a.cr)) {
          assert Resource(s', k) == a.cr;
        } else {
          assert Holds(s, k) && Resource(s', k) == Resource(s, k);
        }
      }
    }
  }

  lemma UpdateKeepsRule(s: Store, cr: CR, cr': CR, version: nat, k: Key)
    requires Sound(s) && OwnConsole(cr) && cr' == cr.(finalizers := cr'.finalizers) && KeyOfCR(cr) == k
    ensures var r := Update(s, CustomResource(cr'), version);
            r.Ok? && Holds(r.value, k) ==> OwnConsole(Resource(r.value, k))
  {
    hide OwnConsole;
    var r := Update(s, CustomResource(cr'), version);
    UpdateEffect(s, CustomResource(cr'), version);
    if r.Ok? && Holds(r.value, k) {
      MarksKeepRule(cr, Resource(r.value, k));
    }
  }

  lemma {:induction false} CallKeepsRuled(s: Store, key: Key, ph: Phase, c: Choice, k: Key)
    requires Sound(s) && IsCRKind(key.kind) && RunOk(s, key, ph) && Ruled(s) && RunRuled(ph)
    requires var s' := Call(s, key, ph, c).0; Holds(s', k)
    ensures OwnConsole(Resource(Call(s, key, ph, c).0, k))
  {
    hide OwnConsole, StartWork, Advance, TaskCall, TaskOk, SetDefaults;
    var s' := Call(s, key, ph, c).0;
    CallOk(s, key, ph, c);
    assert KeyOf(s'.objects[k].obj) == k;
    if k != key {
      CallElsewhere(s, key, ph, c, k);
      assert Read(s', k) == Read(s, k);
    } else {
      match ph
      case PersistFinalizer(cr, version) =>
        UpdateKeepsRule(s, cr, WithFinalizer(cr), version, k);
      case DropFinalizer(cr, version) =>
        UpdateKeepsRule(s, cr, WithoutFinalizer(cr), version, k);
      case MarkDeployed(cr, version, _) =>
        if Holds(s, k) {
          MarksKeepRule(Resource(s, k), Resource(s, k).(deployed := true));
        }
      case WriteBinding(cr, _, existing, version) => UpdateEffect(s, Cleaned(existing, cr), version);
      case Working(cr, _, todo, later) => TaskLeavesResources(s, cr, todo[0], later.None?, k);
      case _ =>
    }
  }

  lemma FetchIsRuled()
    ensures RunRuled(Fetch)
  {
  }

  /** A console's grant that obeys the rule belongs to the resource whose run put it in. */
  lemma NewConsoleIsOwned(st: State, a: Action, x: Subject)
    requires Base(st) && AllRuled(st) && Enabled(st, a) && CarriedOut(a) && x in Do(st, a).consoled && x !in st.consoled
    ensures Owned(Do(st, a), x.ns + "-" + x.name, x)
  {
    hide Call, RunOk, FinishedBinding, Required, OnFault;
    var s, ph := st.store, st.runs[a.key];
    JustBoundIsWorking(s, ph);
    WorkingHeld(s, a.key, ph);
    assert KeyOf(s.objects[a.key].obj) == a.key;
    CallKeepsOwner(st, a.key, a.choice, a.key);
    NeverDropsByFault(ph);
    WorkNeverDrops(s, a.key, ph, a.choice);
    assert RunRuled(ph);
    assert Owns(Do(st, a), a.key, x.ns + "-" + x.name, x);
  }

  lemma ConsolesOwnedKept(st: State, a: Action)
    requires Base(st) && AllRuled(st) && ConsolesOwned(st) && Enabled(st, a)
    ensures ConsolesOwned(Do(st, a))
  {
    hide Do, Base, AllRuled, Owns;
    forall x | x in Do(st, a).consoled ensures Owned(Do(st, a), x.ns + "-" + x.name, x) {
      var n := x.ns + "-" + x.name;
      if x in st.consoled {
        var k :| Owns(st, k, n, x);
        OwnsKept(st, a, k, n, x);
        if !Owns(Do(st, a), k, n, x) {
          RevokedByOwner(st, a, k, n, x);
        }
      } else {
        OnlyCallsConsole(st, a, x);
        NewConsoleIsOwned(st, a, x);
      }
    }
  }

  lemma OnlyCallsConsole(st: State, a: Action, x: Subject)
    requires Enabled(st, a) && x in Do(st, a).consoled && x !in st.consoled
    ensures CarriedOut(a)
  {
    hide Call, OnFault;
  }

  lemma {:induction false} RuledFrom(st: State, actions: seq<Action>)
    requires Base(st) && AllRuled(st) && Ruled(st.store) && ConsolesOwned(st) && Legal(st, actions)
             && UsersObey(actions)
    ensures ConsolesOwned(Execute(st, actions))
    decreases |actions|
  {
    hide Base, Do, Enabled, AllRuled, ConsolesOwned, Ruled, OwnConsole;
    if actions != [] {
      var a := actions[0];
      assert a in actions;
      BaseKept(st, a);
      RuledKept(st, a);
      StoreStaysRuled(st, a);
      ConsolesOwnedKept(st, a);
      RuledFrom(Do(st, a), actions[1..]);
    }
  }

  /** No leaked grants, gateways' and controllers': as long as the users obey the rule about consoles in what they
      write, every grant in every binding belongs at any moment of any execution to a resource that is in the store,
      still carries its finalizer and has not yet cleaned up. */
  lemma NoLeaksEver(st: State, actions: seq<Action>)
    requires Start(st) && Ungranted(st.store) && Ruled(st.store) && Legal(st, actions) && UsersObey(actions)
    ensures NoLeaks(Execute(st, actions))
  {
    var now := Execute(st, actions);
    StartIsOrderly(st);
    OrderlyFrom(st, actions);
    RuledFrom(st, actions);
    hide Owned, Base;
    forall n, x | x in Subjects(now.store, n) && Grant(n, x) ensures Owned(now, n, x) {
      assert Owned(now, n, x) || Consoled(now, n, x);
    }
  }
}
