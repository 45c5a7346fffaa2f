/** Executions from an empty cluster that end as nobody wants: a controller whose console leaks a grant, and two kinds
    of gateway that cannot be deleted. */
module Witnesses {
  import opened Kubernetes
  import opened ApiStore
  import opened Bindings
  import opened Tasks
  import opened Runs
  import opened Protocol
  import opened ProtocolGrants
  import opened SoloRuns
  import opened ControllerPrograms
  import opened ConsoleRuns
  import opened Outcomes
  import CD = ControllerDeployment
  import CT = ControllerTheorems
  import ConfigMaps
  import ConsoleGrants
  import ControllerService
  import Convergence
  import Deletion
  import GatewayChildren
  import GatewayTheorems

  const NO_STORE: Store := Store(map[], 0)

  /** Nothing there, nothing running. */
  const NOTHING: State := State(NO_STORE, map[], {}, {}, {}, map[])

  function ActiveNamespace(ns: string): Obj {
    Namespace(Meta(ns, "", None, map[]), false)
  }

  // ---- A new controller alone in a cluster ----

  function JustCreated(cr: CR): seq<Action> {
    [SetNamespace(ActiveNamespace(cr.meta.ns)), CreateCR(cr)]
  }

  /** The cluster with the namespace and the resource only. */
  function Cluster(cr: CR): Store {
    Put(Put(NO_STORE, ActiveNamespace(cr.meta.ns)), CustomResource(cr))
  }

  lemma ClusterIsThere(cr: CR)
    requires !cr.deleting && !cr.deployed
    ensures Legal(NOTHING, JustCreated(cr)) && Execute(NOTHING, JustCreated(cr)) == NOTHING.(store := Cluster(cr))
    ensures var s, key, nk := Cluster(cr), KeyOfCR(cr), Key(NamespaceKind, "", cr.meta.ns);
            && Sound(s) && s.objects.Keys == {key, nk} && s.objects[key].obj == CustomResource(cr)
            && s.objects[nk].obj == ActiveNamespace(cr.meta.ns)
  {
    var st1 := Do(NOTHING, SetNamespace(ActiveNamespace(cr.meta.ns)));
    assert st1 == NOTHING.(store := Put(NO_STORE, ActiveNamespace(cr.meta.ns)));
    assert JustCreated(cr)[1..] == [CreateCR(cr)] && [CreateCR(cr)][1..] == [];
    assert Do(st1, CreateCR(cr)) == NOTHING.(store := Cluster(cr));
    assert Execute(st1, [CreateCR(cr)]) == Execute(Do(st1, CreateCR(cr)), []);
  }

  lemma NothingIsAStart()
    ensures Start(NOTHING) && Ungranted(NOTHING.store) && Base(NOTHING)
  {
  }

  predicate FreshController(cr: CR) {
    cr.spec.ControllerSpec? && !cr.deleting && !cr.deployed
  }

  /** Both containers have resources, without which the Deployment cannot be built; and with RBAC on the console's
      ClusterRole is not the controller's own, which the check of the key would not let it update. */
  predicate Installable(cr: CR)
    requires cr.spec.ControllerSpec?
  {
    var f := cr.spec.controller;
    && f.controller.resources.Some? && f.pilot.resources.Some?
    && (HasConsole(cr) && RbacOn(cr) ==> ConsoleName(cr) + "-" + cr.meta.ns != ClusterRoleName(cr))
  }

  // ---- Its children can all be made ----

  lemma FrontBuilds(cr: CR, c: Choice)
    requires cr.spec.ControllerSpec?
    ensures forall t :: t in Front(cr, c) ==> Single(t) && Outcome(t, None).Some?
  {
    hide Outcome, Single, RbacTasks;
    forall t | t in Front(cr, c) ensures Single(t) && Outcome(t, None).Some? {
      if t in DefinitionTasks(c) {
        var i :| 0 <= i < |c.manifests| && DefinitionTasks(c)[i] == t;
        DefinitionBuilds(c.manifests[i]);
      } else if t in RbacTasks(cr) {
        RbacBuilds(cr, t);
      } else {
        AccountBuilds(cr);
        ConfigBuilds(cr);
      }
    }
  }

  lemma DefinitionBuilds(m: Manifest)
    ensures Single(DefinitionTask(m)) && Outcome(DefinitionTask(m), None).Some?
  {
  }

  lemma RbacBuilds(cr: CR, t: Task)
    requires t in RbacTasks(cr)
    ensures Single(t) && Outcome(t, None).Some?
  {
  }

  lemma AccountBuilds(cr: CR)
    ensures Single(CreateOnly(AccountObj(cr))) && Outcome(CreateOnly(AccountObj(cr)), None).Some?
  {
  }

  lemma ConfigBuilds(cr: CR)
    ensures Single(ConfigTask(cr)) && Outcome(ConfigTask(cr), None).Some?
  {
    hide ConfigMaps.Data, ConfigMaps.SettledData;
  }

  lemma TailBuilds(cr: CR)
    requires cr.spec.ControllerSpec?
    ensures Single(IngressTask(cr)) && Outcome(IngressTask(cr), None).Some?
    ensures Single(ControllerServiceTask(cr)) && Outcome(ControllerServiceTask(cr), None).Some?
  {
    hide ControllerService.Update;
  }

  lemma DeploymentBuilds(cr: CR, c: Choice, s: Store)
    requires cr.spec.ControllerSpec? && Installable(cr)
    ensures Single(DeployTask(cr, c, s)) && Outcome(DeployTask(cr, c, s), None).Some?
  {
    hide CD.UpdateSpec;
    var b := ControllerBuild(cr);
    DeployTaskKept(cr, c, s);
    CD.PanicsForAnyOrder(EMPTY_SPEC, b, c.first, c.first);
    CD.PanicsForAnyOrder(CD.UpdateSpec(EMPTY_SPEC, b, c.first).value, b, c.second, c.second);
  }

  lemma ChildrenBuild(cr: CR, c: Choice, s: Store)
    requires cr.spec.ControllerSpec? && Installable(cr) && DistinctManifests(c)
    requires forall k :: k in s.objects ==> k.kind == ControllerKind || k.kind == NamespaceKind
    ensures Outcomes.DistinctObjects(Resolved(cr, c, s)) && Outcomes.Completable(Resolved(cr, c, s), s)
  {
    hide Front, DeployTask, IngressTask, ControllerServiceTask, Outcome, Single, Kept, Installable;
    ResolvedIsDistinct(cr, c, s);
    FrontBuilds(cr, c);
    DeploymentBuilds(cr, c, s);
    TailBuilds(cr);
  }

  // ---- Its console's grant ----

  /** Without the rule the console's two cluster-scoped objects are none of the children's. */
  lemma ConsoleStartsApart(cr: CR)
    requires HasConsole(cr) && Installable(cr) && !ConsoleGrants.OwnConsole(cr)
    ensures !ChildKey(cr, ConsoleRoleKey(cr)) && !ChildKey(cr, ConsoleBindingKey(cr))
  {
    BindingsTell(cr.meta.ns, ConsoleName(cr), AccountName(cr));
    hide AccountName;
  }

  lemma NotAChild(cr: CR, c: Choice, s: Store, k: Key)
    requires cr.spec.ControllerSpec? && !ChildKey(cr, k)
    ensures Untouched(Resolved(cr, c, s), k)
  {
    hide Resolved, ChildKey, Single, Kept;
    ChildKeys(cr, c, s);
  }

  /** What the first reconcile leaves: the console's subject in its binding, and the resource with its account. */
  lemma FirstReconcileGrants(cr: CR, c: Choice)
    requires FreshController(cr) && Installable(cr) && DistinctManifests(c) && !ConsoleGrants.OwnConsole(cr)
    ensures var s, key := Reconcile(World(Cluster(cr), []), KeyOfCR(cr), c).0.store, KeyOfCR(cr);
            && ConsoleSubject(cr) in Subjects(s, ConsoleBindingName(cr))
            && Holds(s, key) && SameAccount(Resource(s, key), cr)
  {
    hide SetDefaults, Reconcile, RunTasks, Resolved, ConsoleProgram, Program, Cluster, CT.Persisted, CT.StatusStore,
         ConsoleRoleKey, ConsoleBindingKey, ConsoleGrants.OwnConsole, Installable;
    var s, key := Cluster(cr), KeyOfCR(cr);
    ClusterIsThere(cr);
    DefaultsTwice(cr);
    DefaultsKeep(cr);
    CT.ReconcileIsWork(s, key, c);
    CT.PersistedIsLive(s, key);
    var s1, cr1 := CT.Persisted(s, key), CT.Instance(CT.Persisted(s, key), key);
    SameInstallation(cr, cr1);
    SameKinds(s, s1, key);
    ChildrenBuild(cr1, c, s1);
    CT.WorkUntilMarked(s1, key, c);
    WholeConsole(s1, CT.StatusStore(s1, key, cr1, c), key, cr1, c);
    AccountStays(cr1, CT.StatusStore(s1, key, cr1, c), key);
  }

  lemma SameKinds(s: Store, s1: Store, key: Key)
    requires key.kind == ControllerKind && forall k :: k != key ==> Read(s1, k) == Read(s, k)
    requires forall k :: k in s.objects ==> k.kind == ControllerKind || k.kind == NamespaceKind
    ensures forall k :: k in s1.objects ==> k.kind == ControllerKind || k.kind == NamespaceKind
  {
    forall k | k in s1.objects ensures k.kind == ControllerKind || k.kind == NamespaceKind {
      assert k != key ==> Read(s1, k) == Read(s, k);
    }
  }

  /** As far as grants are concerned. */
  predicate SameAccount(a: CR, b: CR) {
    a.spec.ControllerSpec? == b.spec.ControllerSpec? && AccountName(a) == AccountName(b) && RbacOn(a) == RbacOn(b)
  }

  lemma SameInstallation(cr: CR, cr1: CR)
    requires FreshController(cr)
    requires var d := SetDefaults(cr); cr1 == d || cr1 == WithFinalizer(d)
    ensures cr1.spec.ControllerSpec? && KeyOfCR(cr1) == KeyOfCR(cr) && Installable(cr1) == Installable(cr)
    ensures ConsoleGrants.OwnConsole(cr1) == ConsoleGrants.OwnConsole(cr) && HasConsole(cr1) == HasConsole(cr)
    ensures HasConsole(cr) ==> ConsoleName(cr1) == ConsoleName(cr)
    ensures !ConsoleGrants.OwnConsole(cr) ==> HasConsole(cr)
    ensures SameAccount(cr1, cr)
  {
  }

  lemma AccountStays(cr1: CR, s: Store, key: Key)
    requires CT.Live(s, key) && CT.Instance(s, key) == cr1.(deployed := true)
    ensures SameAccount(Resource(s, key), cr1)
  {
    DefaultsAgree(Resource(s, key));
  }

  lemma WholeConsole(s: Store, s': Store, key: Key, cr: CR, c: Choice)
    requires Sound(s') && HasConsole(cr) && Installable(cr) && !ConsoleGrants.OwnConsole(cr)
             && key.kind == ControllerKind
    requires forall k :: k in s.objects ==> k.kind == ControllerKind || k.kind == NamespaceKind
    requires forall k :: k != key && Untouched(Resolved(cr, c, s), k) ==> Read(s', k) == Read(s, k)
    ensures var s2 := RunTasks(World(s', []), ConsoleProgram(cr, c)).0.store;
            ConsoleSubject(cr) in Subjects(s2, ConsoleBindingName(cr)) && Read(s2, key) == Read(s', key)
  {
    hide RunTasks, Resolved, ConsoleProgram, Untouched, ChildKey, Installable, ConsoleGrants.OwnConsole;
    ConsoleStartsApart(cr);
    NotAChild(cr, c, s, ConsoleRoleKey(cr));
    NotAChild(cr, c, s, ConsoleBindingKey(cr));
    assert Read(s', ConsoleRoleKey(cr)) == Read(s, ConsoleRoleKey(cr));
    assert Read(s', ConsoleBindingKey(cr)) == Read(s, ConsoleBindingKey(cr));
    ConsoleCreatesBinding(World(s', []), cr, c);
    ConsoleLeaves(cr, c, key);
    SoloFrame(World(s', []), ConsoleProgram(cr, c), key);
  }

  /** The execution: create the namespace and the controller, and let it reconcile once. */
  function LeakyActions(cr: CR, c: Choice): seq<Action> {
    JustCreated(cr) + ReconcileActions(Cluster(cr), KeyOfCR(cr), c)
  }

  /** Every new controller that breaks the rule about consoles and can be installed leaks, whatever the orders and the
      manifests: there is an execution from an empty cluster, one complete reconcile with nothing failing, after
      which its console's grant is in a binding and belongs to nobody. */
  lemma ConsolesLeak(cr: CR, c: Choice)
    requires FreshController(cr) && Installable(cr) && DistinctManifests(c) && !ConsoleGrants.OwnConsole(cr)
    ensures Start(NOTHING) && Ungranted(NOTHING.store) && HasConsole(cr)
    ensures var actions := LeakyActions(cr, c);
            && Legal(NOTHING, actions)
            && var now := Execute(NOTHING, actions);
               && ConsoleSubject(cr) in Subjects(now.store, ConsoleBindingName(cr))
               && Grant(ConsoleBindingName(cr), ConsoleSubject(cr))
               && !Owned(now, ConsoleBindingName(cr), ConsoleSubject(cr))
               && !NoLeaks(now)
  {
    var s, key := Cluster(cr), KeyOfCR(cr);
    var st := NOTHING.(store := s);
    NothingIsAStart();
    ClusterIsThere(cr);
    BaseAlways(NOTHING, JustCreated(cr));
    FirstReconcileGrants(cr, c);
    hide Program, ConsoleProgram, SetDefaults, Reconcile, Do, Enabled, Cluster, Steps, Installable, SameAccount;
    ReconcileExecutes(st, key, c);
    LegalAppend(NOTHING, JustCreated(cr), ReconcileActions(s, key, c));
    var now := Execute(NOTHING, LeakyActions(cr, c));
    BaseAlways(st, ReconcileActions(s, key, c));
    NobodyOwns(st, now, cr);
  }

  /** The only resource is the controller, and the grant is not its own. */
  lemma NobodyOwns(st: State, now: State, cr: CR)
    requires FreshController(cr) && !ConsoleGrants.OwnConsole(cr) && Sound(now.store)
             && Undisturbed(st, now, KeyOfCR(cr))
    requires st.store.objects.Keys == {KeyOfCR(cr), Key(NamespaceKind, "", cr.meta.ns)}
    requires Holds(now.store, KeyOfCR(cr)) && SameAccount(Resource(now.store, KeyOfCR(cr)), cr)
    ensures !Owned(now, ConsoleBindingName(cr), ConsoleSubject(cr))
  {
    hide AccountName, RbacOn;
    forall k: Key | IsCRKind(k.kind) && k != KeyOfCR(cr) ensures !Holds(now.store, k) {
      assert Read(now.store, k) == Read(st.store, k);
    }
    forall k ensures !Owns(now, k, ConsoleBindingName(cr), ConsoleSubject(cr)) {
      if Holds(now.store, k) {
        assert KeyOf(now.store.objects[k].obj) == k;
        assert k == KeyOfCR(cr);
      }
    }
  }

  // ---- Exactly when ----

  /** The users create this controller and write nothing else; they may delete it, and anything may fail. */
  ghost predicate NoOtherWrites(actions: seq<Action>) {
    forall a :: a in actions ==> !a.CreateCR? && !a.EditSpec?
  }

  ghost predicate Leaks(cr: CR, actions: seq<Action>) {
    && NoOtherWrites(actions) && Legal(NOTHING, JustCreated(cr) + actions)
    && !NoLeaks(Execute(NOTHING, JustCreated(cr) + actions))
  }

  lemma {:induction false} StepsWriteNothing(s: Store, key: Key, ph: Phase, c: Choice)
    ensures NoOtherWrites(Steps(s, key, ph, c))
    decreases PhaseRank(ph), WorkRank(ph)
  {
    hide Call;
    if !ph.Done? {
      StepsDescend(s, key, ph, c);
      StepsWriteNothing(Call(s, key, ph, c).0, key, Call(s, key, ph, c).1, c);
    }
  }

  /** One new controller in an empty cluster can leak a grant if and only if it breaks the rule: it has a console and
      the console's name is not that of its account, or its RBAC is off. */
  lemma LeaksIff(cr: CR)
    requires FreshController(cr) && Installable(cr)
    ensures (exists actions :: Leaks(cr, actions)) <==> !ConsoleGrants.OwnConsole(cr)
  {
    hide Legal, Execute, NoLeaks, Installable, Steps;
    NothingIsAStart();
    if ConsoleGrants.OwnConsole(cr) {
      forall actions ensures !Leaks(cr, actions) {
        if NoOtherWrites(actions) && Legal(NOTHING, JustCreated(cr) + actions) {
          ConsoleGrants.NoLeaksEver(NOTHING, JustCreated(cr) + actions);
        }
      }
    } else {
      var c := NoManifests();
      ConsolesLeak(cr, c);
      StepsWriteNothing(Cluster(cr), KeyOfCR(cr), Fetch, c);
      assert Leaks(cr, ReconcileActions(Cluster(cr), KeyOfCR(cr), c));
    }
  }

  ghost function NoManifests(): Choice {
    var orders := CD.Orders((i: nat) => [], (i: nat) => []);
    Choice([], [], orders, orders, [], [], [])
  }

  // ---- Gateways that cannot be deleted ----

  lemma LegalFirst(st: State, a: Action, rest: seq<Action>)
    requires Enabled(st, a) && Legal(Do(st, a), rest)
    ensures Legal(st, [a] + rest) && Execute(st, [a] + rest) == Execute(Do(st, a), rest)
  {
    hide Do, Enabled;
    assert ([a] + rest)[1..] == rest;
  }

  /** A new gateway. */
  predicate NewGateway(cr: CR) {
    cr.spec.GatewaySpec? && !cr.deleting && !cr.deployed && cr.finalizers == {}
  }

  /** The state of a cluster in which the user has marked the gateway deleted, and no binding is there. */
  ghost predicate Stuck(s: Store, key: Key) {
    Deletion.Leaving(s, key) && BindingKey(Deletion.Leaver(s, key)) !in s.objects
  }

  lemma MarkingSticks(st: State, key: Key)
    requires Sound(st.store) && Holds(st.store, key) && key.kind == GatewayKind
    requires Resource(st.store, key).spec.GatewaySpec? && Resource(st.store, key).finalizers != {}
    requires Finalizer(Resource(st.store, key)) in Resource(st.store, key).finalizers
    requires forall k :: k in st.store.objects ==> k.kind != ClusterRoleBindingKind
    ensures Enabled(st, MarkDeleted(key)) && Stuck(Do(st, MarkDeleted(key)).store, key)
  {
    assert KeyOf(st.store.objects[key].obj) == key;
  }

  /** Created, and marked deleted after the call behind the finalizer has failed. */
  function CutOffActions(cr: CR, c: Choice): seq<Action> {
    JustCreated(cr) + CutOffRun(KeyOfCR(cr), c)
  }

  function CutOffRun(key: Key, c: Choice): seq<Action> {
    [Begin(key)] + ([Step(key, c)] + ([Step(key, c)] + ([Step(key, c)] + ([Fail(key)] + [MarkDeleted(key)]))))
  }

  /** One failed call is enough to get any gateway there: no attempt changes anything ever after. */
  lemma CutOffGetsStuck(cr: CR, c: Choice, attempts: seq<GatewayTheorems.Attempt>)
    requires NewGateway(cr)
    ensures var key, actions := KeyOfCR(cr), CutOffActions(cr, c);
            && Start(NOTHING) && Legal(NOTHING, actions)
            && var s := Execute(NOTHING, actions).store;
               Stuck(s, key) && GatewayTheorems.Attempts(s, key, attempts) == s
  {
    hide Do, Enabled, Cluster, Stuck;
    NothingIsAStart();
    ClusterIsThere(cr);
    CutOffSteps(cr, c);
    var key := KeyOfCR(cr);
    LegalAppend(NOTHING, JustCreated(cr), CutOffRun(key, c));
    StaysStuck(Execute(NOTHING, CutOffActions(cr, c)).store, key, attempts);
  }

  lemma StaysStuck(s: Store, key: Key, attempts: seq<GatewayTheorems.Attempt>)
    requires Stuck(s, key)
    ensures GatewayTheorems.Attempts(s, key, attempts) == s
  {
    Deletion.DeletionNeverCompletes(s, key, attempts);
  }

  /** Read, namespace, finalizer; then the failure and the deletion. */
  lemma CutOffSteps(cr: CR, c: Choice)
    requires NewGateway(cr)
    ensures var key, st := KeyOfCR(cr), NOTHING.(store := Cluster(cr));
            Legal(st, CutOffRun(key, c)) && Stuck(Execute(st, CutOffRun(key, c)).store, key)
  {
    hide SetDefaults, Cluster, Stuck, Program, ConsoleProgram, Update, OnFetch, OnNamespace;
    var key, s := KeyOfCR(cr), Cluster(cr);
    var st := NOTHING.(store := s);
    ClusterIsThere(cr);
    FirstPhases(cr, c);
    var st1 := Do(st, Begin(key));
    var st2 := QuietStep(st1, key, c);
    var st3 := QuietStep(st2, key, c);
    var st4 := Do(st3, Step(key, c));
    var st5 := Do(st4, Fail(key));
    MarkingSticks(st5, key);
    Replay(st, st1, st2, st3, st4, st5, key, c);
  }

  lemma Replay(st: State, st1: State, st2: State, st3: State, st4: State, st5: State, key: Key, c: Choice)
    requires Enabled(st, Begin(key)) && st1 == Do(st, Begin(key))
    requires Enabled(st1, Step(key, c)) && st2 == Do(st1, Step(key, c))
    requires Enabled(st2, Step(key, c)) && st3 == Do(st2, Step(key, c))
    requires Enabled(st3, Step(key, c)) && st4 == Do(st3, Step(key, c))
    requires Enabled(st4, Fail(key)) && st5 == Do(st4, Fail(key)) && Enabled(st5, MarkDeleted(key))
    ensures Legal(st, CutOffRun(key, c)) && Execute(st, CutOffRun(key, c)) == Do(st5, MarkDeleted(key))
  {
    hide Do, Enabled;
    var st6 := Do(st5, MarkDeleted(key));
    assert Legal(st6, []) && Execute(st6, []) == st6;
    assert [MarkDeleted(key)] + [] == [MarkDeleted(key)];
    LegalFirst(st5, MarkDeleted(key), []);
    LegalFirst(st4, Fail(key), [MarkDeleted(key)]);
    LegalFirst(st3, Step(key, c), [Fail(key)] + [MarkDeleted(key)]);
    LegalFirst(st2, Step(key, c), [Step(key, c)] + ([Fail(key)] + [MarkDeleted(key)]));
    LegalFirst(st1, Step(key, c), [Step(key, c)] + ([Step(key, c)] + ([Fail(key)] + [MarkDeleted(key)])));
    LegalFirst(st, Begin(key),
               [Step(key, c)] + ([Step(key, c)] + ([Step(key, c)] + ([Fail(key)] + [MarkDeleted(key)]))));
  }

  /** A step that only reads. */
  ghost function QuietStep(st: State, key: Key, c: Choice): (st': State)
    requires InFlight(st, key) && (st.runs[key].Fetch? || st.runs[key].CheckNamespace?)
    ensures Enabled(st, Step(key, c)) && st' == Do(st, Step(key, c))
    ensures st'.store == st.store && st'.runs.Keys == st.runs.Keys
    ensures st'.runs[key] == Call(st.store, key, st.runs[key], c).1
  {
    hide Program, ConsoleProgram, OnFetch, OnNamespace;
    Do(st, Step(key, c))
  }

  /** The phases the first three calls of a new gateway lead to, and what the third one writes. */
  lemma FirstPhases(cr: CR, c: Choice)
    requires NewGateway(cr)
    ensures var s, key, d := Cluster(cr), KeyOfCR(cr), SetDefaults(cr);
            && key in s.objects
            && var version := s.objects[key].version;
               && OnFetch(s, key) == CheckNamespace(d, version)
               && OnNamespace(s, d, version, c) == PersistFinalizer(d, version)
               && Persists(s, key, d, version, c)
  {
    var s, key, d := Cluster(cr), KeyOfCR(cr), SetDefaults(cr);
    ClusterIsThere(cr);
    hide Cluster, SetDefaults, Program, ConsoleProgram, Call;
    DefaultsKeep(cr);
    PersistWrites(s, key, cr, d, c);
  }

  /** The finalizer is written and the run goes to work. */
  ghost predicate Persists(s: Store, key: Key, d: CR, version: nat, c: Choice) {
    var (s', ph) := Call(s, key, PersistFinalizer(d, version), c);
    && ph.Working? && ph.todo != [] && ph.todo[0].CreateOnly? && Sound(s') && Holds(s', key)
    && Resource(s', key) == WithFinalizer(d) && d.spec.GatewaySpec?
    && forall k :: k in s'.objects ==> k.kind != ClusterRoleBindingKind
  }

  lemma PersistWrites(s: Store, key: Key, cr: CR, d: CR, c: Choice)
    requires Sound(s) && key == KeyOfCR(cr) && key in s.objects && s.objects[key].obj == CustomResource(cr)
    requires NewGateway(cr) && d == SetDefaults(cr) && KeyOfCR(d) == key && d.spec.GatewaySpec? && !d.deleting
    requires d.finalizers == {} && d.deployed == cr.deployed
    requires forall k :: k in s.objects ==> k.kind != ClusterRoleBindingKind
    ensures Persists(s, key, d, s.objects[key].version, c)
  {
    hide SetDefaults, Program, ConsoleProgram;
    UpdateEffect(s, CustomResource(WithFinalizer(d)), s.objects[key].version);
    var s' := Update(s, CustomResource(WithFinalizer(d)), s.objects[key].version).value;
    forall k | k in s'.objects ensures k.kind != ClusterRoleBindingKind {
      if k != key {
        assert Read(s', k) == Read(s, k);
      }
    }
    FirstTask(WithFinalizer(d), c);
  }

  lemma FirstTask(cr: CR, c: Choice)
    requires cr.spec.GatewaySpec?
    ensures Program(cr, c) != [] && Program(cr, c)[0].CreateOnly?
  {
    hide RbacTasks, ConfigTask, GatewayDeploymentTask, GatewayServiceTask;
    assert Program(cr, c)[0] == CreateOnly(AccountObj(cr));
  }

  /** A gateway whose children can all be built, with RBAC off. */
  predicate QuietGateway(cr: CR) {
    && NewGateway(cr) && cr.rbac == Some(false) && !GatewayChildren.SkywalkingOn(cr.spec.gateway)
    && (cr.spec.gateway.network == "" || cr.meta.labels.Some?)
  }

  /** Created, reconciled once with nothing failing, and marked deleted. */
  function QuietActions(cr: CR, c: Choice): seq<Action> {
    JustCreated(cr) + (ReconcileActions(Cluster(cr), KeyOfCR(cr), c) + [MarkDeleted(KeyOfCR(cr))])
  }

  /** With RBAC off nothing needs to fail: such a gateway is reconciled to the end, and then cannot be deleted. */
  lemma QuietGetsStuck(cr: CR, c: Choice, attempts: seq<GatewayTheorems.Attempt>)
    requires QuietGateway(cr)
    ensures var key, actions := KeyOfCR(cr), QuietActions(cr, c);
            && Start(NOTHING) && Legal(NOTHING, actions)
            && Reconcile(World(Cluster(cr), []), key, c).1
            && var s := Execute(NOTHING, actions).store;
               && Holds(s, key) && Resource(s, key).deployed
               && Stuck(s, key) && GatewayTheorems.Attempts(s, key, attempts) == s
  {
    hide Cluster, Stuck, Reconcile, Steps;
    var key, st := KeyOfCR(cr), NOTHING.(store := Cluster(cr));
    NothingIsAStart();
    ClusterIsThere(cr);
    BaseAlways(NOTHING, JustCreated(cr));
    ReconcileExecutes(st, key, c);
    QuietOutcome(cr, c);
    var st1 := Execute(st, ReconcileActions(Cluster(cr), key, c));
    MarkingSticks(st1, key);
    assert Resource(Do(st1, MarkDeleted(key)).store, key).deployed;
    hide Do, Enabled;
    var st2 := Do(st1, MarkDeleted(key));
    assert [MarkDeleted(key)] + [] == [MarkDeleted(key)];
    assert Legal(st2, []) && Execute(st2, []) == st2;
    LegalFirst(st1, MarkDeleted(key), []);
    LegalAppend(st, ReconcileActions(Cluster(cr), key, c), [MarkDeleted(key)]);
    LegalAppend(NOTHING, JustCreated(cr), ReconcileActions(Cluster(cr), key, c) + [MarkDeleted(key)]);
    StaysStuck(st2.store, key, attempts);
  }

  lemma QuietOutcome(cr: CR, c: Choice)
    requires QuietGateway(cr)
    ensures var (w, ok) := Reconcile(World(Cluster(cr), []), KeyOfCR(cr), c);
            && ok && Sound(w.store) && Holds(w.store, KeyOfCR(cr))
            && var r := Resource(w.store, KeyOfCR(cr));
               && r.spec.GatewaySpec? && r.deployed && Finalizer(r) in r.finalizers
               && forall k :: k in w.store.objects ==> k.kind != ClusterRoleBindingKind
  {
    hide Cluster, Program, SetDefaults, Reconcile, Convergence.Completable, Convergence.Unmanaged;
    var s, key, d := Cluster(cr), KeyOfCR(cr), SetDefaults(cr);
    ClusterIsThere(cr);
    DefaultsKeep(cr);
    QuietDefaults(cr);
    QuietProgram(d, c, s);
    CleanReconcile(s, key, c);
    var s' := Reconcile(World(s, []), key, c).0.store;
    forall k: Key | k.kind == ClusterRoleBindingKind ensures k !in s'.objects {
      assert Object(s', k) == Object(s, k);
    }
  }

  lemma QuietDefaults(cr: CR)
    requires QuietGateway(cr)
    ensures var d := SetDefaults(cr);
            && d.spec.GatewaySpec? && d.rbac == Some(false) && !GatewayChildren.SkywalkingOn(d.spec.gateway)
            && d.spec.gateway.network == cr.spec.gateway.network
  {
  }

  lemma CleanReconcile(s: Store, key: Key, c: Choice)
    requires GatewayTheorems.Live(s, key) && NamespaceActive(s, key.ns)
    requires var todo := Program(GatewayTheorems.Instance(s, key), c);
             Convergence.DistinctTasks(todo) && Convergence.Completable(todo, s)
    ensures var cr, (w, ok) := GatewayTheorems.Instance(s, key), Reconcile(World(s, []), key, c);
            && ok && GatewayTheorems.Live(w.store, key)
            && w.store.objects[key].obj.cr.deployed && Finalizer(cr) in w.store.objects[key].obj.cr.finalizers
            && forall k :: k != key && Convergence.Unmanaged(Program(cr, c), k) ==>
                 Object(w.store, k) == Object(s, k)
  {
    hide Program, SetDefaults, Reconcile, Convergence.Between, Convergence.Completable, Convergence.Unmanaged;
    DefaultsKeep(s.objects[key].obj.cr);
    GatewayTheorems.ReconcileEffect(World(s, []), key, c);
  }

  lemma QuietProgram(d: CR, c: Choice, s: Store)
    requires d.spec.GatewaySpec? && d.rbac == Some(false) && !GatewayChildren.SkywalkingOn(d.spec.gateway)
    requires d.spec.gateway.network == "" || d.meta.labels.Some?
    requires forall k :: k in s.objects ==> k.kind == GatewayKind || k.kind == NamespaceKind
    ensures var todo := Program(d, c);
            && Convergence.DistinctTasks(todo) && Convergence.Completable(todo, s)
            && forall k: Key :: k.kind == ClusterRoleBindingKind ==> Convergence.Unmanaged(todo, k)
  {
    hide Program, ConfigTask, GatewayDeploymentTask, GatewayServiceTask, Convergence.Result, Convergence.Plain;
    Convergence.ProgramIsDistinct(d, c);
    QuietShape(d, c);
    QuietTasks(d, c);
  }

  lemma QuietShape(d: CR, c: Choice)
    requires d.spec.GatewaySpec? && d.rbac == Some(false) && !GatewayChildren.SkywalkingOn(d.spec.gateway)
    ensures Program(d, c) ==
            [CreateOnly(AccountObj(d)), ConfigTask(d), GatewayDeploymentTask(d, c), GatewayServiceTask(d)]
  {
    hide ConfigTask, GatewayDeploymentTask, GatewayServiceTask;
    assert RbacTasks(d) == [];
  }

  lemma QuietTasks(d: CR, c: Choice)
    requires d.spec.GatewaySpec? && (d.spec.gateway.network == "" || d.meta.labels.Some?)
    ensures Built(CreateOnly(AccountObj(d))) && Built(ConfigTask(d))
    ensures Built(GatewayDeploymentTask(d, c)) && Built(GatewayServiceTask(d))
  {
    hide GatewayChildren.DeploymentOf, GatewayChildren.ServiceOf, ConfigMaps.Data, ConfigMaps.SettledData;
  }

  /** A task for an object that is no binding, and can be built from nothing. */
  predicate Built(t: Task) {
    && Convergence.Plain(t) && !t.Crash? && Convergence.Result(t, None).Some?
    && Convergence.Managed(t).kind in {ServiceAccountKind, ConfigMapKind, DeploymentKind, ServiceKind}
  }
}
