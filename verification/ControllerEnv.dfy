/** Environment generation for the controller and pilot containers: the generated list replaces the
    stored one only when a desired variable is missing or has another value, so that Go's random map
    iteration does not by itself change the Deployment. */
module ControllerEnv {
  import opened Kubernetes

  type Order = seq<string>

  /** The map the code fills from a list: later entries of a name overwrite earlier ones. */
  function LastValues(env: seq<EnvVar>): map<string, string> {
    if env == [] then map[]
    else var last := env[|env| - 1]; LastValues(env[..|env| - 1])[last.name := last.value]
  }

  /** Reading an absent key of a Go map yields the empty string. */
  function Lookup(m: map<string, string>, name: string): string {
    if name in m then m[name] else ""
  }

  /** One way in which Go may range over the map: every key, once. */
  ghost predicate IsOrder(order: Order, user: map<string, string>) {
    && (forall k :: k in order <==> k in user)
    && (forall i, j :: 0 <= i < j < |order| ==> order[i] != order[j])
  }

  function UserEnv(user: map<string, string>, order: Order): seq<EnvVar>
  {
    seq(|order|, i requires 0 <= i < |order| => EnvVar(order[i], Lookup(user, order[i]), ""))
  }

  function Desired(builtin: seq<EnvVar>, user: map<string, string>, order: Order): seq<EnvVar> {
    builtin + UserEnv(user, order)
  }

  /** `e` needs no change: the stored value matches, and a required name is really there. */
  predicate Matches(e: EnvVar, stored: map<string, string>, required: set<string>) {
    Lookup(stored, e.name) == e.value && (e.name in required ==> e.name in stored)
  }

  predicate Settled(desired: seq<EnvVar>, prior: seq<EnvVar>, required: set<string>) {
    forall i | 0 <= i < |desired| :: Matches(desired[i], LastValues(prior), required)
  }

  function Generate(builtin: seq<EnvVar>, required: set<string>, user: map<string, string>, order: Order,
      prior: seq<EnvVar>)
    : seq<EnvVar>
  {
    var desired := Desired(builtin, user, order);
    if Settled(desired, prior, required) then prior else desired
  }

  // ---- The two lists of built-in variables ----

  function ControllerBuiltin(): seq<EnvVar> {
    [EnvVar("POD_NAMESPACE", "", "metadata.namespace"), EnvVar("POD_NAME", "", "metadata.name")]
  }

  const CONTROLLER_REQUIRED: set<string> := {"POD_NAMESPACE", "POD_NAME"}

  function FormatBool(b: bool): string {
    if b then "true" else "false"
  }

  /** The variables that are always there. */
  function PilotFixed(f: ControllerFields): seq<EnvVar> {
    [ EnvVar("HIGRESS_CONTROLLER_SVC", "127.0.0.1", ""),
      EnvVar("HIGRESS_CONTROLLER_PORT", "15051", ""),
      EnvVar("REVISION", "default", ""),
      EnvVar("JWT_POLICY", f.jwtPolicy, ""),
      EnvVar("PILOT_CERT_PROVIDER", "istiod", ""),
      EnvVar("POD_NAMESPACE", "", "metadata.namespace"),
      EnvVar("POD_NAME", "", "metadata.name"),
      EnvVar("SERVICE_ACCOUNT", "", "spec.serviceAccountName"),
      EnvVar("KUBECONFIG", "/var/run/secrets/remote/config", ""),
      EnvVar("PRIORITIZED_LEADER_ELECTION", "false", ""),
      EnvVar("INJECT_ENABLE", "false", ""),
      EnvVar("PILOT_ENABLE_PROTOCOL_SNIFFING_FOR_OUTBOUND", FormatBool(f.sniffOutbound), ""),
      EnvVar("PILOT_ENABLE_PROTOCOL_SNIFFING_FOR_INBOUND", FormatBool(f.sniffInbound), "") ]
  }

  function PilotAddress(ns: string, f: ControllerFields): EnvVar {
    EnvVar("ISTIOD_ADDR",
           if f.revision != "" then "istiod-" + f.revision + "." + ns + ".svc:15012"
           else "istiod." + ns + ".svc:15012", "")
  }

  function PilotTrace(f: ControllerFields): seq<EnvVar> {
    if f.traceSampling != "" then [EnvVar("PILOT_TRACE_SAMPLING", f.traceSampling, "")] else []
  }

  function PilotAnalysis(f: ControllerFields): seq<EnvVar> {
    match f.istiodAnalysis case Some(b) => [EnvVar("PILOT_ENABLE_ANALYSIS", FormatBool(b), "")] case None => []
  }

  function PilotLast(f: ControllerFields): seq<EnvVar> {
    [ EnvVar("CLUSTER_ID", match f.cluster case Some(name) => name case None => "Kubernetes", ""),
      EnvVar("HIGRESS_ENABLE_ISTIO_API", FormatBool(f.istioAPI), "") ]
    + (if !f.istio then [EnvVar("CUSTOM_CA_CERT_NAME", "higress-ca-root-cert", "")] else [])
  }

  function PilotBuiltin(ns: string, f: ControllerFields): seq<EnvVar> {
    PilotFixed(f) + PilotTrace(f) + [PilotAddress(ns, f)] + PilotAnalysis(f) + PilotLast(f)
  }

  function GenControllerEnv(f: ControllerFields, order: Order, prior: seq<EnvVar>): seq<EnvVar> {
    Generate(ControllerBuiltin(), CONTROLLER_REQUIRED, f.controller.env, order, prior)
  }

  function GenPilotEnv(ns: string, f: ControllerFields, order: Order, prior: seq<EnvVar>): seq<EnvVar> {
    Generate(PilotBuiltin(ns, f), {}, f.pilot.env, order, prior)
  }

  // ---- The loops of the source ----

  /** The loop that fills the map of stored values. */
  method ReadStored(prior: seq<EnvVar>) returns (stored: map<string, string>)
    ensures stored == LastValues(prior)
  {
    stored := map[];
    for i := 0 to |prior|
      invariant stored == LastValues(prior[..i])
    {
      assert prior[..i + 1][..i] == prior[..i];
      stored := stored[prior[i].name := prior[i].value];
    }
    assert prior[..|prior|] == prior;
  }

  /** Appends the user's variables in iteration order and decides whether anything changed. */
  method AppendAndDetect(builtin: seq<EnvVar>, required: set<string>, user: map<string, string>, order: Order,
      prior: seq<EnvVar>)
    returns (env: seq<EnvVar>)
    requires IsOrder(order, user)
    ensures env == Generate(builtin, required, user, order, prior)
  {
    var stored := ReadStored(prior);
    var envs := builtin;
    for i := 0 to |order|
      invariant envs == builtin + UserEnv(user, order)[..i]
    {
      envs := envs + [EnvVar(order[i], user[order[i]], "")];
    }
    assert envs == Desired(builtin, user, order);
    for i := 0 to |envs|
      invariant forall j | 0 <= j < i :: Matches(envs[j], stored, required)
    {
      var e := envs[i];
      if Lookup(stored, e.name) != e.value {
        return envs;
      }
      if e.name in required && e.name !in stored {
        return envs;
      }
    }
    return prior;
  }

  // ---- Facts about the lookup ----

  lemma {:induction false} LastValuesDomain(env: seq<EnvVar>, name: string)
    ensures name in LastValues(env) <==> exists i :: 0 <= i < |env| && env[i].name == name
  {
    if env != [] {
      LastValuesDomain(env[..|env| - 1], name);
      if exists i :: 0 <= i < |env| && env[i].name == name {
        var i :| 0 <= i < |env| && env[i].name == name;
        if i < |env| - 1 {
          assert env[..|env| - 1][i].name == name;
        }
      }
    }
  }

  /** If the last entries from `i` on bear other names, entry `i` decides the lookup. */
  lemma {:induction false} LastEntryWins(env: seq<EnvVar>, i: nat)
    requires i < |env| && forall j :: i < j < |env| ==> env[j].name != env[i].name
    ensures env[i].name in LastValues(env) && LastValues(env)[env[i].name] == env[i].value
  {
    if i < |env| - 1 {
      LastEntryWins(env[..|env| - 1], i);
    }
  }

  /** All entries of a name carry the same value. */
  ghost predicate Unambiguous(env: seq<EnvVar>) {
    forall i, j :: 0 <= i < |env| && 0 <= j < |env| && env[i].name == env[j].name ==> env[i].value == env[j].value
  }

  lemma {:induction false} UnambiguousLookup(env: seq<EnvVar>, i: nat)
    requires i < |env| && Unambiguous(env)
    ensures env[i].name in LastValues(env) && LastValues(env)[env[i].name] == env[i].value
  {
    var front := env[..|env| - 1];
    if i < |env| - 1 {
      assert Unambiguous(front);
      UnambiguousLookup(front, i);
    }
  }

  // ---- The decision does not depend on the order ----

  lemma UserEnvEntry(user: map<string, string>, p: Order, i: nat, q: Order) returns (j: nat)
    requires IsOrder(p, user) && IsOrder(q, user) && i < |p|
    ensures j < |q| && UserEnv(user, q)[j] == UserEnv(user, p)[i]
  {
    assert p[i] in q;
    j :| 0 <= j < |q| && q[j] == p[i];
  }

  lemma DesiredEntry(builtin: seq<EnvVar>, user: map<string, string>, p: Order, i: nat, q: Order) returns (j: nat)
    requires IsOrder(p, user) && IsOrder(q, user) && i < |builtin| + |p|
    ensures j < |Desired(builtin, user, q)| && Desired(builtin, user, q)[j] == Desired(builtin, user, p)[i]
  {
    if i < |builtin| {
      j := i;
    } else {
      var k := UserEnvEntry(user, p, i - |builtin|, q);
      j := |builtin| + k;
    }
  }

  /** Keeping or replacing the stored list is the same decision for every iteration order. */
  lemma DecisionIsOrderIndependent(builtin: seq<EnvVar>, required: set<string>, user: map<string, string>, p: Order,
      q: Order, prior: seq<EnvVar>)
    requires IsOrder(p, user) && IsOrder(q, user)
    ensures Settled(Desired(builtin, user, p), prior, required) <==> Settled(Desired(builtin, user, q), prior, required)
  {
    if Settled(Desired(builtin, user, q), prior, required) {
      SettledTransfers(builtin, required, user, p, q, prior);
    }
    if Settled(Desired(builtin, user, p), prior, required) {
      SettledTransfers(builtin, required, user, q, p, prior);
    }
  }

  lemma SettledTransfers(builtin: seq<EnvVar>, required: set<string>, user: map<string, string>, p: Order, q: Order,
      prior: seq<EnvVar>)
    requires IsOrder(p, user) && IsOrder(q, user) && Settled(Desired(builtin, user, q), prior, required)
    ensures Settled(Desired(builtin, user, p), prior, required)
  {
    var dp := Desired(builtin, user, p);
    forall i | 0 <= i < |dp| ensures Matches(dp[i], LastValues(prior), required) {
      var j := DesiredEntry(builtin, user, p, i, q);
    }
  }

  // ---- Coverage ----

  /** What the user or, failing that, the operator wants `name` to be. */
  ghost function Wanted(builtin: seq<EnvVar>, user: map<string, string>, name: string): string {
    if name in user then user[name] else Lookup(LastValues(builtin), name)
  }

  lemma {:induction false} DesiredLookup(builtin: seq<EnvVar>, user: map<string, string>, order: Order, name: string)
    requires IsOrder(order, user)
    ensures Lookup(LastValues(Desired(builtin, user, order)), name) == Wanted(builtin, user, name)
  {
    var env := Desired(builtin, user, order);
    if name in user {
      assert name in order;
      var i :| 0 <= i < |order| && order[i] == name;
      LastEntryWins(env, |builtin| + i);
    } else {
      DropSuffix(builtin, UserEnv(user, order), name);
    }
  }

  lemma {:induction false} DropSuffix(a: seq<EnvVar>, b: seq<EnvVar>, name: string)
    requires forall i :: 0 <= i < |b| ==> b[i].name != name
    ensures Lookup(LastValues(a + b), name) == Lookup(LastValues(a), name)
  {
    if b == [] {
      assert a + b == a;
    } else {
      assert (a + b)[..|a + b| - 1] == a + b[..|b| - 1];
      DropSuffix(a, b[..|b| - 1], name);
    }
  }

  /** Whatever was stored and however the map was iterated, every variable wanted with a non-empty value
      has that value in the generated list; a user's variable always wins over a built-in one. */
  lemma GeneratedCovers(builtin: seq<EnvVar>, required: set<string>, user: map<string, string>, order: Order,
      prior: seq<EnvVar>, name: string)
    requires IsOrder(order, user)
    ensures var env := Generate(builtin, required, user, order, prior);
            var wanted := Wanted(builtin, user, name);
            wanted != "" ==> name in LastValues(env) && LastValues(env)[name] == wanted
  {
    var desired := Desired(builtin, user, order);
    DesiredLookup(builtin, user, order, name);
    if Settled(desired, prior, required) && Wanted(builtin, user, name) != "" {
      LastValuesWitness(desired, name);
    }
  }

  lemma {:induction false} LastValuesWitness(env: seq<EnvVar>, name: string)
    requires name in LastValues(env)
    ensures exists i :: 0 <= i < |env| && env[i].name == name && env[i].value == LastValues(env)[name]
  {
    var n := |env| - 1;
    if env[n].name != name {
      LastValuesWitness(env[..n], name);
      var i :| 0 <= i < n && env[..n][i].name == name && env[..n][i].value == LastValues(env[..n])[name];
      assert env[i].name == name && env[i].value == LastValues(env)[name];
    }
  }

  // ---- What the variables of one instance are ----

  /** What a consumer of the list finds under a name: the last entry's value, or nothing. */
  function Found(env: seq<EnvVar>, name: string): string {
    Lookup(LastValues(env), name)
  }

  /** The user's value if the user gives one, else the value named here. */
  predicate Shows(env: seq<EnvVar>, user: map<string, string>, name: string, value: string) {
    Found(env, name) == if name in user then user[name] else value
  }

  /** The length and the first letter tell the operator's own names apart. */
  function Tag(name: string): int {
    if name == "" then 0 else 1000 * |name| + name[0] as int
  }

  /** A list in which every wanted variable is the last of its name. */
  lemma DesiredShows(builtin: seq<EnvVar>, user: map<string, string>, order: Order, e: EnvVar)
    requires IsOrder(order, user) && Unambiguous(builtin) && e in builtin
    ensures Shows(Desired(builtin, user, order), user, e.name, e.value) && e in Desired(builtin, user, order)
  {
    var i :| 0 <= i < |builtin| && builtin[i] == e;
    UnambiguousLookup(builtin, i);
    DesiredLookup(builtin, user, order, e.name);
    assert Desired(builtin, user, order)[i] == e;
  }

  /** Whatever was stored, the list generated has every wanted variable with the value wanted. */
  lemma GeneratedFinds(builtin: seq<EnvVar>, required: set<string>, user: map<string, string>, order: Order,
      prior: seq<EnvVar>, e: EnvVar)
    requires IsOrder(order, user) && Unambiguous(builtin) && e in builtin && e.name !in user
    ensures Found(Generate(builtin, required, user, order, prior), e.name) == e.value
  {
    var i :| 0 <= i < |builtin| && builtin[i] == e;
    UnambiguousLookup(builtin, i);
    DesiredLookup(builtin, user, order, e.name);
    assert Desired(builtin, user, order)[i] == e;
  }

  lemma GeneratedFindsUser(builtin: seq<EnvVar>, required: set<string>, user: map<string, string>, order: Order,
      prior: seq<EnvVar>, name: string)
    requires IsOrder(order, user) && name in user
    ensures Found(Generate(builtin, required, user, order, prior), name) == user[name]
  {
    DesiredLookup(builtin, user, order, name);
    assert name in order;
    var i :| 0 <= i < |order| && order[i] == name;
    assert Desired(builtin, user, order)[|builtin| + i] == EnvVar(name, user[name], "");
  }

  // ---- The fixed point, and exactly when it holds ----

  /** No variable is wanted with two values. */
  ghost predicate Consistent(builtin: seq<EnvVar>, user: map<string, string>) {
    && Unambiguous(builtin)
    && (forall i :: 0 <= i < |builtin| && builtin[i].name in user ==> user[builtin[i].name] == builtin[i].value)
  }

  /** The guard under which regeneration is stable: no conflict, or only one possible order. */
  ghost predicate Stable(builtin: seq<EnvVar>, user: map<string, string>) {
    Consistent(builtin, user) || |user| <= 1
  }

  lemma ConsistentIsUnambiguous(builtin: seq<EnvVar>, user: map<string, string>, order: Order)
    requires IsOrder(order, user)
    ensures Consistent(builtin, user) <==> Unambiguous(Desired(builtin, user, order))
  {
    var env := Desired(builtin, user, order);
    if Consistent(builtin, user) {
      forall i, j | 0 <= i < |env| && 0 <= j < |env| && env[i].name == env[j].name
        ensures env[i].value == env[j].value
      {
        assert j >= |builtin| ==> env[j].name in user;
        assert i >= |builtin| ==> env[i].name in user;
      }
    }
    if Unambiguous(env) {
      forall i, j | 0 <= i < |builtin| && 0 <= j < |builtin| && builtin[i].name == builtin[j].name
        ensures builtin[i].value == builtin[j].value
      {
        assert env[i] == builtin[i] && env[j] == builtin[j];
      }
      forall i | 0 <= i < |builtin| && builtin[i].name in user
        ensures user[builtin[i].name] == builtin[i].value
      {
        assert builtin[i].name in order;
        var k :| 0 <= k < |order| && order[k] == builtin[i].name;
        assert env[|builtin| + k].name == env[i].name;
      }
    }
  }

  lemma AtMostOneOrder(user: map<string, string>, p: Order, q: Order)
    requires IsOrder(p, user) && IsOrder(q, user) && |user| <= 1
    ensures p == q
  {
    OrderLength(user, p);
    OrderLength(user, q);
    if |p| == 1 {
      assert p[0] in p && q[0] in q;
      assert |user.Keys - {p[0]}| == 0;
    }
  }

  /** Regenerating from a list that was generated with any other order returns that list. */
  lemma RegenerationIsStable(builtin: seq<EnvVar>, required: set<string>, user: map<string, string>, p: Order,
      q: Order, prior: seq<EnvVar>)
    requires Stable(builtin, user) && IsOrder(p, user) && IsOrder(q, user)
    ensures var env := Generate(builtin, required, user, p, prior); Generate(builtin, required, user, q, env) == env
  {
    var dp := Desired(builtin, user, p);
    DecisionIsOrderIndependent(builtin, required, user, p, q, prior);
    if Consistent(builtin, user) {
      ConsistentIsUnambiguous(builtin, user, p);
      forall i | 0 <= i < |dp| ensures Matches(dp[i], LastValues(dp), required) {
        UnambiguousLookup(dp, i);
      }
      DecisionIsOrderIndependent(builtin, required, user, p, q, dp);
    } else {
      AtMostOneOrder(user, p, q);
    }
  }

  lemma {:induction false} SomeOrder(user: map<string, string>) returns (p: Order)
    ensures IsOrder(p, user)
    decreases |user|
  {
    if user.Keys == {} {
      p := [];
    } else {
      var k :| k in user.Keys;
      var rest := user - {k};
      assert rest.Keys == user.Keys - {k};
      assert |rest.Keys| < |user.Keys|;
      p := SomeOrder(rest);
      assert k !in p;
      p := [k] + p;
    }
  }

  lemma TwoOrders(user: map<string, string>) returns (p: Order, q: Order)
    requires |user| > 1
    ensures IsOrder(p, user) && IsOrder(q, user) && p != q
  {
    p := SomeOrder(user);
    OrderLength(user, p);
    q := [p[1], p[0]] + p[2..];
    assert p == [p[0], p[1]] + p[2..];
    assert q[0] != p[0];
    forall k ensures k in q <==> k in user {
      assert k in p <==> k == p[0] || k == p[1] || k in p[2..];
    }
    SwapKeepsDistinct(p, q);
  }

  lemma SwapKeepsDistinct(p: Order, q: Order)
    requires |p| == |q| >= 2 && q[0] == p[1] && q[1] == p[0] && (forall i :: 2 <= i < |p| ==> q[i] == p[i])
    requires forall i, j :: 0 <= i < j < |p| ==> p[i] != p[j]
    ensures forall i, j :: 0 <= i < j < |q| ==> q[i] != q[j]
  {
  }

  lemma {:induction false} OrderLength(user: map<string, string>, p: Order)
    requires IsOrder(p, user)
    ensures |p| == |user|
    decreases |p|
  {
    if p == [] {
      assert user.Keys == {};
    } else {
      assert p[0] in p;
      var rest := user - {p[0]};
      assert forall k :: k in p <==> k == p[0] || k in p[1..];
      OrderLength(rest, p[1..]);
      assert user.Keys == rest.Keys + {p[0]};
    }
  }

  lemma AmbiguousNeverSettles(desired: seq<EnvVar>, prior: seq<EnvVar>, required: set<string>)
    requires !Unambiguous(desired)
    ensures !Settled(desired, prior, required)
  {
    var i, j :| 0 <= i < |desired| && 0 <= j < |desired| && desired[i].name == desired[j].name
        && desired[i].value != desired[j].value;
    assert !Matches(desired[i], LastValues(prior), required) || !Matches(desired[j], LastValues(prior), required);
  }

  lemma DifferentOrdersDiffer(builtin: seq<EnvVar>, user: map<string, string>, p: Order, q: Order)
    requires Desired(builtin, user, p) == Desired(builtin, user, q)
    ensures p == q
  {
    var dp, dq := Desired(builtin, user, p), Desired(builtin, user, q);
    assert |dp| == |builtin| + |p| && |dq| == |builtin| + |q|;
    forall i | 0 <= i < |p| ensures p[i] == q[i] {
      assert dp[|builtin| + i] == dq[|builtin| + i];
    }
  }

  /** Random iteration never causes an update, whatever was stored, if and only if no variable is wanted
      with two values or the user's map has at most one entry. */
  lemma RegenerationIsStableIff(builtin: seq<EnvVar>, required: set<string>, user: map<string, string>)
    ensures Stable(builtin, user) <==>
            forall p, q, prior :: IsOrder(p, user) && IsOrder(q, user) ==>
              Generate(builtin, required, user, q, Generate(builtin, required, user, p, prior))
              == Generate(builtin, required, user, p, prior)
  {
    if Stable(builtin, user) {
      forall p, q, prior | IsOrder(p, user) && IsOrder(q, user)
        ensures Generate(builtin, required, user, q, Generate(builtin, required, user, p, prior))
             == Generate(builtin, required, user, p, prior)
      {
        RegenerationIsStable(builtin, required, user, p, q, prior);
      }
    } else {
      var p, q := TwoOrders(user);
      ConsistentIsUnambiguous(builtin, user, p);
      ConsistentIsUnambiguous(builtin, user, q);
      AmbiguousNeverSettles(Desired(builtin, user, p), [], required);
      var env := Generate(builtin, required, user, p, []);
      AmbiguousNeverSettles(Desired(builtin, user, q), env, required);
      if Generate(builtin, required, user, q, env) == env {
        DifferentOrdersDiffer(builtin, user, p, q);
      }
    }
  }

  /** Nothing wanted, nothing changed: the decision keeps the stored list exactly when generating
      returns it, for one order and so for all. */
  lemma KeptIff(builtin: seq<EnvVar>, required: set<string>, user: map<string, string>, p: Order, q: Order,
      prior: seq<EnvVar>)
    requires Stable(builtin, user) && IsOrder(p, user) && IsOrder(q, user)
    ensures Generate(builtin, required, user, p, prior) == prior
            <==> Generate(builtin, required, user, q, prior) == prior
  {
    DecisionIsOrderIndependent(builtin, required, user, p, q, prior);
    RegenerationIsStable(builtin, required, user, p, q, prior);
    RegenerationIsStable(builtin, required, user, q, p, prior);
  }
}
