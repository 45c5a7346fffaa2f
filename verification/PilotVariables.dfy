/** What the pilot's and the controller's containers find in their environment, name by name. */
module PilotVariables {
  import opened Kubernetes
  import opened ControllerEnv

  lemma FixedTags()
    ensures Tag("HIGRESS_CONTROLLER_SVC") == 22072 && Tag("HIGRESS_CONTROLLER_PORT") == 23072
    ensures Tag("REVISION") == 8082 && Tag("JWT_POLICY") == 10074 && Tag("PILOT_CERT_PROVIDER") == 19080
    ensures Tag("POD_NAMESPACE") == 13080 && Tag("POD_NAME") == 8080 && Tag("SERVICE_ACCOUNT") == 15083
    ensures Tag("KUBECONFIG") == 10075 && Tag("PRIORITIZED_LEADER_ELECTION") == 27080 && Tag("INJECT_ENABLE") == 13073
  {
  }

  lemma DerivedTags()
    ensures Tag("PILOT_ENABLE_PROTOCOL_SNIFFING_FOR_OUTBOUND") == 43080
    ensures Tag("PILOT_ENABLE_PROTOCOL_SNIFFING_FOR_INBOUND") == 42080
    ensures Tag("PILOT_TRACE_SAMPLING") == 20080 && Tag("ISTIOD_ADDR") == 11073 && Tag("PILOT_ENABLE_ANALYSIS") == 21080
    ensures Tag("CLUSTER_ID") == 10067 && Tag("HIGRESS_ENABLE_ISTIO_API") == 24072
            && Tag("CUSTOM_CA_CERT_NAME") == 19067
  {
  }

  lemma FixedEntries(f: ControllerFields)
    ensures var env := PilotFixed(f);
            && |env| == 13 && Tag(env[0].name) == 22072 && Tag(env[1].name) == 23072 && Tag(env[2].name) == 8082
            && Tag(env[3].name) == 10074 && Tag(env[4].name) == 19080 && Tag(env[5].name) == 13080
            && Tag(env[6].name) == 8080 && Tag(env[7].name) == 15083 && Tag(env[8].name) == 10075
            && Tag(env[9].name) == 27080 && Tag(env[10].name) == 13073 && Tag(env[11].name) == 43080
            && Tag(env[12].name) == 42080
  {
    hide FormatBool, Tag;
    FixedTags();
    DerivedTags();
  }

  lemma OtherEntries(ns: string, f: ControllerFields)
    ensures forall e :: e in PilotTrace(f) ==> Tag(e.name) == 20080
    ensures Tag(PilotAddress(ns, f).name) == 11073
    ensures forall e :: e in PilotAnalysis(f) ==> Tag(e.name) == 21080
    ensures var env := PilotLast(f);
            && 2 <= |env| <= 3 && Tag(env[0].name) == 10067 && Tag(env[1].name) == 24072
            && (|env| == 3 ==> Tag(env[2].name) == 19067)
    ensures |PilotTrace(f)| <= 1 && |PilotAnalysis(f)| <= 1
  {
    hide FormatBool, Tag;
    DerivedTags();
  }

  /** No name occurs twice among the pilot's own variables. */
  lemma PilotNamesDiffer(ns: string, f: ControllerFields)
    ensures var env := PilotBuiltin(ns, f);
            forall i, j :: 0 <= i < j < |env| ==> env[i].name != env[j].name
  {
    hide PilotFixed, PilotTrace, PilotAddress, PilotAnalysis, PilotLast, Tag;
    FixedEntries(f);
    OtherEntries(ns, f);
    var env := PilotBuiltin(ns, f);
    assert forall i, j :: 0 <= i < j < |env| ==> Tag(env[i].name) != Tag(env[j].name);
  }

  // ---- What the pilot finds ----

  lemma PilotShows(ns: string, f: ControllerFields, order: Order, prior: seq<EnvVar>, e: EnvVar)
    requires IsOrder(order, f.pilot.env) && e in PilotBuiltin(ns, f)
    ensures Shows(GenPilotEnv(ns, f, order, prior), f.pilot.env, e.name, e.value)
  {
    hide PilotBuiltin, Generate;
    PilotNamesDiffer(ns, f);
    if e.name in f.pilot.env {
      GeneratedFindsUser(PilotBuiltin(ns, f), {}, f.pilot.env, order, prior, e.name);
    } else {
      GeneratedFinds(PilotBuiltin(ns, f), {}, f.pilot.env, order, prior, e);
    }
  }

  /** Under every name derived from the instance the pilot finds the instance's value, unless the user gives another. */
  ghost predicate Finds(ns: string, f: ControllerFields, env: seq<EnvVar>) {
    var user := f.pilot.env;
    && Shows(env, user, "PILOT_ENABLE_PROTOCOL_SNIFFING_FOR_OUTBOUND", if f.sniffOutbound then "true" else "false")
    && Shows(env, user, "PILOT_ENABLE_PROTOCOL_SNIFFING_FOR_INBOUND", if f.sniffInbound then "true" else "false")
    && Shows(env, user, "JWT_POLICY", f.jwtPolicy)
    && (f.traceSampling != "" ==> Shows(env, user, "PILOT_TRACE_SAMPLING", f.traceSampling))
    && (f.revision == "" ==> Shows(env, user, "ISTIOD_ADDR", "istiod." + ns + ".svc:15012"))
    && (f.revision != "" ==> Shows(env, user, "ISTIOD_ADDR", "istiod-" + f.revision + "." + ns + ".svc:15012"))
    && (f.cluster.None? ==> Shows(env, user, "CLUSTER_ID", "Kubernetes"))
    && (f.cluster.Some? ==> Shows(env, user, "CLUSTER_ID", f.cluster.value))
    && (f.istiodAnalysis == Some(true) ==> Shows(env, user, "PILOT_ENABLE_ANALYSIS", "true"))
    && (f.istiodAnalysis == Some(false) ==> Shows(env, user, "PILOT_ENABLE_ANALYSIS", "false"))
    && Shows(env, user, "HIGRESS_ENABLE_ISTIO_API", if f.istioAPI then "true" else "false")
    && (!f.istio ==> Shows(env, user, "CUSTOM_CA_CERT_NAME", "higress-ca-root-cert"))
    && (forall name :: name in user ==> Found(env, name) == user[name])
  }

  /** The same for the variables that do not depend on the instance. */
  ghost predicate FindsConstants(f: ControllerFields, env: seq<EnvVar>) {
    var user := f.pilot.env;
    && Shows(env, user, "HIGRESS_CONTROLLER_SVC", "127.0.0.1") && Shows(env, user, "HIGRESS_CONTROLLER_PORT", "15051")
    && Shows(env, user, "REVISION", "default") && Shows(env, user, "PILOT_CERT_PROVIDER", "istiod")
    && Shows(env, user, "KUBECONFIG", "/var/run/secrets/remote/config")
    && Shows(env, user, "PRIORITIZED_LEADER_ELECTION", "false") && Shows(env, user, "INJECT_ENABLE", "false")
  }

  /** Whatever was stored before and however the user's variables are ranged over. */
  lemma PilotFinds(ns: string, f: ControllerFields, order: Order, prior: seq<EnvVar>)
    requires IsOrder(order, f.pilot.env)
    ensures var env := GenPilotEnv(ns, f, order, prior); Finds(ns, f, env) && FindsConstants(f, env)
  {
    hide PilotBuiltin, GenPilotEnv, Shows, Generate;
    DerivedEntries(ns, f);
    ConstantEntries(ns, f);
    PilotShows(ns, f, order, prior, PilotAddress(ns, f));
    forall e | e in PilotBuiltin(ns, f) ensures Shows(GenPilotEnv(ns, f, order, prior), f.pilot.env, e.name, e.value) {
      PilotShows(ns, f, order, prior, e);
    }
    UserFinds(ns, f, order, prior);
  }

  lemma UserFinds(ns: string, f: ControllerFields, order: Order, prior: seq<EnvVar>)
    requires IsOrder(order, f.pilot.env)
    ensures forall name :: name in f.pilot.env ==> Found(GenPilotEnv(ns, f, order, prior), name) == f.pilot.env[name]
  {
    hide PilotBuiltin, Generate;
    forall name | name in f.pilot.env ensures Found(GenPilotEnv(ns, f, order, prior), name) == f.pilot.env[name] {
      GeneratedFindsUser(PilotBuiltin(ns, f), {}, f.pilot.env, order, prior, name);
    }
  }

  lemma DerivedEntries(ns: string, f: ControllerFields)
    ensures var b := PilotBuiltin(ns, f);
            && EnvVar("PILOT_ENABLE_PROTOCOL_SNIFFING_FOR_OUTBOUND", if f.sniffOutbound then "true" else "false",
                "") in b
            && EnvVar("PILOT_ENABLE_PROTOCOL_SNIFFING_FOR_INBOUND", if f.sniffInbound then "true" else "false", "") in b
            && EnvVar("JWT_POLICY", f.jwtPolicy, "") in b && PilotAddress(ns, f) in b
            && (f.traceSampling != "" ==> EnvVar("PILOT_TRACE_SAMPLING", f.traceSampling, "") in b)
            && (f.istiodAnalysis == Some(true) ==> EnvVar("PILOT_ENABLE_ANALYSIS", "true", "") in b)
            && (f.istiodAnalysis == Some(false) ==> EnvVar("PILOT_ENABLE_ANALYSIS", "false", "") in b)
            && (f.cluster.None? ==> EnvVar("CLUSTER_ID", "Kubernetes", "") in b)
            && (f.cluster.Some? ==> EnvVar("CLUSTER_ID", f.cluster.value, "") in b)
            && EnvVar("HIGRESS_ENABLE_ISTIO_API", if f.istioAPI then "true" else "false", "") in b
            && (!f.istio ==> EnvVar("CUSTOM_CA_CERT_NAME", "higress-ca-root-cert", "") in b)
  {
    FixedMembers(f);
    LastMembers(f);
    hide PilotFixed, PilotLast;
  }

  lemma FixedMembers(f: ControllerFields)
    ensures var b := PilotFixed(f);
            && EnvVar("PILOT_ENABLE_PROTOCOL_SNIFFING_FOR_OUTBOUND", if f.sniffOutbound then "true" else "false",
                "") in b
            && EnvVar("PILOT_ENABLE_PROTOCOL_SNIFFING_FOR_INBOUND", if f.sniffInbound then "true" else "false", "") in b
            && EnvVar("JWT_POLICY", f.jwtPolicy, "") in b
  {
    var b := PilotFixed(f);
    assert b[3] in b && b[11] in b && b[12] in b;
  }

  lemma LastMembers(f: ControllerFields)
    ensures var b := PilotLast(f);
            && (f.cluster.None? ==> EnvVar("CLUSTER_ID", "Kubernetes", "") in b)
            && (f.cluster.Some? ==> EnvVar("CLUSTER_ID", f.cluster.value, "") in b)
            && EnvVar("HIGRESS_ENABLE_ISTIO_API", if f.istioAPI then "true" else "false", "") in b
            && (!f.istio ==> EnvVar("CUSTOM_CA_CERT_NAME", "higress-ca-root-cert", "") in b)
  {
    var b := PilotLast(f);
    assert b[0] in b && b[1] in b;
    assert !f.istio ==> b[2] in b;
  }

  lemma ConstantEntries(ns: string, f: ControllerFields)
    ensures var b := PilotBuiltin(ns, f);
            && EnvVar("HIGRESS_CONTROLLER_SVC", "127.0.0.1", "") in b
            && EnvVar("HIGRESS_CONTROLLER_PORT", "15051", "") in b
            && EnvVar("REVISION", "default", "") in b && EnvVar("PILOT_CERT_PROVIDER", "istiod", "") in b
            && EnvVar("KUBECONFIG", "/var/run/secrets/remote/config", "") in b
            && EnvVar("PRIORITIZED_LEADER_ELECTION", "false", "") in b && EnvVar("INJECT_ENABLE", "false", "") in b
  {
    hide FormatBool, PilotTrace, PilotAddress, PilotAnalysis, PilotLast;
    var b := PilotFixed(f);
    assert b[0] in b && b[1] in b && b[2] in b && b[4] in b && b[8] in b && b[9] in b && b[10] in b;
    hide PilotFixed;
  }

  lemma PodEntries(ns: string, f: ControllerFields)
    ensures var b := PilotBuiltin(ns, f);
            && EnvVar("POD_NAMESPACE", "", "metadata.namespace") in b && EnvVar("POD_NAME", "", "metadata.name") in b
            && EnvVar("SERVICE_ACCOUNT", "", "spec.serviceAccountName") in b
  {
    hide FormatBool, PilotTrace, PilotAddress, PilotAnalysis, PilotLast;
    var b := PilotFixed(f);
    assert b[5] in b && b[6] in b && b[7] in b;
    hide PilotFixed;
  }

  /** A new pilot container has every variable of the list, so the three that come from the pod itself. */
  lemma NewPilotKnowsItsPod(ns: string, f: ControllerFields, order: Order)
    requires IsOrder(order, f.pilot.env)
    ensures var env := GenPilotEnv(ns, f, order, []);
            && EnvVar("POD_NAMESPACE", "", "metadata.namespace") in env
            && EnvVar("POD_NAME", "", "metadata.name") in env
            && EnvVar("SERVICE_ACCOUNT", "", "spec.serviceAccountName") in env
  {
    PodEntries(ns, f);
    NewPilotHasAll(ns, f, order);
    hide PilotBuiltin;
  }

  lemma NewPilotHasAll(ns: string, f: ControllerFields, order: Order)
    ensures GenPilotEnv(ns, f, order, []) == Desired(PilotBuiltin(ns, f), f.pilot.env, order)
  {
    ConstantEntries(ns, f);
    hide PilotBuiltin;
    var builtin := PilotBuiltin(ns, f);
    var e := EnvVar("REVISION", "default", "");
    var i :| 0 <= i < |builtin| && builtin[i] == e;
    assert Desired(builtin, f.pilot.env, order)[i] == e && !Matches(e, LastValues([]), {});
  }

  /** A list that is not kept has no other names: it has as many entries as there are names above and in the user's
      map. */
  lemma NothingElse(ns: string, f: ControllerFields, order: Order, prior: seq<EnvVar>)
    ensures var env := GenPilotEnv(ns, f, order, prior);
            || env == prior
            || |env| == 16 + (if f.traceSampling != "" then 1 else 0) + (if f.istiodAnalysis.Some? then 1 else 0)
                        + (if f.istio then 0 else 1) + |order|
    ensures var env := GenControllerEnv(f, order, prior); env == prior || |env| == 2 + |order|
  {
    hide Settled;
  }

  /** The variables that come from the pod have no value of their own, so nothing but another difference brings one back
      that has gone from the stored list. */
  lemma PilotKnowsItsPodIff(ns: string, f: ControllerFields, order: Order, prior: seq<EnvVar>, name: string)
    requires IsOrder(order, f.pilot.env) && name in {"POD_NAMESPACE", "POD_NAME", "SERVICE_ACCOUNT"}
    ensures var env := GenPilotEnv(ns, f, order,
            prior); name in LastValues(env) <==> env != prior || name in LastValues(prior)
  {
    PodEntries(ns, f);
    hide PilotBuiltin, Settled, LastValues;
    var builtin, env := PilotBuiltin(ns, f), GenPilotEnv(ns, f, order, prior);
    if env != prior {
      var e := EnvVar(name, "", if name == "POD_NAMESPACE" then "metadata.namespace"
                                else if name == "POD_NAME" then "metadata.name" else "spec.serviceAccountName");
      var i :| 0 <= i < |builtin| && builtin[i] == e;
      assert env[i] == e;
      LastValuesDomain(env, name);
    }
  }

  /** Such a list: what the operator wants without those three is kept as it is. */
  lemma PodVariablesStayAway(ns: string, f: ControllerFields, order: Order)
    requires IsOrder(order, f.pilot.env) && Consistent(PilotBuiltin(ns, f), f.pilot.env)
    requires "POD_NAMESPACE" !in f.pilot.env && "POD_NAME" !in f.pilot.env && "SERVICE_ACCOUNT" !in f.pilot.env
    ensures var all := Desired(PilotBuiltin(ns, f), f.pilot.env, order);
            |all| >= 8 && var prior := all[..5] + all[8..];
            && GenPilotEnv(ns, f, order, prior) == prior
            && "POD_NAMESPACE" !in LastValues(prior) && "POD_NAME" !in LastValues(prior)
            && "SERVICE_ACCOUNT" !in LastValues(prior)
  {
    PodPlaces(ns, f);
    PilotNamesDiffer(ns, f);
    hide PilotBuiltin;
    var builtin, user := PilotBuiltin(ns, f), f.pilot.env;
    var all := Desired(builtin, user, order);
    var prior := all[..5] + all[8..];
    hide LastValues;
    ConsistentIsUnambiguous(builtin, user, order);
    FewerNames(all, builtin, user, order);
    LastValuesDomain(prior, "POD_NAMESPACE");
    LastValuesDomain(prior, "POD_NAME");
    LastValuesDomain(prior, "SERVICE_ACCOUNT");
    hide Desired;
    forall i | 0 <= i < |all| ensures Matches(all[i], LastValues(prior), {}) {
      if i < 5 || i >= 8 {
        var j := if i < 5 then i else i - 3;
        assert prior[j] == all[i];
        UnambiguousLookup(prior, j);
      }
    }
  }

  lemma PodPlaces(ns: string, f: ControllerFields)
    ensures var b := PilotBuiltin(ns, f);
            && |b| >= 8 && b[5] == EnvVar("POD_NAMESPACE", "", "metadata.namespace")
            && b[6] == EnvVar("POD_NAME", "", "metadata.name")
            && b[7] == EnvVar("SERVICE_ACCOUNT", "", "spec.serviceAccountName")
  {
    hide PilotTrace, PilotAddress, PilotAnalysis, PilotLast, FormatBool;
  }

  lemma FewerNames(all: seq<EnvVar>, builtin: seq<EnvVar>, user: map<string, string>, order: Order)
    requires IsOrder(order, user) && all == Desired(builtin, user, order) && |builtin| >= 8 && Unambiguous(all)
    requires forall i, j :: 0 <= i < j < |builtin| ==> builtin[i].name != builtin[j].name
    requires builtin[5].name !in user && builtin[6].name !in user && builtin[7].name !in user
    ensures var prior := all[..5] + all[8..];
            && Unambiguous(prior) && builtin[..8] == all[..8]
            && forall i :: 0 <= i < |prior| ==> prior[i].name != builtin[5].name && prior[i].name != builtin[6].name
                                                && prior[i].name != builtin[7].name
  {
    var prior := all[..5] + all[8..];
    assert forall i :: 0 <= i < |prior| ==> prior[i] == all[if i < 5 then i else i + 3];
    assert forall i :: |builtin| <= i < |all| ==> all[i].name in user;
  }

  /** A variable that is wanted no more stays as long as nothing else changes: the name of the CA certificate is the
      user's, or else the operator's with Istio off, or else whatever the stored list has if that is kept. */
  lemma CertificateName(ns: string, f: ControllerFields, order: Order, prior: seq<EnvVar>)
    requires IsOrder(order, f.pilot.env)
    ensures var env, user, name := GenPilotEnv(ns, f, order, prior), f.pilot.env, "CUSTOM_CA_CERT_NAME";
            Found(env, name) ==
            if name in user then user[name]
            else if !f.istio then "higress-ca-root-cert"
            else if env == prior then Found(prior, name)
            else ""
  {
    hide PilotBuiltin, Settled, PilotFixed, PilotLast, PilotTrace, PilotAnalysis, PilotAddress, FormatBool;
    var env, name, builtin := GenPilotEnv(ns, f, order, prior), "CUSTOM_CA_CERT_NAME", PilotBuiltin(ns, f);
    if name in f.pilot.env || !f.istio {
      PilotFinds(ns, f, order, prior);
      if name in f.pilot.env {
        GeneratedFindsUser(builtin, {}, f.pilot.env, order, prior, name);
      }
    } else if env != prior {
      CertificateEntry(ns, f);
      DesiredLookup(builtin, f.pilot.env, order, name);
      LastValuesDomain(builtin, name);
    }
  }

  lemma CertificateEntry(ns: string, f: ControllerFields)
    ensures f.istio ==> forall e :: e in PilotBuiltin(ns, f) ==> e.name != "CUSTOM_CA_CERT_NAME"
  {
    hide PilotFixed, PilotTrace, PilotAddress, PilotAnalysis, PilotLast, Tag;
    FixedEntries(f);
    OtherEntries(ns, f);
    DerivedTags();
    LastWithIstio(f);
    var b := PilotBuiltin(ns, f);
    if f.istio {
      assert forall i :: 0 <= i < |b| ==> Tag(b[i].name) != 19067;
    }
  }

  lemma LastWithIstio(f: ControllerFields)
    ensures f.istio ==> |PilotLast(f)| == 2
  {
  }

  /** Switching Istio on does not take the certificate's name away: the list generated with Istio off is kept. */
  lemma CertificateNameStays(ns: string, f: ControllerFields, order: Order, order': Order)
    requires IsOrder(order, f.pilot.env) && IsOrder(order', f.pilot.env) && f.istio
    requires Consistent(PilotBuiltin(ns, f.(istio := false)), f.pilot.env)
    ensures var before := GenPilotEnv(ns, f.(istio := false), order, []);
            && GenPilotEnv(ns, f, order', before) == before
            && Found(before, "CUSTOM_CA_CERT_NAME") == "higress-ca-root-cert"
  {
    hide PilotBuiltin, Consistent, Generate, Desired;
    var off, user := f.(istio := false), f.pilot.env;
    NewPilotHasAll(ns, off, order);
    CertificateName(ns, off, order, []);
    LastEntry(ns, off, user);
    WithoutIstioToo(ns, f);
    FewerAreThere(PilotBuiltin(ns, f), PilotBuiltin(ns, off), user, order, order');
  }

  /** A consistent list is kept when fewer variables are wanted. */
  lemma FewerAreThere(fewer: seq<EnvVar>, builtin: seq<EnvVar>, user: map<string, string>, order: Order, order': Order)
    requires IsOrder(order, user) && IsOrder(order', user) && fewer <= builtin && Consistent(builtin, user)
    ensures var env := Desired(builtin, user, order); Generate(fewer, {}, user, order', env) == env
  {
    var env, wanted := Desired(builtin, user, order), Desired(fewer, user, order');
    ConsistentIsUnambiguous(builtin, user, order);
    hide Consistent, LastValues;
    forall i | 0 <= i < |wanted| ensures Matches(wanted[i], LastValues(env), {}) {
      if i < |fewer| {
        assert env[i] == wanted[i];
        UnambiguousLookup(env, i);
      } else {
        var j := UserEnvEntry(user, order', i - |fewer|, order);
        assert env[|builtin| + j] == wanted[i];
        UnambiguousLookup(env, |builtin| + j);
      }
    }
  }

  lemma LastEntry(ns: string, f: ControllerFields, user: map<string, string>)
    requires !f.istio && Consistent(PilotBuiltin(ns, f), user)
    ensures "CUSTOM_CA_CERT_NAME" in user ==> user["CUSTOM_CA_CERT_NAME"] == "higress-ca-root-cert"
  {
    var b := PilotBuiltin(ns, f);
    hide PilotFixed, PilotTrace, PilotAddress, PilotAnalysis, FormatBool;
    assert b[|b| - 1] == EnvVar("CUSTOM_CA_CERT_NAME", "higress-ca-root-cert", "");
  }

  lemma WithoutIstioToo(ns: string, f: ControllerFields)
    ensures PilotBuiltin(ns, f) <= PilotBuiltin(ns, f.(istio := false))
  {
    var off := f.(istio := false);
    assert PilotFixed(off) == PilotFixed(f) && PilotTrace(off) == PilotTrace(f);
    assert PilotAddress(ns, off) == PilotAddress(ns, f) && PilotAnalysis(off) == PilotAnalysis(f);
    assert PilotLast(f) <= PilotLast(off);
    hide PilotFixed, PilotTrace, PilotAddress, PilotAnalysis, PilotLast;
  }

  // ---- What the controller's own container finds ----

  /** The two variables that come from the pod are there, and the user's have their values. */
  ghost predicate ControllerReads(f: ControllerFields, env: seq<EnvVar>) {
    && "POD_NAMESPACE" in LastValues(env) && "POD_NAME" in LastValues(env)
    && (forall name :: name in f.controller.env ==> Found(env, name) == f.controller.env[name])
  }

  lemma ControllerFinds(f: ControllerFields, order: Order, prior: seq<EnvVar>)
    requires IsOrder(order, f.controller.env)
    ensures ControllerReads(f, GenControllerEnv(f, order, prior))
  {
    var env, desired := GenControllerEnv(f, order, prior), Desired(ControllerBuiltin(), f.controller.env, order);
    assert desired[0].name == "POD_NAMESPACE" && desired[1].name == "POD_NAME";
    hide LastValues, Desired, ControllerBuiltin;
    if Settled(desired, prior, CONTROLLER_REQUIRED) {
      assert Matches(desired[0], LastValues(prior), CONTROLLER_REQUIRED);
      assert Matches(desired[1], LastValues(prior), CONTROLLER_REQUIRED);
    } else {
      LastValuesDomain(desired, "POD_NAMESPACE");
      LastValuesDomain(desired, "POD_NAME");
    }
    forall name | name in f.controller.env ensures Found(env, name) == f.controller.env[name] {
      GeneratedFindsUser(ControllerBuiltin(), CONTROLLER_REQUIRED, f.controller.env, order, prior, name);
    }
  }

  /** A new container takes them from the pod. */
  lemma NewControllerKnowsItsPod(f: ControllerFields, order: Order)
    ensures var env := GenControllerEnv(f, order, []);
            EnvVar("POD_NAMESPACE", "", "metadata.namespace") in env && EnvVar("POD_NAME", "", "metadata.name") in env
  {
    var desired := Desired(ControllerBuiltin(), f.controller.env, order);
    assert desired[0] == EnvVar("POD_NAMESPACE", "", "metadata.namespace") && desired[0] in desired;
    assert desired[1] == EnvVar("POD_NAME", "", "metadata.name") && desired[1] in desired;
    assert !Matches(desired[0], LastValues([]), CONTROLLER_REQUIRED);
  }
}
