/** What the gateway's container finds in its environment, name by name. */
module GatewayVariables {
  import opened Kubernetes
  import opened ControllerEnv
  import opened GatewayChildren

  lemma PodTags()
    ensures Tag("NODE_NAME") == 9078 && Tag("POD_NAME") == 8080 && Tag("POD_NAMESPACE") == 13080
    ensures Tag("INSTANCE_IP") == 11073 && Tag("HOST_IP") == 7072 && Tag("SERVICE_ACCOUNT") == 15083
  {
  }

  lemma ValueTags()
    ensures Tag("PROXY_XDS_VIA_AGENT") == 19080 && Tag("ENABLE_INGRESS_GATEWAY_SDS") == 26069
    ensures Tag("JWT_POLICY") == 10074 && Tag("ISTIO_META_HTTP10") == 17073 && Tag("ISTIO_META_CLUSTER_ID") == 21073
    ensures Tag("INSTANCE_NAME") == 13073 && Tag("ISTIO_BOOTSTRAP_OVERRIDE") == 24073
    ensures Tag("ISTIO_META_REQUESTED_NETWORK_VIEW") == 33073
  {
  }

  /** The positions of the variables, and the tags of their names. */
  lemma PodPositions(f: GatewayFields)
    ensures var env := BuiltinEnv(f);
            && 12 <= |env| <= 14
            && Tag(env[0].name) == 9078 && Tag(env[1].name) == 8080 && Tag(env[2].name) == 13080
            && Tag(env[3].name) == 11073 && Tag(env[4].name) == 7072 && Tag(env[5].name) == 15083
  {
    hide Tag;
    PodTags();
  }

  lemma ValuePositions(f: GatewayFields)
    ensures var env := BuiltinEnv(f);
            && 12 <= |env| <= 14 && Tag(env[6].name) == 19080 && Tag(env[7].name) == 26069 && Tag(env[8].name) == 10074
            && Tag(env[9].name) == 17073 && Tag(env[10].name) == 21073 && Tag(env[11].name) == 13073
            && (|env| == 13 ==> Tag(env[12].name) == 24073 || Tag(env[12].name) == 33073)
            && (|env| == 14 ==> Tag(env[12].name) == 24073 && Tag(env[13].name) == 33073)
  {
    hide Tag;
    ValueTags();
  }

  /** No name occurs twice among the gateway's own variables. */
  lemma NamesDiffer(f: GatewayFields)
    ensures Unambiguous(BuiltinEnv(f))
  {
    hide BuiltinEnv, Tag;
    PodPositions(f);
    ValuePositions(f);
    var env := BuiltinEnv(f);
    assert forall i, j :: 0 <= i < j < |env| ==> Tag(env[i].name) != Tag(env[j].name);
  }

  lemma PodMembers(f: GatewayFields)
    ensures var b := BuiltinEnv(f);
            && EnvVar("NODE_NAME", "", "spec.nodeName") in b && EnvVar("POD_NAME", "", "metadata.name") in b
            && EnvVar("POD_NAMESPACE", "", "metadata.namespace") in b
            && EnvVar("INSTANCE_IP", "", "status.podIP") in b && EnvVar("HOST_IP", "", "status.hostIP") in b
            && EnvVar("SERVICE_ACCOUNT", "", "spec.serviceAccountName") in b
  {
    var b := BuiltinEnv(f);
    assert b[0] in b && b[1] in b && b[2] in b && b[3] in b && b[4] in b && b[5] in b;
  }

  lemma ValueMembers(f: GatewayFields)
    ensures var b := BuiltinEnv(f);
            && EnvVar("PROXY_XDS_VIA_AGENT", "true", "") in b && EnvVar("ENABLE_INGRESS_GATEWAY_SDS", "false", "") in b
            && EnvVar("JWT_POLICY", f.jwtPolicy, "") in b && EnvVar("ISTIO_META_HTTP10", "1", "") in b
            && EnvVar("ISTIO_META_CLUSTER_ID", "Kubernetes", "") in b
            && EnvVar("INSTANCE_NAME", "higress-gateway", "") in b
            && (f.network != "" ==> EnvVar("ISTIO_META_REQUESTED_NETWORK_VIEW", f.network, "") in b)
            && (SkywalkingOn(f) ==>
                  EnvVar("ISTIO_BOOTSTRAP_OVERRIDE", "/etc/istio/custom-bootstrap/custom_bootstrap.json", "") in b)
  {
    var b := BuiltinEnv(f);
    assert b[6] in b && b[7] in b && b[8] in b && b[9] in b && b[10] in b && b[11] in b;
    assert f.network != "" ==> b[|b| - 1] in b;
    assert SkywalkingOn(f) ==> b[12] in b;
  }

  lemma EntryShows(f: GatewayFields, order: Order)
    requires IsOrder(order, f.container.env)
    ensures forall e :: e in BuiltinEnv(f) ==>
              Shows(Env(f, order), f.container.env, e.name, e.value) && e in Env(f, order)
  {
    hide BuiltinEnv, Shows;
    NamesDiffer(f);
    forall e | e in BuiltinEnv(f) ensures Shows(Env(f, order), f.container.env, e.name, e.value) && e in Env(f, order) {
      DesiredShows(BuiltinEnv(f), f.container.env, order, e);
    }
  }

  /** Under every name the container finds the value written here, unless the user gives another; the entries that
      come from the pod are there, and there is nothing else. The empty string stands for a name that is not there. */
  ghost predicate Finds(f: GatewayFields, env: seq<EnvVar>) {
    var user := f.container.env;
    && Shows(env, user, "PROXY_XDS_VIA_AGENT", "true") && Shows(env, user, "ENABLE_INGRESS_GATEWAY_SDS", "false")
    && Shows(env, user, "JWT_POLICY", f.jwtPolicy) && Shows(env, user, "ISTIO_META_HTTP10", "1")
    && Shows(env, user, "ISTIO_META_CLUSTER_ID", "Kubernetes") && Shows(env, user, "INSTANCE_NAME", "higress-gateway")
    && Shows(env, user, "ISTIO_META_REQUESTED_NETWORK_VIEW", f.network)
    && Shows(env, user, "ISTIO_BOOTSTRAP_OVERRIDE",
             if f.skywalking.Some? && f.skywalking.value.enable
             then "/etc/istio/custom-bootstrap/custom_bootstrap.json" else "")
    && EnvVar("NODE_NAME", "", "spec.nodeName") in env && EnvVar("POD_NAME", "", "metadata.name") in env
    && EnvVar("POD_NAMESPACE", "", "metadata.namespace") in env && EnvVar("INSTANCE_IP", "", "status.podIP") in env
    && EnvVar("HOST_IP", "", "status.hostIP") in env
    && EnvVar("SERVICE_ACCOUNT", "", "spec.serviceAccountName") in env
    && (forall name :: name in user ==> Found(env, name) == user[name])
    && |env| == 12 + (if f.skywalking.Some? && f.skywalking.value.enable then 1 else 0)
                + (if f.network != "" then 1 else 0) + |user|
  }

  lemma GatewayFinds(f: GatewayFields, order: Order)
    requires IsOrder(order, f.container.env)
    ensures Finds(f, Env(f, order))
  {
    hide BuiltinEnv, Env, Shows;
    PodMembers(f);
    ValueMembers(f);
    EntryShows(f, order);
    OptionalNames(f);
    if f.network == "" {
      AbsentIsEmpty(f, order, "ISTIO_META_REQUESTED_NETWORK_VIEW");
    }
    if !SkywalkingOn(f) {
      AbsentIsEmpty(f, order, "ISTIO_BOOTSTRAP_OVERRIDE");
    }
    UserFinds(f, order);
    LastTag(f);
    OrderLength(f.container.env, order);
    EnvLength(f, order);
  }

  lemma EnvLength(f: GatewayFields, order: Order)
    ensures |Env(f, order)| == |BuiltinEnv(f)| + |order|
  {
    hide BuiltinEnv;
  }

  lemma UserFinds(f: GatewayFields, order: Order)
    requires IsOrder(order, f.container.env)
    ensures forall name :: name in f.container.env ==> Found(Env(f, order), name) == f.container.env[name]
  {
    hide BuiltinEnv;
    forall name | name in f.container.env ensures Found(Env(f, order), name) == f.container.env[name] {
      DesiredLookup(BuiltinEnv(f), f.container.env, order, name);
    }
  }

  lemma OptionalNames(f: GatewayFields)
    ensures var b := BuiltinEnv(f);
            && (f.network == "" ==> forall i :: 0 <= i < |b| ==> b[i].name != "ISTIO_META_REQUESTED_NETWORK_VIEW")
            && (!SkywalkingOn(f) ==> forall i :: 0 <= i < |b| ==> b[i].name != "ISTIO_BOOTSTRAP_OVERRIDE")
  {
    hide Tag;
    ValueTags();
    PodPositions(f);
    ValuePositions(f);
    LastTag(f);
    hide BuiltinEnv;
    var b := BuiltinEnv(f);
    assert f.network == "" ==> forall i :: 0 <= i < |b| ==> Tag(b[i].name) != 33073;
    assert !SkywalkingOn(f) ==> forall i :: 0 <= i < |b| ==> Tag(b[i].name) != 24073;
  }

  lemma LastTag(f: GatewayFields)
    ensures var b := BuiltinEnv(f);
            && |b| == 12 + (if SkywalkingOn(f) then 1 else 0) + (if f.network != "" then 1 else 0)
            && (f.network != "" ==> Tag(b[|b| - 1].name) == 33073) && (SkywalkingOn(f) ==> Tag(b[12].name) == 24073)
  {
    hide Tag;
    ValueTags();
  }

  lemma AbsentIsEmpty(f: GatewayFields, order: Order, name: string)
    requires IsOrder(order, f.container.env) && forall i :: 0 <= i < |BuiltinEnv(f)| ==> BuiltinEnv(f)[i].name != name
    ensures Shows(Env(f, order), f.container.env, name, "")
  {
    hide BuiltinEnv;
    DesiredLookup(BuiltinEnv(f), f.container.env, order, name);
    LastValuesDomain(BuiltinEnv(f), name);
  }
}
