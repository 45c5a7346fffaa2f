/** Conversions of a HorizontalPodAutoscaler between the autoscaling versions v2, v2beta2 and v2beta1.
    Each loop copies the resource metric only; `others` stands for a metric's remaining source pointers. */
module Hpa {
  import opened Kubernetes

  datatype Target = Target(kind: string, value: Option<int>, averageValue: Option<int>, averageUtilization: Option<int>)

  datatype TargetBeta2 = TargetBeta2(kind: string, value: Option<int>, averageValue: Option<int>,
      averageUtilization: Option<int>)

  datatype Resource = Resource(name: string, target: Target)

  datatype ResourceBeta2 = ResourceBeta2(name: string, target: TargetBeta2)

  datatype ResourceBeta1 = ResourceBeta1(name: string, averageUtilization: Option<int>, averageValue: Option<int>)

  /** `resource` is None for a nil pointer, which every conversion dereferences. */
  datatype Metric<R> = Metric(kind: string, resource: Option<R>, others: Option<Literal>)

  datatype ScaleTarget = ScaleTarget(kind: string, name: string, apiVersion: string)

  datatype Autoscaler<R> = Autoscaler(
    meta: Meta, min: Option<int>, max: int, ref: ScaleTarget, metrics: seq<Metric<R>>,
    behavior: Option<Literal>, status: Option<Literal>)

  type V2 = Autoscaler<Resource>
  type V2beta2 = Autoscaler<ResourceBeta2>
  type V2beta1 = Autoscaler<ResourceBeta1>

  /** What the conversions demand of their caller: no metric without a resource source. */
  predicate ResourceMetrics<R>(metrics: seq<Metric<R>>) {
    forall i | 0 <= i < |metrics| :: metrics[i].resource.Some?
  }

  function ToBeta1(m: Metric<Resource>): Metric<ResourceBeta1>
    requires m.resource.Some?
  {
    var r := m.resource.value;
    Metric(m.kind, Some(ResourceBeta1(r.name, r.target.averageUtilization, r.target.averageValue)), None)
  }

  function ToBeta2(m: Metric<Resource>): Metric<ResourceBeta2>
    requires m.resource.Some?
  {
    var r := m.resource.value;
    Metric(m.kind, Some(ResourceBeta2(r.name, TargetBeta2(r.target.kind, r.target.value, r.target.averageValue,
        r.target.averageUtilization))), None)
  }

  function FromBeta2(m: Metric<ResourceBeta2>): Metric<Resource>
    requires m.resource.Some?
  {
    var r := m.resource.value;
    Metric(m.kind, Some(Resource(r.name, Target(r.target.kind, r.target.value, r.target.averageValue,
        r.target.averageUtilization))), None)
  }

  function FromBeta1(m: Metric<ResourceBeta1>): Metric<Resource>
    requires m.resource.Some?
  {
    var r := m.resource.value;
    var target :=
      if r.averageUtilization.Some? then Target("Utilization", None, None, r.averageUtilization)
      else if r.averageValue.Some? then Target("AverageValue", None, r.averageValue, None)
      else Target("", None, None, None);
    Metric(m.kind, Some(Resource(r.name, target)), None)
  }

  function V2ToBeta1(h: V2): V2beta1
    requires ResourceMetrics(h.metrics)
  {
    Autoscaler(h.meta, h.min, h.max, h.ref,
               seq(|h.metrics|, i requires 0 <= i < |h.metrics| => ToBeta1(h.metrics[i])), None, None)
  }

  function V2ToBeta2(h: V2): V2beta2
    requires ResourceMetrics(h.metrics)
  {
    Autoscaler(h.meta, h.min, h.max, h.ref,
               seq(|h.metrics|, i requires 0 <= i < |h.metrics| => ToBeta2(h.metrics[i])), None, None)
  }

  function Beta2ToV2(h: V2beta2): V2
    requires ResourceMetrics(h.metrics)
  {
    Autoscaler(h.meta, h.min, h.max, h.ref,
               seq(|h.metrics|, i requires 0 <= i < |h.metrics| => FromBeta2(h.metrics[i])), None, None)
  }

  function Beta1ToV2(h: V2beta1): V2
    requires ResourceMetrics(h.metrics)
  {
    Autoscaler(h.meta, h.min, h.max, h.ref,
               seq(|h.metrics|, i requires 0 <= i < |h.metrics| => FromBeta1(h.metrics[i])), None, None)
  }

  // ---- The source's loops ----

  method ConvertV2ToV2beta1(h: V2) returns (res: V2beta1)
    requires ResourceMetrics(h.metrics)
    ensures res == V2ToBeta1(h)
  {
    res := Autoscaler(h.meta, h.min, h.max, h.ref, [], None, None);
    for i := 0 to |h.metrics|
      invariant res == V2ToBeta1(h).(metrics := V2ToBeta1(h).metrics[..i])
    {
      var r := h.metrics[i].resource.value;
      var item := ResourceBeta1(r.name, r.target.averageUtilization, r.target.averageValue);
      res := res.(metrics := res.metrics + [Metric(h.metrics[i].kind, Some(item), None)]);
    }
  }

  method ConvertV2ToV2beta2(h: V2) returns (res: V2beta2)
    requires ResourceMetrics(h.metrics)
    ensures res == V2ToBeta2(h)
  {
    res := Autoscaler(h.meta, h.min, h.max, h.ref, [], None, None);
    for i := 0 to |h.metrics|
      invariant res == V2ToBeta2(h).(metrics := V2ToBeta2(h).metrics[..i])
    {
      var r := h.metrics[i].resource.value;
      var t := TargetBeta2(r.target.kind, r.target.value, r.target.averageValue, r.target.averageUtilization);
      res := res.(metrics := res.metrics + [Metric(h.metrics[i].kind, Some(ResourceBeta2(r.name, t)), None)]);
    }
  }

  method ConvertV2beta2ToV2(h: V2beta2) returns (res: V2)
    requires ResourceMetrics(h.metrics)
    ensures res == Beta2ToV2(h)
  {
    res := Autoscaler(h.meta, h.min, h.max, h.ref, [], None, None);
    for i := 0 to |h.metrics|
      invariant res == Beta2ToV2(h).(metrics := Beta2ToV2(h).metrics[..i])
    {
      var r := h.metrics[i].resource.value;
      var t := Target(r.target.kind, r.target.value, r.target.averageValue, r.target.averageUtilization);
      res := res.(metrics := res.metrics + [Metric(h.metrics[i].kind, Some(Resource(r.name, t)), None)]);
    }
  }

  method ConvertV2beta1ToV2(h: V2beta1) returns (res: V2)
    requires ResourceMetrics(h.metrics)
    ensures res == Beta1ToV2(h)
  {
    res := Autoscaler(h.meta, h.min, h.max, h.ref, [], None, None);
    for i := 0 to |h.metrics|
      invariant res == Beta1ToV2(h).(metrics := Beta1ToV2(h).metrics[..i])
    {
      var r := h.metrics[i].resource.value;
      var t := Target("", None, None, None);
      if r.averageUtilization.Some? {
        t := t.(kind := "Utilization", averageUtilization := r.averageUtilization);
      } else if r.averageValue.Some? {
        t := t.(kind := "AverageValue", averageValue := r.averageValue);
      }
      res := res.(metrics := res.metrics + [Metric(h.metrics[i].kind, Some(Resource(r.name, t)), None)]);
    }
  }

  // ---- What a conversion carries ----

  /** Each conversion keeps the object's own fields, drops behaviour and status, and carries each metric's kind, its
      resource's name and its target's fields, each under its own name; v2beta1 has no target type and no plain value,
      so that coming from it the type is that of the field given. */
  lemma CarriedFields(h: V2, g: V2beta2, e: V2beta1)
    requires ResourceMetrics(h.metrics) && ResourceMetrics(g.metrics) && ResourceMetrics(e.metrics)
    ensures Carried(h, V2ToBeta1(h)) && Carried(h, V2ToBeta2(h)) && Carried(g, Beta2ToV2(g)) && Carried(e, Beta1ToV2(e))
    ensures forall i :: 0 <= i < |h.metrics| ==>
              var r, r1, r2 := h.metrics[i].resource.value, V2ToBeta1(h).metrics[i].resource.value,
                               V2ToBeta2(h).metrics[i].resource.value;
              && r1.name == r.name && r1.averageUtilization == r.target.averageUtilization
              && r1.averageValue == r.target.averageValue
              && r2.name == r.name && r2.target.kind == r.target.kind && r2.target.value == r.target.value
              && r2.target.averageValue == r.target.averageValue
              && r2.target.averageUtilization == r.target.averageUtilization
    ensures forall i :: 0 <= i < |g.metrics| ==>
              var r, r' := g.metrics[i].resource.value, Beta2ToV2(g).metrics[i].resource.value;
              && r'.name == r.name && r'.target.kind == r.target.kind && r'.target.value == r.target.value
              && r'.target.averageValue == r.target.averageValue
              && r'.target.averageUtilization == r.target.averageUtilization
    ensures forall i :: 0 <= i < |e.metrics| ==>
              var r, r' := e.metrics[i].resource.value, Beta1ToV2(e).metrics[i].resource.value;
              && r'.name == r.name && r'.target.value.None? && r'.target.averageUtilization == r.averageUtilization
              && (r.averageUtilization.Some? ==> r'.target.kind == "Utilization" && r'.target.averageValue.None?)
              && (r.averageUtilization.None? ==> r'.target.averageValue == r.averageValue)
              && (r.averageUtilization.None? && r.averageValue.Some? ==> r'.target.kind == "AverageValue")
              && (r.averageUtilization.None? && r.averageValue.None? ==> r'.target.kind == "")
  {
  }

  /** What does not depend on the version. */
  ghost predicate Carried<R, S>(h: Autoscaler<R>, r: Autoscaler<S>) {
    && r.meta == h.meta && r.min == h.min && r.max == h.max && r.ref == h.ref && |r.metrics| == |h.metrics|
    && r.behavior.None? && r.status.None?
    && forall i :: 0 <= i < |h.metrics| ==>
         r.metrics[i].kind == h.metrics[i].kind && r.metrics[i].resource.Some? && r.metrics[i].others.None?
  }

  // ---- What the round trips lose ----

  /** The parts no conversion carries are absent. */
  predicate Plain<R>(h: Autoscaler<R>) {
    h.behavior.None? && h.status.None? && forall i | 0 <= i < |h.metrics| :: h.metrics[i].others.None?
  }

  /** v2 and v2beta2 are mutually inverse on everything the conversions carry, and on nothing else. */
  lemma V2beta2RoundTrip(h: V2, g: V2beta2)
    requires ResourceMetrics(h.metrics) && ResourceMetrics(g.metrics)
    ensures Beta2ToV2(V2ToBeta2(h)) == h <==> Plain(h)
    ensures V2ToBeta2(Beta2ToV2(g)) == g <==> Plain(g)
  {
    var h' := Beta2ToV2(V2ToBeta2(h));
    if h' == h {
      assert forall i :: 0 <= i < |h.metrics| ==> h'.metrics[i].others.None?;
    }
    if Plain(h) {
      assert h'.metrics == h.metrics;
    }
    var g' := V2ToBeta2(Beta2ToV2(g));
    if g' == g {
      assert forall i :: 0 <= i < |g.metrics| ==> g'.metrics[i].others.None?;
    }
    if Plain(g) {
      assert g'.metrics == g.metrics;
    }
  }

  predicate SetsBoth(m: Metric<ResourceBeta1>)
    requires m.resource.Some?
  {
    m.resource.value.averageUtilization.Some? && m.resource.value.averageValue.Some?
  }

  /** From v2beta1 and back is the identity exactly when no metric sets both targets. */
  lemma Beta1RoundTrip(h: V2beta1)
    requires ResourceMetrics(h.metrics)
    ensures V2ToBeta1(Beta1ToV2(h)) == h
            <==> Plain(h) && forall i :: 0 <= i < |h.metrics| ==> !SetsBoth(h.metrics[i])
  {
    var back := V2ToBeta1(Beta1ToV2(h));
    if back == h {
      assert forall i :: 0 <= i < |h.metrics| ==> back.metrics[i] == ToBeta1(FromBeta1(h.metrics[i])) == h.metrics[i];
    }
    if Plain(h) && forall i :: 0 <= i < |h.metrics| ==> !SetsBoth(h.metrics[i]) {
      forall i | 0 <= i < |h.metrics| ensures back.metrics[i] == h.metrics[i] {
        assert !SetsBoth(h.metrics[i]);
      }
      assert back.metrics == h.metrics;
    }
  }

  /** The target type names the only field that is set, or the target is wholly empty. */
  predicate Recoverable(t: Target) {
    || (t.kind == "Utilization" && t.averageUtilization.Some? && t.averageValue.None? && t.value.None?)
    || (t.kind == "AverageValue" && t.averageValue.Some? && t.averageUtilization.None? && t.value.None?)
    || t == Target("", None, None, None)
  }

  /** v2 through v2beta1 and back. */
  function ThroughBeta1(h: V2): V2
    requires ResourceMetrics(h.metrics)
  {
    Beta1ToV2(V2ToBeta1(h))
  }

  lemma ThroughBeta1IdentityIff(h: V2)
    requires ResourceMetrics(h.metrics)
    ensures ThroughBeta1(h) == h
            <==> Plain(h) && forall i :: 0 <= i < |h.metrics| ==> Recoverable(h.metrics[i].resource.value.target)
  {
    var back := ThroughBeta1(h);
    if back == h {
      assert forall i :: 0 <= i < |h.metrics| ==> back.metrics[i] == FromBeta1(ToBeta1(h.metrics[i])) == h.metrics[i];
    }
    if Plain(h) && forall i :: 0 <= i < |h.metrics| ==> Recoverable(h.metrics[i].resource.value.target) {
      forall i | 0 <= i < |h.metrics| ensures back.metrics[i] == h.metrics[i] {
        assert Recoverable(h.metrics[i].resource.value.target);
      }
      assert back.metrics == h.metrics;
    }
  }

  /** The lossy trip is a projection: its result survives any further trip. */
  lemma ThroughBeta1IsIdempotent(h: V2)
    requires ResourceMetrics(h.metrics)
    ensures ThroughBeta1(ThroughBeta1(h)) == ThroughBeta1(h)
  {
    var once := ThroughBeta1(h);
    forall i | 0 <= i < |once.metrics|
      ensures Recoverable(once.metrics[i].resource.value.target) && once.metrics[i].others.None?
    {
      assert once.metrics[i] == FromBeta1(ToBeta1(h.metrics[i]));
    }
    ThroughBeta1IdentityIff(once);
  }

  /** What v2beta1 can see of a v2 metric. */
  predicate SameInBeta1(a: Metric<Resource>, b: Metric<Resource>)
    requires a.resource.Some? && b.resource.Some?
  {
    && a.kind == b.kind && a.resource.value.name == b.resource.value.name
    && a.resource.value.target.averageUtilization == b.resource.value.target.averageUtilization
    && a.resource.value.target.averageValue == b.resource.value.target.averageValue
  }

  /** The kernel of v2 to v2beta1: exactly the autoscalers that agree on what v2beta1 can see. */
  lemma Beta1Kernel(a: V2, b: V2)
    requires ResourceMetrics(a.metrics) && ResourceMetrics(b.metrics)
    ensures V2ToBeta1(a) == V2ToBeta1(b)
            <==> && a.meta == b.meta && a.min == b.min && a.max == b.max && a.ref == b.ref && |a.metrics| == |b.metrics|
                 && forall i :: 0 <= i < |a.metrics| ==> SameInBeta1(a.metrics[i], b.metrics[i])
  {
    var x, y := V2ToBeta1(a), V2ToBeta1(b);
    if x == y {
      assert |x.metrics| == |a.metrics| && |y.metrics| == |b.metrics|;
      forall i | 0 <= i < |a.metrics| ensures SameInBeta1(a.metrics[i], b.metrics[i]) {
        assert x.metrics[i] == ToBeta1(a.metrics[i]) && y.metrics[i] == ToBeta1(b.metrics[i]);
      }
    }
    if && a.meta == b.meta && a.min == b.min && a.max == b.max && a.ref == b.ref && |a.metrics| == |b.metrics|
       && forall i :: 0 <= i < |a.metrics| ==> SameInBeta1(a.metrics[i], b.metrics[i])
    {
      forall i | 0 <= i < |a.metrics| ensures x.metrics[i] == y.metrics[i] {
        assert SameInBeta1(a.metrics[i], b.metrics[i]);
      }
      assert x.metrics == y.metrics;
    }
  }

  // ---- The autoscaler the operator builds ----

  datatype AutoScaling = AutoScaling(min: Option<int>, max: int, percentage: Option<int>)

  /** Overwrites the object in hand; nothing of it survives. */
  function InitHPAv2(h: V2, meta: Meta, a: AutoScaling): V2 {
    Autoscaler(meta, a.min, a.max, ScaleTarget("Deployment", meta.name, "apps/v1"),
               [Metric("Resource", Some(Resource("cpu", Target("Utilization", None, None, a.percentage))), None)],
               None, None)
  }

  /** What the operator builds scales the Deployment of the instance's name by its CPU, within the user's bounds; it
      always survives v2beta2, and survives v2beta1 exactly when a percentage is given. */
  lemma BuiltAutoscalerSurvives(h: V2, meta: Meta, a: AutoScaling)
    ensures var built := InitHPAv2(h, meta, a);
            && built.meta == meta && built.min == a.min && built.max == a.max && |built.metrics| == 1
            && built.ref == ScaleTarget("Deployment", meta.name, "apps/v1")
            && built.metrics[0].kind == "Resource" && built.metrics[0].resource.Some?
            && built.metrics[0].resource.value.name == "cpu"
            && built.metrics[0].resource.value.target == Target("Utilization", None, None, a.percentage)
            && Beta2ToV2(V2ToBeta2(built)) == built
            && (ThroughBeta1(built) == built <==> a.percentage.Some?)
  {
    var built := InitHPAv2(h, meta, a);
    V2beta2RoundTrip(built, V2ToBeta2(built));
    ThroughBeta1IdentityIff(built);
    assert Recoverable(built.metrics[0].resource.value.target) <==> a.percentage.Some?;
  }
}
