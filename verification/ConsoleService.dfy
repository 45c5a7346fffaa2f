/** The console's Service: a merge that only ever adds ports, so that the stored list accumulates the
    names of every specification it has seen. */
module ConsoleService {
  import opened Kubernetes
  import opened Ports

  /** What one build reads: the console's selector and the instance's service section. */
  datatype ConsoleParams = ConsoleParams(selector: map<string, string>, service: Option<ServiceParams>)

  const HTTP: ServicePort := ServicePort("http", "TCP", 8080, 0)

  function GivenPorts(c: ConsoleParams): seq<ServicePort> {
    match c.service case Some(s) => s.ports case None => []
  }

  function Initialised(svc: ServiceSpec, c: ConsoleParams): ServiceSpec {
    if svc.kind == "" then svc.(kind := "ClusterIP", selector := c.selector, ports := [HTTP]) else svc
  }

  function Update(svc: ServiceSpec, c: ConsoleParams): ServiceSpec {
    var s := Initialised(svc, c);
    var kind := match c.service case Some(p) => (if p.kind != "" then p.kind else s.kind) case None => s.kind;
    s.(kind := kind, ports := s.ports + Missing(Names(s.ports), GivenPorts(c)))
  }

  class ServiceObject {
    var spec: ServiceSpec

    constructor (spec: ServiceSpec)
      ensures this.spec == spec
    {
      this.spec := spec;
    }

    method UpdateServiceSpec(c: ConsoleParams)
      modifies this
      ensures spec == Update(old(spec), c)
    {
      if spec.kind == "" {
        spec := spec.(kind := "ClusterIP", selector := c.selector, ports := [HTTP]);
      }
      var ports: seq<ServicePort> := [];
      if c.service.Some? {
        if c.service.value.kind != "" {
          spec := spec.(kind := c.service.value.kind);
        }
        ports := c.service.value.ports;
      }
      var taken := UsedNames(spec.ports);
      var extra := FreePorts(taken, ports);
      spec := spec.(ports := spec.ports + extra);
    }
  }

  method UsedNames(ports: seq<ServicePort>) returns (names: set<string>)
    ensures names == Names(ports)
  {
    names := {};
    for i := 0 to |ports|
      invariant names == Names(ports[..i])
    {
      NamesStep(ports, i);
      names := names + {ports[i].name};
    }
    assert ports[..|ports|] == ports;
  }

  /** The appending loop; it does not add what it appends to the set of names. */
  method FreePorts(taken: set<string>, ports: seq<ServicePort>) returns (extra: seq<ServicePort>)
    ensures extra == Missing(taken, ports)
  {
    extra := [];
    for i := 0 to |ports|
      invariant extra == Missing(taken, ports[..i])
    {
      MissingStep(taken, ports, i);
      if ports[i].name !in taken {
        extra := extra + [ports[i]];
      }
    }
    assert ports[..|ports|] == ports;
  }

  // ---- Whole runs ----

  /** One reconcile: a missing Service is built and then mutated once more before it is created. */
  function Reconcile(stored: Option<ServiceSpec>, c: ConsoleParams): ServiceSpec {
    match stored
    case None => Update(Update(EMPTY_SERVICE, c), c)
    case Some(s) => Update(s, c)
  }

  /** What is stored after reconciling each specification in turn, starting with no Service. */
  function Run(cs: seq<ConsoleParams>): Option<ServiceSpec> {
    if cs == [] then None else Some(Reconcile(Run(cs[..|cs| - 1]), cs[|cs| - 1]))
  }

  /** The specifications seen so far, concatenated behind the built-in port. */
  function Seen(cs: seq<ConsoleParams>): seq<ServicePort> {
    if cs == [] then [HTTP] else Seen(cs[..|cs| - 1]) + GivenPorts(cs[|cs| - 1])
  }

  /** The first port of the list that bears a name: what the name meant when it was first used. */
  function First(ports: seq<ServicePort>, name: string): Option<ServicePort> {
    if ports == [] then None else if ports[0].name == name then Some(ports[0]) else First(ports[1..], name)
  }

  lemma {:induction false} FirstAppend(a: seq<ServicePort>, b: seq<ServicePort>, name: string)
    ensures First(a + b, name) == if First(a, name).Some? then First(a, name) else First(b, name)
  {
    if a == [] {
      assert a + b == b;
    } else {
      assert (a + b)[1..] == a[1..] + b;
      FirstAppend(a[1..], b, name);
    }
  }

  lemma {:induction false} FirstIff(ports: seq<ServicePort>, name: string)
    ensures First(ports, name).Some? <==> name in Names(ports)
  {
    if ports != [] {
      FirstIff(ports[1..], name);
      assert ports == [ports[0]] + ports[1..];
      assert Names(ports) == {ports[0].name} + Names(ports[1..]);
    }
  }

  lemma {:induction false} MissingFirst(taken: set<string>, extra: seq<ServicePort>, name: string)
    ensures First(Missing(taken, extra), name) == if name in taken then None else First(extra, name)
  {
    if extra != [] {
      var n := |extra| - 1;
      MissingFirst(taken, extra[..n], name);
      var tail := if extra[n].name in taken then [] else [extra[n]];
      FirstAppend(Missing(taken, extra[..n]), tail, name);
      assert extra == extra[..n] + [extra[n]];
      FirstAppend(extra[..n], [extra[n]], name);
    }
  }

  /** Looking a name up in the updated list finds the stored definition, or else the new one. */
  lemma UpdateFirst(svc: ServiceSpec, c: ConsoleParams, name: string)
    ensures First(Update(svc, c).ports, name) == First(Initialised(svc, c).ports + GivenPorts(c), name)
  {
    var s := Initialised(svc, c);
    FirstAppend(s.ports, Missing(Names(s.ports), GivenPorts(c)), name);
    FirstAppend(s.ports, GivenPorts(c), name);
    FirstIff(s.ports, name);
    MissingFirst(Names(s.ports), GivenPorts(c), name);
  }

  lemma NamesByFirst(a: seq<ServicePort>, b: seq<ServicePort>)
    requires forall name :: First(a, name) == First(b, name)
    ensures Names(a) == Names(b)
  {
    forall name ensures name in Names(a) <==> name in Names(b) {
      FirstIff(a, name);
      FirstIff(b, name);
    }
  }

  lemma UpdateTwice(svc: ServiceSpec, c: ConsoleParams)
    ensures Update(Update(svc, c), c) == Update(svc, c)
  {
    var once := Update(svc, c);
    var s := Initialised(svc, c);
    forall name | name in Names(GivenPorts(c)) ensures name in Names(once.ports) {
      UpdateFirst(svc, c, name);
      FirstIff(once.ports, name);
      FirstIff(s.ports + GivenPorts(c), name);
      assert Names(s.ports + GivenPorts(c)) == Names(s.ports) + Names(GivenPorts(c));
    }
    MissingNothing(Names(once.ports), GivenPorts(c));
    assert once.ports + [] == once.ports;
  }

  /** The stored type is never empty, so the port list is initialised only once. */
  lemma RunIsInitialised(cs: seq<ConsoleParams>)
    ensures cs != [] ==> Run(cs).value.kind != ""
  {
    if cs != [] {
      RunIsInitialised(cs[..|cs| - 1]);
    }
  }

  /** Over any run, the stored names are exactly `http` and every name seen, and each name keeps the
      definition it had when it was first seen. */
  lemma {:induction false} PortsRatchet(cs: seq<ConsoleParams>)
    requires cs != []
    ensures forall name :: First(Run(cs).value.ports, name) == First(Seen(cs), name)
    ensures Names(Run(cs).value.ports) == Names(Seen(cs))
  {
    var n := |cs| - 1;
    var c := cs[n];
    if n == 0 {
      UpdateTwice(EMPTY_SERVICE, c);
      assert Run(cs).value == Update(EMPTY_SERVICE, c);
      assert Seen(cs) == [HTTP] + GivenPorts(c);
      forall name ensures First(Run(cs).value.ports, name) == First(Seen(cs), name) {
        UpdateFirst(EMPTY_SERVICE, c, name);
      }
    } else {
      PortsRatchet(cs[..n]);
      RunIsInitialised(cs[..n]);
      var stored := Run(cs[..n]).value;
      forall name ensures First(Run(cs).value.ports, name) == First(Seen(cs), name) {
        UpdateFirst(stored, c, name);
        FirstAppend(stored.ports, GivenPorts(c), name);
        FirstAppend(Seen(cs[..n]), GivenPorts(c), name);
      }
    }
    NamesByFirst(Run(cs).value.ports, Seen(cs));
  }

  /** A stored port is never moved, changed or dropped by a later reconcile. */
  lemma {:induction false} StoredPortsArePrefix(cs: seq<ConsoleParams>, k: nat)
    requires 0 < k <= |cs|
    ensures Run(cs[..k]).value.ports <= Run(cs).value.ports
  {
    if k == |cs| {
      assert cs[..k] == cs;
    } else {
      StoredPortsArePrefix(cs[..|cs| - 1], k);
      assert cs[..|cs| - 1][..k] == cs[..k];
      RunIsInitialised(cs[..|cs| - 1]);
    }
  }

  /** The names of `extra` that are new do not repeat within `extra`. */
  ghost predicate FreshNamesDistinct(taken: set<string>, extra: seq<ServicePort>) {
    forall i, j :: 0 <= i < j < |extra| && extra[i].name !in taken ==> extra[i].name != extra[j].name
  }

  lemma {:induction false} MissingUniqueIff(taken: set<string>, extra: seq<ServicePort>)
    ensures UniqueNames(Missing(taken, extra)) <==> FreshNamesDistinct(taken, extra)
  {
    if extra != [] {
      var n := |extra| - 1;
      var front, m := extra[..n], Missing(taken, extra[..n]);
      MissingUniqueIff(taken, front);
      if extra[n].name in taken {
        assert m + [] == m;
        assert FreshNamesDistinct(taken, front) <==> FreshNamesDistinct(taken, extra) by {
          assert forall i :: 0 <= i < n ==> front[i] == extra[i];
        }
      } else {
        MissingFirst(taken, front, extra[n].name);
        FirstIff(m, extra[n].name);
        FirstIff(front, extra[n].name);
        UniqueSnoc(m, extra[n]);
        FreshSnoc(taken, front, extra[n]);
        assert extra == front + [extra[n]];
      }
    }
  }

  lemma UniqueSnoc(ports: seq<ServicePort>, p: ServicePort)
    ensures UniqueNames(ports + [p]) <==> UniqueNames(ports) && p.name !in Names(ports)
  {
    var all := ports + [p];
    if UniqueNames(all) {
      assert forall i :: 0 <= i < |ports| ==> all[i] == ports[i] && all[i].name != all[|ports|].name;
    }
  }

  lemma FreshSnoc(taken: set<string>, extra: seq<ServicePort>, p: ServicePort)
    requires p.name !in taken
    ensures FreshNamesDistinct(taken, extra + [p]) <==> FreshNamesDistinct(taken, extra) && p.name !in Names(extra)
  {
    var all := extra + [p];
    if FreshNamesDistinct(taken, all) {
      assert forall i :: 0 <= i < |extra| ==> all[i] == extra[i];
      assert forall i :: 0 <= i < |extra| && extra[i].name == p.name ==> all[i].name == all[|extra|].name;
    }
  }

  /** One merge keeps names unique exactly when the new names of the specification are distinct. */
  lemma UpdateUniqueIff(svc: ServiceSpec, c: ConsoleParams)
    requires UniqueNames(svc.ports)
    ensures UniqueNames(Update(svc, c).ports) <==> FreshNamesDistinct(Names(Initialised(svc, c).ports), GivenPorts(c))
  {
    var s := Initialised(svc, c);
    var m := Missing(Names(s.ports), GivenPorts(c));
    MissingUniqueIff(Names(s.ports), GivenPorts(c));
    forall i | 0 <= i < |m| ensures m[i].name !in Names(s.ports) {
      assert m[i] in m && m[i].name in Names(m);
      FirstIff(m, m[i].name);
      MissingFirst(Names(s.ports), GivenPorts(c), m[i].name);
    }
    UniqueAppend(s.ports, m);
  }

  lemma UniqueAppend(a: seq<ServicePort>, b: seq<ServicePort>)
    requires UniqueNames(a) && forall i :: 0 <= i < |b| ==> b[i].name !in Names(a)
    ensures UniqueNames(a + b) <==> UniqueNames(b)
  {
    var all := a + b;
    if UniqueNames(all) {
      forall i, j | 0 <= i < j < |b| ensures b[i].name != b[j].name {
        assert all[|a| + i] == b[i] && all[|a| + j] == b[j];
      }
    }
  }

  /** Names stay unique over any run of specifications with distinct port names. */
  lemma {:induction false} NamesStayUnique(cs: seq<ConsoleParams>)
    requires cs != [] && forall i :: 0 <= i < |cs| ==> UniqueNames(GivenPorts(cs[i]))
    ensures UniqueNames(Run(cs).value.ports)
  {
    var n := |cs| - 1;
    if n == 0 {
      UpdateTwice(EMPTY_SERVICE, cs[0]);
      UpdateUniqueIff(EMPTY_SERVICE, cs[0]);
    } else {
      NamesStayUnique(cs[..n]);
      UpdateUniqueIff(Run(cs[..n]).value, cs[n]);
    }
  }
}
