/** Port lists keyed by name, as both service merges use them. */
module Ports {
  import opened Kubernetes

  function Names(ports: seq<ServicePort>): set<string> {
    set p | p in ports :: p.name
  }

  /** The ports of `extra` whose names are not in `taken`, in order. */
  function Missing(taken: set<string>, extra: seq<ServicePort>): seq<ServicePort> {
    if extra == [] then []
    else
      var last := extra[|extra| - 1];
      Missing(taken, extra[..|extra| - 1]) + (if last.name in taken then [] else [last])
  }

  ghost predicate UniqueNames(ports: seq<ServicePort>) {
    forall i, j :: 0 <= i < j < |ports| ==> ports[i].name != ports[j].name
  }

  lemma {:induction false} MissingNames(taken: set<string>, extra: seq<ServicePort>)
    ensures Names(Missing(taken, extra)) == Names(extra) - taken
  {
    if extra != [] {
      var n := |extra| - 1;
      MissingNames(taken, extra[..n]);
      var m := Missing(taken, extra[..n]);
      assert extra == extra[..n] + [extra[n]];
      assert Names(extra) == Names(extra[..n]) + {extra[n].name};
      if extra[n].name !in taken {
        assert Names(m + [extra[n]]) == Names(m) + {extra[n].name};
      } else {
        assert m + [] == m;
      }
    }
  }

  lemma {:induction false} MissingUnique(taken: set<string>, extra: seq<ServicePort>)
    requires UniqueNames(extra)
    ensures UniqueNames(Missing(taken, extra))
  {
    hide Names;
    if extra != [] {
      var n := |extra| - 1;
      MissingUnique(taken, extra[..n]);
      MissingNames(taken, extra[..n]);
      NotInPrefix(extra);
      if extra[n].name !in taken {
        UniqueSnoc(Missing(taken, extra[..n]), extra[n]);
      }
    }
  }

  lemma NotInPrefix(ports: seq<ServicePort>)
    requires ports != [] && UniqueNames(ports)
    ensures ports[|ports| - 1].name !in Names(ports[..|ports| - 1])
  {
  }

  lemma UniqueSnoc(ports: seq<ServicePort>, p: ServicePort)
    requires UniqueNames(ports) && p.name !in Names(ports)
    ensures UniqueNames(ports + [p])
  {
    NamesOf(ports);
  }

  lemma NamesOf(ports: seq<ServicePort>)
    ensures forall i :: 0 <= i < |ports| ==> ports[i].name in Names(ports)
  {
  }

  lemma {:induction false} MissingNothing(taken: set<string>, extra: seq<ServicePort>)
    requires Names(extra) <= taken
    ensures Missing(taken, extra) == []
  {
    if extra != [] {
      var n := |extra| - 1;
      NamesOf(extra);
      assert extra[n].name in taken;
      assert forall p :: p in extra[..n] ==> p in extra;
      MissingNothing(taken, extra[..n]);
    }
  }

  lemma MissingStep(taken: set<string>, ports: seq<ServicePort>, i: nat)
    requires i < |ports|
    ensures Missing(taken, ports[..i + 1])
         == Missing(taken, ports[..i]) + (if ports[i].name in taken then [] else [ports[i]])
  {
    assert ports[..i + 1][..i] == ports[..i];
  }

  lemma NamesStep(ports: seq<ServicePort>, i: nat)
    requires i < |ports|
    ensures Names(ports[..i + 1]) == Names(ports[..i]) + {ports[i].name}
  {
    assert ports[..i + 1] == ports[..i] + [ports[i]];
  }
}
