/** The controller's Service: the user's ports followed by the default ports whose names are missing,
    appended to a Go slice that may share its backing array with the instance. */
module ControllerService {
  import opened Kubernetes
  import opened Ports
  import opened Slices

  function DefaultPorts(): seq<ServicePort> {
    [ ServicePort("grpc-xds", "TCP", 15010, 0), ServicePort("http-service", "TCP", 8888, 0),
      ServicePort("https-dns", "TCP", 15012, 0), ServicePort("https-webhook", "TCP", 443, 0),
      ServicePort("https-monitoring", "TCP", 15014, 0) ]
  }

  function AddDefaults(ports: seq<ServicePort>): seq<ServicePort> {
    ports + Missing(Names(ports), DefaultPorts())
  }

  /** The type always ends as NodePort, whatever the user asked for. */
  function Update(svc: ServiceSpec, f: ControllerFields): ServiceSpec {
    var ports := match f.service case Some(s) => s.ports case None => svc.ports;
    svc.(selector := f.selectorLabels, kind := "NodePort", ports := if f.istio then ports else AddDefaults(ports))
  }

  // ---- The source's in-place form ----

  /** The instance's service section, with its ports as the slice they are. */
  datatype ServiceSection = ServiceSection(kind: string, ports: Slice<ServicePort>)

  /** The section has the type and the ports that the instance asks for. */
  ghost predicate Describes(section: Option<ServiceSection>, service: Option<ServiceParams>)
    reads if section.Some? then {section.value.ports.data} else {}
  {
    && (section.Some? <==> service.Some?)
    && (section.Some? ==>
          && ValidSlice(section.value.ports) && Elements(section.value.ports) == service.value.ports
          && section.value.kind == service.value.kind)
  }

  class ServiceObject {
    var selector: map<string, string>
    var kind: string
    var ports: Slice<ServicePort>
    var loadBalancerIP: string
    var sourceRanges: seq<string>
    var trafficPolicy: string

    constructor (selector: map<string, string>, kind: string, ports: Slice<ServicePort>)
      ensures this.selector == selector && this.kind == kind && this.ports == ports
      ensures loadBalancerIP == "" && sourceRanges == [] && trafficPolicy == ""
    {
      this.selector, this.kind, this.ports := selector, kind, ports;
      loadBalancerIP, sourceRanges, trafficPolicy := "", [], "";
    }

    ghost function Spec(): ServiceSpec
      requires ValidSlice(ports)
      reads this, ports.data
    {
      ServiceSpec(kind, selector, Elements(ports), loadBalancerIP, sourceRanges, trafficPolicy)
    }

    /** Writes the service in place. The instance's own ports keep their observable value although the
        result may live in the same array. */
    method UpdateServiceSpec(f: ControllerFields, section: Option<ServiceSection>)
      requires ValidSlice(ports) && Describes(section, f.service)
      modifies this, ports.data, if section.Some? then {section.value.ports.data} else {}
      ensures ValidSlice(ports) && Spec() == Update(old(Spec()), f)
      ensures Describes(section, f.service)
    {
      selector := f.selectorLabels;
      kind := "ClusterIP";
      if section.Some? {
        if section.value.kind != "" {
          kind := section.value.kind;
        }
        ports := section.value.ports;
      }
      kind := "NodePort";
      if !f.istio {
        ports := AppendDefaults(ports);
      }
    }
  }

  /** The two loops: collect the names in use, then append each default port whose name is free. */
  method AppendDefaults(given: Slice<ServicePort>) returns (ports: Slice<ServicePort>)
    requires ValidSlice(given)
    modifies given.data
    ensures ValidSlice(ports) && Elements(ports) == AddDefaults(old(Elements(given)))
    ensures Elements(given) == old(Elements(given))
  {
    ghost var start := Elements(given);
    var names: set<string> := {};
    for i := 0 to given.len
      invariant names == Names(start[..i]) && Elements(given) == start && unchanged(given.data)
    {
      NamesStep(start, i);
      names := names + {given.data[i].name};
    }
    assert start[..|start|] == start;
    assert start + Missing(names, []) == start;
    hide Names, Missing, DefaultPorts;
    ports := given;
    var defaults := DefaultPorts();
    for i := 0 to |defaults|
      invariant ValidSlice(ports) && given.len <= ports.len
      invariant ports.data == given.data || fresh(ports.data)
      invariant Elements(given) == start
      invariant Elements(ports) == start + Missing(names, defaults[..i])
    {
      MissingStep(names, defaults, i);
      if defaults[i].name !in names {
        ports := AppendKeeping(given, ports, defaults[i]);
      }
    }
    assert defaults[..|defaults|] == defaults;
  }

  // ---- Properties ----

  /** A default port, unless its name is taken. */
  function Gap(given: seq<ServicePort>, name: string, port: int): seq<ServicePort> {
    if name in Names(given) then [] else [ServicePort(name, "TCP", port, 0)]
  }

  /** A NodePort whatever the user asks for; the user's ports first, or else those that are there; behind them, with
      Istio off, the five default ports whose names are free; and nothing else is touched. */
  lemma UpdatedService(svc: ServiceSpec, f: ControllerFields)
    ensures var r := Update(svc, f);
            var given := if f.service.Some? then f.service.value.ports else svc.ports;
            && r.kind == "NodePort" && r.selector == f.selectorLabels
            && r.ports == given + (if f.istio then [] else
                 Gap(given, "grpc-xds", 15010) + Gap(given, "http-service", 8888) + Gap(given, "https-dns", 15012)
                 + Gap(given, "https-webhook", 443) + Gap(given, "https-monitoring", 15014))
            && r.loadBalancerIP == svc.loadBalancerIP && r.sourceRanges == svc.sourceRanges
            && r.trafficPolicy == svc.trafficPolicy
  {
    FiveGaps(if f.service.Some? then f.service.value.ports else svc.ports);
  }

  lemma FiveGaps(given: seq<ServicePort>)
    ensures AddDefaults(given) ==
            given + (Gap(given, "grpc-xds", 15010) + Gap(given, "http-service", 8888) + Gap(given, "https-dns", 15012)
                     + Gap(given, "https-webhook", 443) + Gap(given, "https-monitoring", 15014))
  {
    hide Names, Gap;
    GapStep(given, 0, "grpc-xds", 15010);
    GapStep(given, 1, "http-service", 8888);
    GapStep(given, 2, "https-dns", 15012);
    GapStep(given, 3, "https-webhook", 443);
    GapStep(given, 4, "https-monitoring", 15014);
    hide Missing;
    assert DefaultPorts()[..5] == DefaultPorts() && DefaultPorts()[..0] == [];
  }

  lemma GapStep(given: seq<ServicePort>, i: nat, name: string, port: int)
    requires i < 5 && DefaultPorts()[i] == ServicePort(name, "TCP", port, 0)
    ensures given + Missing(Names(given), DefaultPorts()[..i + 1])
         == given + Missing(Names(given), DefaultPorts()[..i]) + Gap(given, name, port)
  {
    hide Names;
    MissingStep(Names(given), DefaultPorts(), i);
    hide Missing, DefaultPorts;
  }

  /** The merged list starts with the given ports, has every default name, and its names are unique
      exactly when the given ones were. */
  lemma DefaultsAreAdded(ports: seq<ServicePort>)
    ensures ports <= AddDefaults(ports)
    ensures Names(AddDefaults(ports)) == Names(ports) + Names(DefaultPorts())
    ensures UniqueNames(AddDefaults(ports)) <==> UniqueNames(ports)
  {
    hide Missing;
    MissingNames(Names(ports), DefaultPorts());
    MissingUnique(Names(ports), DefaultPorts());
    JoinedNames(ports, Missing(Names(ports), DefaultPorts()));
  }

  lemma JoinedNames(ports: seq<ServicePort>, more: seq<ServicePort>)
    requires UniqueNames(more) && Names(ports) !! Names(more)
    ensures Names(ports + more) == Names(ports) + Names(more)
    ensures UniqueNames(ports + more) <==> UniqueNames(ports)
  {
    var all := ports + more;
    assert forall i :: 0 <= i < |ports| ==> all[i] == ports[i];
    if UniqueNames(ports) {
      NamesOf(ports);
      NamesOf(more);
      assert forall i :: |ports| <= i < |all| ==> all[i] == more[i - |ports|];
    }
  }

  /** A second application changes nothing, with or without Istio and with or without a service section. */
  lemma UpdateIsIdempotent(svc: ServiceSpec, f: ControllerFields)
    ensures Update(Update(svc, f), f) == Update(svc, f)
  {
    if f.service.None? && !f.istio {
      DefaultsAreAdded(svc.ports);
      var all := AddDefaults(svc.ports);
      MissingNothing(Names(all), DefaultPorts());
      assert all + [] == all;
    }
  }
}
