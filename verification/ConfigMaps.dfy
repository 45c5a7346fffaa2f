/** The mesh config map of both reconcilers. Building it writes a default into the instance after the
    value to be encoded was copied out of it, so the default only appears from the second build on. */
module ConfigMaps {
  import opened Kubernetes
  import opened Slices

  /** What a build reads besides the mesh configuration itself. */
  datatype Settings = Settings(
    name: string, ns: string, istio: bool, istioNamespace: string, addSource: bool, networks: Literal,
        higress: Option<Literal>)

  function DefaultAddress(s: Settings): string {
    if s.istio then "istiod." + s.ns + ".svc:15012" else s.name + "." + s.ns + ".svc:15012"
  }

  /** The mesh configuration as encoded: note that it keeps the discovery address it was given. */
  function Emitted(s: Settings, mesh: MeshConfig): MeshConfig {
    mesh.(rootNamespace := if !s.istio then s.ns
                           else if mesh.rootNamespace == "" then s.istioNamespace else mesh.rootNamespace,
          configSources := if s.addSource then mesh.configSources + ["k8s://"] else mesh.configSources)
  }

  function Data(s: Settings, mesh: MeshConfig): map<string, Yaml> {
    var data := map["meshNetworks" := NetworksYaml(s.networks), "mesh" := MeshYaml(Emitted(s, mesh))];
    match s.higress case Some(h) => data["higress" := HigressYaml(h)] case None => data
  }

  /** What a build leaves in the instance. */
  function Defaulted(s: Settings, mesh: MeshConfig): MeshConfig {
    if mesh.discoveryAddress == "" then mesh.(discoveryAddress := DefaultAddress(s)) else mesh
  }

  /** The data every build after the first one produces. */
  function SettledData(s: Settings, mesh: MeshConfig): map<string, Yaml> {
    Data(s, Defaulted(s, mesh))
  }

  // ---- The source's in-place form ----

  class Instance {
    var rootNamespace: string
    var sources: Slice<string>
    var address: string
    var rest: Literal

    constructor (rootNamespace: string, sources: Slice<string>, address: string, rest: Literal)
      ensures this.rootNamespace == rootNamespace && this.sources == sources && this.address == address
          && this.rest == rest
    {
      this.rootNamespace, this.sources, this.address, this.rest := rootNamespace, sources, address, rest;
    }

    ghost predicate Valid()
      reads this, sources.data
    {
      ValidSlice(sources)
    }

    ghost function Mesh(): MeshConfig
      requires Valid()
      reads this, sources.data
    {
      MeshConfig(rootNamespace, Elements(sources), address, rest)
    }

    /** Builds the data and, on the way, writes the default address into this instance. The appended
        source may be written into the instance's own array, but beyond its length. */
    method UpdateGatewayConfigMapSpec(s: Settings) returns (data: map<string, Yaml>)
      requires Valid()
      modifies this, sources.data
      ensures Valid() && sources == old(sources)
      ensures data == Data(s, old(Mesh()))
      ensures Mesh() == Defaulted(s, old(Mesh()))
      ensures old(address) != "" ==> address == old(address)
      ensures old(address) == "" ==>
                address == if s.istio then "istiod." + s.ns + ".svc:15012" else s.name + "." + s.ns + ".svc:15012"
    {
      data := map["meshNetworks" := NetworksYaml(s.networks)];
      ghost var mesh := Mesh();
      var copyRoot, copySources, copyAddress := rootNamespace, sources, address;
      if s.istio {
        if copyRoot == "" {
          copyRoot := s.istioNamespace;
        }
      } else {
        copyRoot := s.ns;
      }
      if s.addSource {
        copySources := Append(copySources, "k8s://");
      }
      if address == "" {
        if s.istio {
          address := "istiod." + s.ns + ".svc:15012";
        } else {
          address := s.name + "." + s.ns + ".svc:15012";
        }
      }
      var encoded := MeshConfig(copyRoot, copySources.data[..copySources.len], copyAddress, rest);
      assert encoded == Emitted(s, mesh);
      data := data["mesh" := MeshYaml(encoded)];
      if s.higress.Some? {
        data := data["higress" := HigressYaml(s.higress.value)];
      }
    }

    /** The init-then-mutate sequence of one reconcile: the first build is overwritten by the second. */
    method InitThenMutate(s: Settings) returns (stored: map<string, Yaml>)
      requires Valid()
      modifies this, sources.data
      ensures Valid() && Mesh() == Defaulted(s, old(Mesh()))
      ensures stored == SettledData(s, old(Mesh())) && AsAsked(s, old(Mesh()), stored)
    {
      StoredMesh(s, Mesh());
      var first := UpdateGatewayConfigMapSpec(s);
      stored := UpdateGatewayConfigMapSpec(s);
    }
  }

  // ---- Properties ----

  /** The instance after `n` builds. */
  function After(s: Settings, mesh: MeshConfig, n: nat): MeshConfig {
    if n == 0 then mesh else Defaulted(s, After(s, mesh, n - 1))
  }

  /** Every build but the first produces the settled data; the first one does too exactly when the user gave
      an address. */
  lemma {:induction false} SettlesOnTheSecondBuild(s: Settings, mesh: MeshConfig, n: nat)
    ensures n > 0 ==> Data(s, After(s, mesh, n)) == SettledData(s, mesh)
    ensures Data(s, mesh) == SettledData(s, mesh) <==> mesh.discoveryAddress != ""
  {
    DefaultIsNotEmpty(s);
    assert Data(s, mesh)["mesh"] == MeshYaml(Emitted(s, mesh));
    assert SettledData(s, mesh)["mesh"] == MeshYaml(Emitted(s, Defaulted(s, mesh)));
    if n > 0 {
      SettlesOnTheSecondBuild(s, mesh, n - 1);
      AfterIsDefaulted(s, mesh, n);
    }
  }

  lemma {:induction false} AfterIsDefaulted(s: Settings, mesh: MeshConfig, n: nat)
    requires n > 0
    ensures After(s, mesh, n) == Defaulted(s, mesh)
  {
    if n > 1 {
      DefaultIsNotEmpty(s);
      AfterIsDefaulted(s, mesh, n - 1);
    }
  }

  lemma DefaultIsNotEmpty(s: Settings)
    ensures DefaultAddress(s) != ""
  {
    assert |DefaultAddress(s)| >= |".svc:15012"|;
  }

  /** The user's discovery address or else istiod's with Istio on
      and the instance's own Service with Istio off; the instance's namespace as root with Istio off and the user's or
      else Istio's with Istio on; the user's sources with at most one `k8s://` behind them; the rest as it is; and the
      instance's own sections under the other keys. */
  ghost predicate AsAsked(s: Settings, mesh: MeshConfig, data: map<string, Yaml>) {
    && data.Keys == {"mesh", "meshNetworks"} + (if s.higress.Some? then {"higress"} else {})
    && data["meshNetworks"] == NetworksYaml(s.networks)
    && (s.higress.Some? ==> data["higress"] == HigressYaml(s.higress.value))
    && data["mesh"].MeshYaml?
    && var stored := data["mesh"].mesh;
       && (mesh.discoveryAddress != "" ==> stored.discoveryAddress == mesh.discoveryAddress)
       && (mesh.discoveryAddress == "" && s.istio ==> stored.discoveryAddress == "istiod." + s.ns + ".svc:15012")
       && (mesh.discoveryAddress == "" && !s.istio ==>
             stored.discoveryAddress == s.name + "." + s.ns + ".svc:15012")
       && (!s.istio ==> stored.rootNamespace == s.ns)
       && (s.istio && mesh.rootNamespace != "" ==> stored.rootNamespace == mesh.rootNamespace)
       && (s.istio && mesh.rootNamespace == "" ==> stored.rootNamespace == s.istioNamespace)
       && stored.configSources == mesh.configSources + (if s.addSource then ["k8s://"] else [])
       && stored.rest == mesh.rest
  }

  /** What is stored, however often the data was built. */
  lemma StoredMesh(s: Settings, mesh: MeshConfig)
    ensures AsAsked(s, mesh, SettledData(s, mesh))
  {
    DefaultIsNotEmpty(s);
    assert SettledData(s, mesh)["mesh"] == MeshYaml(Emitted(s, Defaulted(s, mesh)));
    assert mesh.configSources + [] == mesh.configSources;
  }
}
