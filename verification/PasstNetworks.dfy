// forcePasstBinding and populateInterfaceStatus: moving every interface of a VMI to passt and linking
// it to a pod network.
module PasstNetworks {
  import opened Common

  datatype PodNetwork = PodNetwork(cidr: string, ipv6Cidr: string)

  datatype Network = Network(name: string, pod: Option<PodNetwork>, multus: Option<string>)

  datatype Binding = Binding(passt: bool, masquerade: bool, bridge: bool, slirp: bool, sriov: bool, other: bool)

  // `rest` stands for the fields the code never looks at (MAC address, model, ports, ...).
  datatype Interface = Interface(name: string, binding: Binding, rest: string)

  datatype Spec = Spec(networks: seq<Network>, interfaces: seq<Interface>)

  datatype InterfaceStatus = InterfaceStatus(name: string, podInterfaceName: string)

  const DEFAULT := "default"
  const EMPTY_POD := PodNetwork("", "")
  const PASST_ONLY := Binding(true, false, false, false, false, false)
  const DEFAULT_NETWORK := PodOnlyNetwork(DEFAULT)

  function PodOnlyNetwork(name: string): Network {
    Network(name, Some(EMPTY_POD), None)
  }

  predicate IsPodOnly(n: Network) {
    n.pod.Some? && n.multus.None?
  }

  // -------- name lookup --------

  // The first network of that name, or |nets|.
  function First(nets: seq<Network>, name: string): (j: nat)
    ensures j <= |nets|
    ensures j < |nets| ==> nets[j].name == name
    ensures forall i :: 0 <= i < j ==> nets[i].name != name
  {
    if nets == [] || nets[0].name == name then 0 else 1 + First(nets[1..], name)
  }

  predicate Has(nets: seq<Network>, name: string) {
    First(nets, name) < |nets|
  }

  lemma FirstIs(nets: seq<Network>, name: string, j: nat)
    requires j <= |nets| && (j < |nets| ==> nets[j].name == name)
    requires forall i :: 0 <= i < j ==> nets[i].name != name
    ensures First(nets, name) == j
  {
  }

  predicate HasPod(nets: seq<Network>) {
    exists j :: 0 <= j < |nets| && nets[j].pod.Some?
  }

  // -------- the result in closed form --------

  function Prepended(nets: seq<Network>): seq<Network> {
    if HasPod(nets) then nets else [DEFAULT_NETWORK] + nets
  }

  // Of the interfaces with these names, some have no network of their own.
  predicate SomeUnmatched(nets: seq<Network>, names: seq<string>) {
    exists i :: 0 <= i < |names| && !Has(nets, names[i])
  }

  function Touched(nets: seq<Network>, names: seq<string>, j: nat): Network
    requires j < |nets|
  {
    if nets[j].name in names && First(nets, nets[j].name) == j then PodOnlyNetwork(nets[j].name) else nets[j]
  }

  function Appended(nets: seq<Network>, names: seq<string>): seq<Network> {
    if SomeUnmatched(nets, names) && !Has(nets, DEFAULT) then [DEFAULT_NETWORK] else []
  }

  function Rewritten(nets: seq<Network>, names: seq<string>): (r: seq<Network>)
    ensures |r| == |nets|
  {
    seq(|nets|, j requires 0 <= j < |nets| => Touched(nets, names, j))
  }

  function Networks(nets: seq<Network>, names: seq<string>): seq<Network> {
    Rewritten(nets, names) + Appended(nets, names)
  }

  function FinalName(nets: seq<Network>, name: string): string {
    if Has(nets, name) then name else DEFAULT
  }

  function InterfaceNames(ifs: seq<Interface>): seq<string> {
    seq(|ifs|, i requires 0 <= i < |ifs| => ifs[i].name)
  }

  function Bound(ifs: seq<Interface>): (r: seq<Interface>)
    ensures |r| == |ifs|
  {
    seq(|ifs|, i requires 0 <= i < |ifs| => ifs[i].(binding := PASST_ONLY))
  }

  function Renamed(base: seq<Network>, ifs: seq<Interface>): (r: seq<Interface>)
    ensures |r| == |ifs|
  {
    seq(|ifs|, i requires 0 <= i < |ifs| => ifs[i].(name := FinalName(base, ifs[i].name)))
  }

  function Forced(s: Spec): Spec {
    var base := Prepended(s.networks);
    Spec(Networks(base, InterfaceNames(s.interfaces)), Renamed(base, Bound(s.interfaces)))
  }

  function Statuses(ifs: seq<Interface>): (r: seq<InterfaceStatus>)
    ensures |r| == |ifs|
  {
    seq(|ifs|, i requires 0 <= i < |ifs| => InterfaceStatus(ifs[i].name, "eth" + Decimal(i)))
  }

  // -------- the rewrite, in place --------

  // Looking a name up in a list that is part way through the rewrite.
  lemma FirstInNetworks(base: seq<Network>, names: seq<string>, name: string)
    ensures var nets := Networks(base, names);
      if Has(base, name) then First(nets, name) == First(base, name)
      else if name == DEFAULT && Appended(base, names) != [] then First(nets, name) == |base|
      else First(nets, name) == |nets|
  {
    var nets := Networks(base, names);
    FirstIs(nets, name,
      if Has(base, name) then First(base, name)
      else if name == DEFAULT && Appended(base, names) != [] then |base|
      else |nets|);
  }

  lemma RewrittenStep(base: seq<Network>, names: seq<string>, name: string)
    ensures Rewritten(base, names + [name]) ==
      if Has(base, name) then Rewritten(base, names)[First(base, name) := PodOnlyNetwork(name)]
      else Rewritten(base, names)
  {
  }

  lemma AppendedStep(base: seq<Network>, names: seq<string>, name: string)
    ensures Appended(base, names + [name]) ==
      if !Has(base, name) && !Has(base, DEFAULT) then [DEFAULT_NETWORK] else Appended(base, names)
  {
    var names' := names + [name];
    assert names'[|names|] == name;
    assert SomeUnmatched(base, names) ==> SomeUnmatched(base, names') by {
      if SomeUnmatched(base, names) {
        var i :| 0 <= i < |names| && !Has(base, names[i]);
        assert !Has(base, names'[i]);
      }
    }
  }

  // One more interface name rewrites its network, or appends "default" if that is missing.
  lemma NetworksStep(base: seq<Network>, names: seq<string>, name: string)
    ensures var nets, nets' := Networks(base, names), Networks(base, names + [name]);
      if Has(nets, name) then nets' == nets[First(nets, name) := PodOnlyNetwork(name)]
      else if Has(nets, DEFAULT) then nets' == nets
      else nets' == nets + [DEFAULT_NETWORK]
    ensures FinalName(Networks(base, names), name) == FinalName(base, name)
  {
    RewrittenStep(base, names, name);
    AppendedStep(base, names, name);
    FirstInNetworks(base, names, name);
    FirstInNetworks(base, names, DEFAULT);
  }

  class Vmi {
    var networks: seq<Network>
    var interfaces: seq<Interface>
    var status: seq<InterfaceStatus>

    function Value(): Spec
      reads this`networks, this`interfaces
    {
      Spec(networks, interfaces)
    }

    method ForcePasstBinding()
      modifies this`networks, this`interfaces
      ensures Value() == Forced(old(Value()))
    {
      EnsurePodNetwork();
      BindPasst();
      LinkInterfaces();
      assert InterfaceNames(old(interfaces)) == InterfaceNames(Bound(old(interfaces)));
      assert Value().interfaces == Forced(old(Value())).interfaces;
    }

    method EnsurePodNetwork()
      modifies this`networks
      ensures networks == Prepended(old(networks))
    {
      var hasPodNetwork := false;
      for j := 0 to |networks|
        invariant !hasPodNetwork && forall i :: 0 <= i < j ==> networks[i].pod.None?
      {
        if networks[j].pod.Some? {
          hasPodNetwork := true;
          break;
        }
      }
      if !hasPodNetwork {
        networks := [DEFAULT_NETWORK] + networks;
      }
    }

    method BindPasst()
      modifies this`interfaces
      ensures interfaces == Bound(old(interfaces))
    {
      for i := 0 to |interfaces|
        invariant |interfaces| == |old(interfaces)|
        invariant interfaces[..i] == Bound(old(interfaces))[..i] && interfaces[i..] == old(interfaces)[i..]
      {
        interfaces := interfaces[i := interfaces[i].(binding := PASST_ONLY)];
      }
    }

    method LinkInterfaces()
      modifies this`networks, this`interfaces
      ensures networks == Networks(old(networks), InterfaceNames(old(interfaces)))
      ensures interfaces == Renamed(old(networks), old(interfaces))
    {
      ghost var base, ifs := networks, interfaces;
      ghost var names := InterfaceNames(ifs);
      for i := 0 to |interfaces|
        invariant |interfaces| == |ifs|
        invariant forall k :: 0 <= k < |ifs| ==> interfaces[k] == if k < i then Renamed(base, ifs)[k] else ifs[k]
        invariant networks == Networks(base, names[..i])
      {
        assert names[..i + 1] == names[..i] + [names[i]];
        NetworksStep(base, names[..i], ifs[i].name);
        LinkInterface(i);
      }
      assert names[..|ifs|] == names;
    }

    // The body of the linking loop for interface i.
    method LinkInterface(i: nat)
      requires i < |interfaces|
      modifies this`networks, this`interfaces
      ensures var name := old(interfaces)[i].name;
        if Has(old(networks), name) then
          networks == old(networks)[First(old(networks), name) := PodOnlyNetwork(name)] && interfaces == old(interfaces)
        else
          && interfaces == old(interfaces)[i := old(interfaces)[i].(name := DEFAULT)]
          && networks == old(networks) + if Has(old(networks), DEFAULT) then [] else [DEFAULT_NETWORK]
    {
      var j := 0;
      while j < |networks|
        invariant j <= |networks|
        invariant networks == old(networks) && interfaces == old(interfaces)
        invariant forall k :: 0 <= k < j ==> networks[k].name != interfaces[i].name
      {
        if networks[j].name == interfaces[i].name {
          FirstIs(networks, interfaces[i].name, j);
          networks := networks[j := networks[j].(pod := Some(EMPTY_POD), multus := None)];
          return;
        }
        j := j + 1;
      }
      FirstIs(networks, interfaces[i].name, j);
      interfaces := interfaces[i := interfaces[i].(name := DEFAULT)];
      var defaultExists := false;
      j := 0;
      while j < |networks| && !defaultExists
        invariant j <= |networks| && networks == old(networks)
        invariant interfaces == old(interfaces)[i := old(interfaces)[i].(name := DEFAULT)]
        invariant !defaultExists ==> forall k :: 0 <= k < j ==> networks[k].name != DEFAULT
        invariant defaultExists ==> Has(networks, DEFAULT)
        decreases |networks| - j, !defaultExists
      {
        if networks[j].name == DEFAULT {
          FirstIs(networks, DEFAULT, j);
          defaultExists := true;
        } else {
          j := j + 1;
        }
      }
      if !defaultExists {
        FirstIs(networks, DEFAULT, |networks|);
        networks := networks + [DEFAULT_NETWORK];
      }
    }

    method PopulateInterfaceStatus()
      modifies this`status
      ensures status == old(status) + Statuses(interfaces)
    {
      for i := 0 to |interfaces|
        invariant status == old(status) + Statuses(interfaces)[..i]
      {
        status := status + [InterfaceStatus(interfaces[i].name, "eth" + Decimal(i))];
      }
    }
  }
}
