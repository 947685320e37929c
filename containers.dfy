/** The Container record that the Lxd module builds from what the host reports,
    and the pure selections it makes while building it. */
module Containers {
  import opened Environment

  /** The attributes Lxd gives a Container. Attributes it does not set are None. */
  datatype Container = Container(
    hostname: string,
    status: Option<string>,
    ipaddress: Option<string>,
    image: Option<string>,
    profiles: Option<seq<string>>,
    createdAt: Option<string>)

  /** A Container that carries only its hostname, as list_containers builds it. */
  function Bare(name: string): Container
  {
    Container(name, None, None, None, None, None)
  }

  /** list_containers' `map`: one bare Container per listed name, in listing order. */
  function Named(names: seq<string>): (cs: seq<Container>)
    ensures |cs| == |names|
    ensures forall i :: 0 <= i < |names| ==> cs[i] == Bare(names[i])
  {
    if names == [] then [] else [Bare(names[0])] + Named(names[1..])
  }

  predicate IsInet(a: Address)
  {
    a.family == Some("inet")
  }

  /** `state&.network&.eth0&.addresses || []`: eth0's address list. It is empty
      when the network, the eth0 interface or its address list is missing. */
  function Eth0Addresses(state: Resource): (addrs: seq<Address>)
    ensures addrs != [] ==>
      state.network.Some? && "eth0" in state.network.value && state.network.value["eth0"].addresses == Some(addrs)
    ensures state.network.Some? && "eth0" in state.network.value && state.network.value["eth0"].addresses.Some? ==>
      addrs == state.network.value["eth0"].addresses.value
  {
    match state.network
    case None => []
    case Some(network) =>
      if "eth0" !in network then []
      else
        match network["eth0"].addresses
        case None => []
        case Some(addresses) => addresses
  }

  /** `select {|x| x[:family] == 'inet'}`: the IPv4 entries. FirstOfInets shows
      that the first of them leads. */
  function Inets(addrs: seq<Address>): (r: seq<Address>)
    ensures |r| <= |addrs|
    ensures forall a :: a in r <==> a in addrs && IsInet(a)
  {
    if addrs == [] then []
    else if IsInet(addrs[0]) then [addrs[0]] + Inets(addrs[1..])
    else Inets(addrs[1..])
  }

  /** The head of the selection is the FIRST IPv4 entry of the list. */
  lemma {:induction false} FirstOfInets(addrs: seq<Address>, k: nat)
    requires k < |addrs| && IsInet(addrs[k])
    requires forall j :: 0 <= j < k ==> !IsInet(addrs[j])
    ensures Inets(addrs) != [] && Inets(addrs)[0] == addrs[k]
  {
    if k > 0 {
      assert !IsInet(addrs[0]);
      FirstOfInets(addrs[1..], k - 1);
    }
  }

  /** `.first&.address`: the address of the first IPv4 entry of eth0, or nil. */
  function IpAddress(state: Resource): (ip: Option<string>)
    ensures ip.Some? ==> exists a :: a in Eth0Addresses(state) && IsInet(a) && a.address == ip
    ensures (forall a :: a in Eth0Addresses(state) ==> !IsInet(a)) ==> ip == None
  {
    var inets := Inets(Eth0Addresses(state));
    if inets == [] then None else inets[0].address
  }

  /** The address chosen is exactly that of the first IPv4 entry. */
  lemma IpAddressIsFirstInet(state: Resource, k: nat)
    requires k < |Eth0Addresses(state)| && IsInet(Eth0Addresses(state)[k])
    requires forall j :: 0 <= j < k ==> !IsInet(Eth0Addresses(state)[j])
    ensures IpAddress(state) == Eth0Addresses(state)[k].address
  {
    FirstOfInets(Eth0Addresses(state), k);
  }

  /** `container_details[:config][:"image.description"]`. */
  function ImageDescription(details: Resource): (image: Option<string>)
    ensures image.Some? <==> "image.description" in details.config
    ensures image.Some? ==> image.value == details.config["image.description"]
  {
    if "image.description" in details.config then Some(details.config["image.description"]) else None
  }

  /** The Container show_container assembles from the descriptor and the runtime state. */
  function Describe(name: string, details: Resource, state: Resource): (c: Container)
    ensures c.hostname == name && c.status == state.status && c.ipaddress == IpAddress(state)
    ensures c.image == ImageDescription(details) && c.profiles == details.profiles && c.createdAt == details.createdAt
  {
    Container(name, state.status, IpAddress(state), ImageDescription(details), details.profiles, details.createdAt)
  }
}
