/** Subnets and speaker groups: what a topology refresh computes from the discovery
    records, the multizone memberships and the network adapters. */
module Topology {
  import opened Vocabulary

  const ASSUMED_PREFIX: nat := 24
  const ADDRESS_BITS: nat := 32

  /** A discovered host: an IPv4 literal, or any other text. */
  datatype Host = Ipv4(address: nat) | OtherHost(text: string)

  datatype Info = Info(host: Option<Host>, port: nat, isAudioGroup: bool, isDynamicGroup: bool)

  /** An IPv4 network in prefix notation; `base` has its host bits cleared. */
  datatype Network = Network(base: nat, prefix: nat)

  // ----------------------------------------------------------------- subnets

  /** The number of addresses that share a prefix of the given length. */
  function Size(prefix: nat): (n: nat)
    ensures n >= 1
  {
    Pow2(if prefix <= ADDRESS_BITS then ADDRESS_BITS - prefix else 0)
  }

  /** A prefix and the addresses under it make up the whole of the 32-bit address space. */
  lemma {:induction false} SizeMeans(prefix: nat)
    requires prefix <= 32
    ensures Pow2(prefix) * Size(prefix) == 0x1_0000_0000
  {
    if prefix == 0 {
      AllAddresses();
    } else {
      SizeMeans(prefix - 1);
      assert Size(prefix - 1) == 2 * Size(prefix) && Pow2(prefix) == 2 * Pow2(prefix - 1);
      hide Size, Pow2;
      Doubling(Pow2(prefix - 1), Size(prefix));
    }
  }

  lemma AllAddresses()
    ensures Pow2(32) == 0x1_0000_0000
  {
    assert Pow2(8) == 256 && Pow2(16) == 256 * Pow2(8) && Pow2(24) == 256 * Pow2(16);
  }

  lemma Doubling(a: nat, b: nat)
    ensures (2 * a) * b == a * (2 * b)
  {
  }

  /** The address with the bits below its prefix cleared. */
  function Masked(address: nat, size: nat): nat
    requires size >= 1
  {
    address / size * size
  }

  function NetworkOf(address: nat, prefix: nat): Network {
    Network(Masked(address, Size(prefix)), prefix)
  }

  predicate InNetwork(address: nat, net: Network) {
    Masked(address, Size(net.prefix)) == net.base
  }

  /** The first adapter network that contains the address, or an assumed /24. */
  function SubnetOfAddress(adapters: seq<Network>, address: nat): Network {
    if adapters == [] then NetworkOf(address, ASSUMED_PREFIX)
    else if InNetwork(address, adapters[0]) then adapters[0]
    else SubnetOfAddress(adapters[1..], address)
  }

  function SubnetOf(adapters: seq<Network>, host: Option<Host>): Option<Network> {
    if host.Some? && host.value.Ipv4? then Some(SubnetOfAddress(adapters, host.value.address)) else None
  }

  ghost predicate Canonical(net: Network) {
    Masked(net.base, Size(net.prefix)) == net.base
  }

  /** Masking is the same as lying in the network's block of addresses. */
  lemma InNetworkIsRange(address: nat, net: Network)
    requires Canonical(net)
    ensures InNetwork(address, net) <==> net.base <= address < net.base + Size(net.prefix)
  {
    hide Size;
    var n := Size(net.prefix);
    MaskedBelow(address, n);
    if net.base <= address < net.base + n {
      MaskedUnique(address, n, net.base / n);
    }
  }

  lemma MaskedBelow(a: nat, n: nat)
    requires n >= 1
    ensures Masked(a, n) <= a < Masked(a, n) + n
  {
  }

  lemma MaskedUnique(a: nat, n: nat, q: nat)
    requires n >= 1 && q * n <= a < q * n + n
    ensures Masked(a, n) == q * n
  {
    MaskedBelow(a, n);
    var p := a / n;
    if p < q {
      MulStep(p, q, n);
    } else if q < p {
      MulStep(q, p, n);
    }
  }

  lemma {:induction false} MulStep(p: nat, q: nat, n: nat)
    requires p < q
    ensures p * n + n <= q * n
  {
    if q == p + 1 {
      assert (p + 1) * n == p * n + n;
    } else {
      MulStep(p, q - 1, n);
      assert (q - 1 + 1) * n == (q - 1) * n + n;
    }
  }

  lemma NetworkOfIsCanonical(address: nat, prefix: nat)
    ensures Canonical(NetworkOf(address, prefix)) && InNetwork(address, NetworkOf(address, prefix))
  {
    hide Size;
    MaskedUnique(Masked(address, Size(prefix)), Size(prefix), address / Size(prefix));
  }

  /** The subnet chosen for an address contains it, by prefix arithmetic
      (section 3.1 of RFC 4632), and an adapter's network is preferred to the guess. */
  lemma {:induction false} SubnetContainsAddress(adapters: seq<Network>, address: nat)
    requires forall i :: 0 <= i < |adapters| ==> Canonical(adapters[i])
    ensures var net := SubnetOfAddress(adapters, address);
      && net.base <= address < net.base + Size(net.prefix)
      && (net in adapters || (net.prefix == ASSUMED_PREFIX && forall i :: 0 <= i < |adapters| ==> !InNetwork(address, adapters[i])))
    decreases |adapters|
  {
    if adapters == [] {
      NetworkOfIsCanonical(address, ASSUMED_PREFIX);
      InNetworkIsRange(address, NetworkOf(address, ASSUMED_PREFIX));
    } else if InNetwork(address, adapters[0]) {
      InNetworkIsRange(address, adapters[0]);
    } else {
      SubnetContainsAddress(adapters[1..], address);
      forall i | 0 <= i < |adapters| && SubnetOfAddress(adapters, address) !in adapters
        ensures !InNetwork(address, adapters[i])
      {
        if i > 0 {
          assert adapters[i] == adapters[1..][i - 1];
        }
      }
    }
  }

  /** Of several adapter networks that contain the address, the first is chosen. */
  lemma {:induction false} SubnetIsFirst(adapters: seq<Network>, address: nat, i: nat)
    requires i < |adapters| && InNetwork(address, adapters[i])
    requires forall j :: 0 <= j < i ==> !InNetwork(address, adapters[j])
    ensures SubnetOfAddress(adapters, address) == adapters[i]
  {
    if i > 0 {
      assert !InNetwork(address, adapters[0]);
      SubnetIsFirst(adapters[1..], address, i - 1);
    }
  }

  // ------------------------------------------------------------------ sorting

  predicate SortedUuids(s: seq<Uuid>) {
    forall i, j :: 0 <= i < j < |s| ==> s[i] <= s[j]
  }

  function Insert(u: Uuid, s: seq<Uuid>): seq<Uuid> {
    if s == [] || u <= s[0] then [u] + s else [s[0]] + Insert(u, s[1..])
  }

  /** Python's `sorted`. */
  function Sort(s: seq<Uuid>): seq<Uuid> {
    if s == [] then [] else Insert(s[0], Sort(s[1..]))
  }

  lemma {:induction false} InsertElements(u: Uuid, s: seq<Uuid>)
    ensures multiset(Insert(u, s)) == multiset(s) + multiset{u}
  {
    if s != [] && u > s[0] {
      InsertElements(u, s[1..]);
      assert s == [s[0]] + s[1..];
    }
  }

  lemma {:induction false} InsertSorts(u: Uuid, s: seq<Uuid>)
    requires SortedUuids(s)
    ensures SortedUuids(Insert(u, s))
  {
    if s != [] && u > s[0] {
      InsertSorts(u, s[1..]);
      var rest := Insert(u, s[1..]);
      InsertElements(u, s[1..]);
      forall i | 0 <= i < |rest| ensures s[0] <= rest[i] {
        assert rest[i] in multiset(rest);
        assert rest[i] in s[1..] || rest[i] == u;
      }
      SortedCons(s[0], rest);
    } else if s != [] {
      SortedCons(u, s);
    }
  }

  lemma SortedCons(u: Uuid, s: seq<Uuid>)
    requires SortedUuids(s) && forall i :: 0 <= i < |s| ==> u <= s[i]
    ensures SortedUuids([u] + s)
  {
    var r := [u] + s;
    forall i, j | 0 <= i < j < |r| ensures r[i] <= r[j] {
      if i > 0 {
        assert r[i] == s[i - 1] && r[j] == s[j - 1];
      }
    }
  }

  /** Sorting arranges the same elements in ascending order. */
  lemma {:induction false} SortSorts(s: seq<Uuid>)
    ensures SortedUuids(Sort(s)) && multiset(Sort(s)) == multiset(s)
  {
    if s != [] {
      SortSorts(s[1..]);
      InsertSorts(s[0], Sort(s[1..]));
      InsertElements(s[0], Sort(s[1..]));
      assert s == [s[0]] + s[1..];
    }
  }

  // ------------------------------------------------------------------- groups

  /** The discovery records, in the order in which their ids were first discovered. */
  datatype Discovery = Discovery(infos: map<Uuid, Info>, order: seq<Uuid>)

  ghost predicate WellOrdered(d: Discovery) {
    && (forall u :: u in d.infos <==> u in d.order)
    && (forall i, j :: 0 <= i < j < |d.order| ==> d.order[i] != d.order[j])
  }

  function Discovered(d: Discovery, u: Uuid, info: Info): Discovery {
    Discovery(d.infos[u := info], if u in d.infos then d.order else d.order + [u])
  }

  /** What the multizone manager knows: the groups of each device it has a record of.
      `None` is a missing manager. */
  type Memberships = Option<map<Uuid, seq<Uuid>>>

  datatype Place = Leader | Member(uuid: Uuid)

  datatype Group = Group(
    uuid: Uuid,
    leaderIp: Option<Host>,
    port: nat,
    isDynamic: bool,
    leaderUuid: Option<Uuid>,
    members: seq<Uuid>,
    memberHosts: map<Uuid, Option<Host>>,
    subnets: map<Place, Option<Network>>,
    span: Option<bool>)

  function Repeated(groups: seq<Uuid>, g: Uuid, u: Uuid): seq<Uuid> {
    if groups == [] then []
    else Repeated(groups[..|groups| - 1], g, u) + if groups[|groups| - 1] == g then [u] else []
  }

  /** The members of group `g`, in discovery order. */
  function MembersOf(d: Discovery, order: seq<Uuid>, m: Memberships, g: Uuid): seq<Uuid> {
    if order == [] || m.None? then []
    else
      var u := order[|order| - 1];
      MembersOf(d, order[..|order| - 1], m, g) +
      if u in d.infos && !d.infos[u].isAudioGroup && u in m.value then Repeated(m.value[u], g, u) else []
  }

  predicate IsDeviceAt(d: Discovery, u: Uuid, host: Host) {
    u in d.infos && !d.infos[u].isAudioGroup && d.infos[u].host == Some(host)
  }

  /** The last device in discovery order that has the given host. */
  function DeviceAt(d: Discovery, order: seq<Uuid>, host: Host): Option<Uuid> {
    if order == [] then None
    else if IsDeviceAt(d, order[|order| - 1], host) then Some(order[|order| - 1])
    else DeviceAt(d, order[..|order| - 1], host)
  }

  function HostsOf(d: Discovery, members: set<Uuid>): map<Uuid, Option<Host>> {
    map u | u in members :: if u in d.infos then d.infos[u].host else None
  }

  function SubnetsOf(adapters: seq<Network>, leader: Option<Host>, hosts: map<Uuid, Option<Host>>): map<Place, Option<Network>> {
    (map p | p in set u | u in hosts :: Member(u) :: if p.Member? then SubnetOf(adapters, hosts[p.uuid]) else None)
    [Leader := SubnetOf(adapters, leader)]
  }

  function Known(subnets: map<Place, Option<Network>>): set<Network> {
    set p | p in subnets && subnets[p].Some? :: subnets[p].value
  }

  function SpanOf(subnets: map<Place, Option<Network>>): Option<bool> {
    if Known(subnets) == {} then None else Some(|Known(subnets)| > 1)
  }

  function SetOf(s: seq<Uuid>): set<Uuid> {
    set u | u in s
  }

  function GroupOf(d: Discovery, adapters: seq<Network>, m: Memberships, g: Uuid): Group
    requires g in d.infos
  {
    var info := d.infos[g];
    var members := Sort(MembersOf(d, d.order, m, g));
    var hosts := HostsOf(d, SetOf(members));
    var subnets := SubnetsOf(adapters, info.host, hosts);
    Group(g, info.host, info.port, info.isDynamicGroup,
          if info.host.Some? then DeviceAt(d, d.order, info.host.value) else None,
          members, hosts, subnets, SpanOf(subnets))
  }

  function GroupsOf(d: Discovery, adapters: seq<Network>, m: Memberships): map<Uuid, Group> {
    map g | g in d.infos && d.infos[g].isAudioGroup :: GroupOf(d, adapters, m, g)
  }

  // --------------------------------------------------------- what they mean

  lemma {:induction false} RepeatedMeans(groups: seq<Uuid>, g: Uuid, u: Uuid)
    ensures forall v :: v in Repeated(groups, g, u) <==> v == u && g in groups
  {
    if groups != [] {
      RepeatedMeans(groups[..|groups| - 1], g, u);
      assert groups == groups[..|groups| - 1] + [groups[|groups| - 1]];
    }
  }

  ghost predicate IsMemberRecord(d: Discovery, m: Memberships, g: Uuid, u: Uuid) {
    u in d.infos && !d.infos[u].isAudioGroup && m.Some? && u in m.value && g in m.value[u]
  }

  lemma {:induction false} MembersMean(d: Discovery, order: seq<Uuid>, m: Memberships, g: Uuid, u: Uuid)
    ensures u in MembersOf(d, order, m, g) <==> u in order && IsMemberRecord(d, m, g, u)
    decreases |order|
  {
    if order != [] && m.Some? {
      var last := order[|order| - 1];
      MembersMean(d, order[..|order| - 1], m, g, u);
      if last in m.value {
        RepeatedMeans(m.value[last], g, last);
      }
      assert order == order[..|order| - 1] + [last];
    }
  }

  /** The inversion of the memberships: a device is listed in a group exactly if it is a
      discovered device, not itself a group, whose memberships contain the group; and the
      list is sorted. */
  lemma MembershipInversion(d: Discovery, adapters: seq<Network>, m: Memberships, g: Uuid, u: Uuid)
    requires WellOrdered(d) && g in d.infos
    ensures u in GroupOf(d, adapters, m, g).members <==> IsMemberRecord(d, m, g, u)
    ensures SortedUuids(GroupOf(d, adapters, m, g).members)
  {
    MembersMean(d, d.order, m, g, u);
    var members := MembersOf(d, d.order, m, g);
    SortSorts(members);
    assert u in members <==> u in multiset(members);
    assert u in Sort(members) <==> u in multiset(Sort(members));
  }

  lemma {:induction false} DeviceAtMeans(d: Discovery, order: seq<Uuid>, host: Host)
    ensures match DeviceAt(d, order, host)
            case Some(u) => u in order && IsDeviceAt(d, u, host)
            case None => forall u :: u in order ==> !IsDeviceAt(d, u, host)
  {
    if order != [] {
      DeviceAtMeans(d, order[..|order| - 1], host);
    }
  }

  /** A leader is named exactly if some device has the leader's host, and it has it. */
  lemma LeaderIsADevice(d: Discovery, adapters: seq<Network>, m: Memberships, g: Uuid)
    requires WellOrdered(d) && g in d.infos
    ensures var group := GroupOf(d, adapters, m, g);
      && (group.leaderUuid.Some? <==> group.leaderIp.Some? && exists u :: IsDeviceAt(d, u, group.leaderIp.value))
      && (group.leaderUuid.Some? ==> IsDeviceAt(d, group.leaderUuid.value, group.leaderIp.value))
  {
    var host := d.infos[g].host;
    if host.Some? {
      DeviceAtMeans(d, d.order, host.value);
      assert forall u :: IsDeviceAt(d, u, host.value) ==> u in d.order;
    }
  }

  /** Of the devices that share a host, the one discovered last is the leader. */
  lemma {:induction false} LastDeviceLeads(d: Discovery, order: seq<Uuid>, host: Host, i: nat)
    requires i < |order| && IsDeviceAt(d, order[i], host)
    requires forall j :: i < j < |order| ==> !IsDeviceAt(d, order[j], host)
    ensures DeviceAt(d, order, host) == Some(order[i])
    decreases |order|
  {
    hide IsDeviceAt;
    if i < |order| - 1 {
      LastDeviceLeads(d, order[..|order| - 1], host, i);
    }
  }

  /** What a group's record takes over from the discovery records. */
  lemma GroupFields(d: Discovery, adapters: seq<Network>, m: Memberships, g: Uuid, u: Uuid)
    requires WellOrdered(d) && g in d.infos
    ensures var group, info := GroupOf(d, adapters, m, g), d.infos[g];
      && group.uuid == g && group.leaderIp == info.host && group.port == info.port && group.isDynamic == info.isDynamicGroup
      && (u in group.memberHosts <==> IsMemberRecord(d, m, g, u))
      && (u in group.memberHosts ==> group.memberHosts[u] == d.infos[u].host)
    ensures forall i :: 0 <= i < |d.order| && d.infos[g].host.Some? && IsDeviceAt(d, d.order[i], d.infos[g].host.value) &&
                        (forall j :: i < j < |d.order| ==> !IsDeviceAt(d, d.order[j], d.infos[g].host.value)) ==>
              GroupOf(d, adapters, m, g).leaderUuid == Some(d.order[i])
  {
    hide IsMemberRecord, IsDeviceAt;
    MembershipInversion(d, adapters, m, g, u);
    hide MembersOf, Sort;
    forall i | 0 <= i < |d.order| && d.infos[g].host.Some? && IsDeviceAt(d, d.order[i], d.infos[g].host.value) &&
               (forall j :: i < j < |d.order| ==> !IsDeviceAt(d, d.order[j], d.infos[g].host.value))
      ensures DeviceAt(d, d.order, d.infos[g].host.value) == Some(d.order[i])
    {
      LastDeviceLeads(d, d.order, d.infos[g].host.value, i);
    }
    if u in GroupOf(d, adapters, m, g).memberHosts {
      IsMemberKnown(d, m, g, u);
    }
  }

  lemma IsMemberKnown(d: Discovery, m: Memberships, g: Uuid, u: Uuid)
    requires IsMemberRecord(d, m, g, u)
    ensures u in d.infos
  {
  }

  /** Place `p` was placed in network `net`. */
  predicate PlacedIn(subnets: map<Place, Option<Network>>, p: Place, net: Network) {
    p in subnets && subnets[p] == Some(net)
  }

  lemma OneOrMany<T>(s: set<T>, a: T)
    requires a in s
    ensures |s| > 1 <==> exists b :: b in s && b != a
  {
    assert s == {a} + (s - {a});
    assert |s| == 1 + |s - {a}|;
    if s - {a} != {} {
      var b :| b in s - {a};
    }
  }

  /** `members_span_subnets` is true, false or unknown as the placed addresses lie in
      several subnets, in one, or nowhere. */
  lemma SpanMeans(subnets: map<Place, Option<Network>>)
    ensures SpanOf(subnets) == Some(true) <==>
      exists p, q, a, b :: PlacedIn(subnets, p, a) && PlacedIn(subnets, q, b) && a != b
    ensures SpanOf(subnets) == None <==> forall p, a :: !PlacedIn(subnets, p, a)
  {
    var known := Known(subnets);
    assert forall p, a :: PlacedIn(subnets, p, a) ==> a in known;
    forall a | a in known ensures exists p :: PlacedIn(subnets, p, a) {
      var p :| p in subnets && subnets[p].Some? && subnets[p].value == a;
      assert PlacedIn(subnets, p, a);
    }
    if known != {} {
      var a :| a in known;
      OneOrMany(known, a);
    }
  }

  /** What is placed where: the leader's host under `Leader`, each member's under its id. */
  lemma PlacesMean(d: Discovery, adapters: seq<Network>, m: Memberships, g: Uuid, p: Place, net: Network)
    requires WellOrdered(d) && g in d.infos
    ensures PlacedIn(GroupOf(d, adapters, m, g).subnets, p, net) <==>
      match p
      case Leader => SubnetOf(adapters, d.infos[g].host) == Some(net)
      case Member(u) => IsMemberRecord(d, m, g, u) && SubnetOf(adapters, d.infos[u].host) == Some(net)
  {
    if p.Member? {
      MembershipInversion(d, adapters, m, g, p.uuid);
    }
  }

  /** An address of the group: its leader's, or a member's. */
  ghost predicate HasAddress(d: Discovery, m: Memberships, g: Uuid, a: nat)
    requires g in d.infos
  {
    d.infos[g].host == Some(Ipv4(a)) || exists u :: IsMemberRecord(d, m, g, u) && d.infos[u].host == Some(Ipv4(a))
  }

  lemma PlaceHasAddress(d: Discovery, adapters: seq<Network>, m: Memberships, g: Uuid, p: Place, net: Network) returns (a: nat)
    requires WellOrdered(d) && g in d.infos && PlacedIn(GroupOf(d, adapters, m, g).subnets, p, net)
    ensures HasAddress(d, m, g, a) && SubnetOfAddress(adapters, a) == net
  {
    hide GroupOf, SubnetOfAddress;
    PlacesMean(d, adapters, m, g, p, net);
    match p
    case Leader => a := d.infos[g].host.value.address;
    case Member(u) => a := d.infos[u].host.value.address;
  }

  lemma AddressHasPlace(d: Discovery, adapters: seq<Network>, m: Memberships, g: Uuid, a: nat) returns (p: Place)
    requires WellOrdered(d) && g in d.infos && HasAddress(d, m, g, a)
    ensures PlacedIn(GroupOf(d, adapters, m, g).subnets, p, SubnetOfAddress(adapters, a))
  {
    hide GroupOf, SubnetOfAddress, PlacedIn;
    if d.infos[g].host == Some(Ipv4(a)) {
      p := Leader;
    } else {
      var u :| IsMemberRecord(d, m, g, u) && d.infos[u].host == Some(Ipv4(a));
      p := Member(u);
    }
    PlacesMean(d, adapters, m, g, p, SubnetOfAddress(adapters, a));
  }

  /** Two addresses of the group were given different subnets. */
  ghost predicate SpansSubnets(d: Discovery, adapters: seq<Network>, m: Memberships, g: Uuid)
    requires g in d.infos
  {
    exists a, b :: HasAddress(d, m, g, a) && HasAddress(d, m, g, b) && SubnetOfAddress(adapters, a) != SubnetOfAddress(adapters, b)
  }

  /** A group spans subnets if and only if two of its addresses lie in different ones, and
      that is unknown if and only if it has no address. */
  lemma GroupSpanMeans(d: Discovery, adapters: seq<Network>, m: Memberships, g: Uuid)
    requires WellOrdered(d) && g in d.infos
    ensures GroupOf(d, adapters, m, g).span == Some(true) <==> SpansSubnets(d, adapters, m, g)
    ensures GroupOf(d, adapters, m, g).span == None <==> forall a :: !HasAddress(d, m, g, a)
  {
    var group := GroupOf(d, adapters, m, g);
    assert group.span == SpanOf(group.subnets);
    hide GroupOf, SpanOf, SubnetOfAddress, HasAddress, PlacedIn, WellOrdered;
    SpanMeans(group.subnets);
    forall p, net | PlacedIn(group.subnets, p, net) ensures exists a :: HasAddress(d, m, g, a) && SubnetOfAddress(adapters, a) == net {
      var a := PlaceHasAddress(d, adapters, m, g, p, net);
    }
    forall a | HasAddress(d, m, g, a) ensures exists p :: PlacedIn(group.subnets, p, SubnetOfAddress(adapters, a)) {
      var p := AddressHasPlace(d, adapters, m, g, a);
    }
  }

  // ----------------------------------------------------------------- networks

  datatype Adapter = Adapter(enabled: bool, ipv4: seq<(nat, nat)>)

  function NetworksOf(addresses: seq<(nat, nat)>): seq<Network> {
    seq(|addresses|, i requires 0 <= i < |addresses| => NetworkOf(addresses[i].0, addresses[i].1))
  }

  function AdapterNetworks(adapters: seq<Adapter>): seq<Network> {
    if adapters == [] then []
    else
      var last := adapters[|adapters| - 1];
      AdapterNetworks(adapters[..|adapters| - 1]) + if last.enabled then NetworksOf(last.ipv4) else []
  }

  function Containing(nets: seq<Network>, address: nat): seq<Network> {
    if nets == [] then []
    else
      var last := nets[|nets| - 1];
      Containing(nets[..|nets| - 1], address) + if InNetwork(address, last) then [last] else []
  }

  /** The networks the internal URL's host lies in, or an assumed /24 around it. */
  function HomeNetworks(nets: seq<Network>, host: Option<Host>): seq<Network> {
    if host.None? || !host.value.Ipv4? then []
    else if Containing(nets, host.value.address) == [] then [NetworkOf(host.value.address, ASSUMED_PREFIX)]
    else Containing(nets, host.value.address)
  }

  lemma {:induction false} AdapterNetworksCanonical(adapters: seq<Adapter>, i: nat)
    requires i < |AdapterNetworks(adapters)|
    ensures Canonical(AdapterNetworks(adapters)[i])
    decreases |adapters|
  {
    var before := adapters[..|adapters| - 1];
    if i < |AdapterNetworks(before)| {
      AdapterNetworksCanonical(before, i);
    } else {
      var (address, prefix) := adapters[|adapters| - 1].ipv4[i - |AdapterNetworks(before)|];
      NetworkOfIsCanonical(address, prefix);
    }
  }

  /** A network is listed if and only if an enabled adapter has an address in it. */
  ghost predicate HasAddressIn(adapters: seq<Adapter>, i: nat, k: nat, net: Network) {
    && i < |adapters| && adapters[i].enabled && k < |adapters[i].ipv4|
    && net == NetworkOf(adapters[i].ipv4[k].0, adapters[i].ipv4[k].1)
  }

  lemma {:induction false} AdapterNetworksMean(adapters: seq<Adapter>, net: Network)
    ensures net in AdapterNetworks(adapters) <==> exists i, k :: HasAddressIn(adapters, i, k, net)
  {
    if adapters != [] {
      hide NetworkOf;
      var n := |adapters| - 1;
      var before := adapters[..n];
      AdapterNetworksMean(before, net);
      NetworksMean(adapters[n].ipv4, net);
      if net in AdapterNetworks(before) {
        var i, k :| HasAddressIn(before, i, k, net);
        assert HasAddressIn(adapters, i, k, net);
      } else if adapters[n].enabled && net in NetworksOf(adapters[n].ipv4) {
        var k: nat :| k < |adapters[n].ipv4| && net == NetworkOf(adapters[n].ipv4[k].0, adapters[n].ipv4[k].1);
        assert HasAddressIn(adapters, n, k, net);
      }
      forall i: nat, k: nat | HasAddressIn(adapters, i, k, net) ensures net in AdapterNetworks(adapters) {
        if i < n {
          assert HasAddressIn(before, i, k, net);
        }
      }
    }
  }

  lemma NetworksMean(addresses: seq<(nat, nat)>, net: Network)
    ensures net in NetworksOf(addresses) <==> exists k: nat :: k < |addresses| && net == NetworkOf(addresses[k].0, addresses[k].1)
  {
    hide NetworkOf;
    if net in NetworksOf(addresses) {
      var k :| 0 <= k < |NetworksOf(addresses)| && NetworksOf(addresses)[k] == net;
      assert net == NetworkOf(addresses[k].0, addresses[k].1);
    }
    forall k: nat | k < |addresses| && net == NetworkOf(addresses[k].0, addresses[k].1) ensures net in NetworksOf(addresses) {
      assert NetworksOf(addresses)[k] == net;
    }
  }

  /** The adapters' networks follow one another as the adapters do. */
  lemma {:induction false} AdapterNetworksInOrder(a: seq<Adapter>, b: seq<Adapter>)
    ensures AdapterNetworks(a + b) == AdapterNetworks(a) + AdapterNetworks(b)
    decreases |b|
  {
    if b == [] {
      assert a + b == a;
    } else {
      var n := |b| - 1;
      AdapterNetworksInOrder(a, b[..n]);
      assert (a + b)[..|a + b| - 1] == a + b[..n];
    }
  }

  lemma {:induction false} ContainingMeans(nets: seq<Network>, address: nat, net: Network)
    ensures net in Containing(nets, address) <==> net in nets && InNetwork(address, net)
  {
    if nets != [] {
      ContainingMeans(nets[..|nets| - 1], address, net);
      assert nets == nets[..|nets| - 1] + [nets[|nets| - 1]];
    }
  }

  /** With an IPv4 internal host there is a home network, and every home network
      contains the host; without one, placement is unknown. */
  lemma HomeNetworksContainHost(nets: seq<Network>, host: Option<Host>)
    ensures HomeNetworks(nets, host) == [] <==> host.None? || !host.value.Ipv4?
    ensures forall net :: net in HomeNetworks(nets, host) ==> InNetwork(host.value.address, net)
  {
    if host.Some? && host.value.Ipv4? {
      NetworkOfIsCanonical(host.value.address, ASSUMED_PREFIX);
      forall net | net in Containing(nets, host.value.address) ensures InNetwork(host.value.address, net) {
        ContainingMeans(nets, host.value.address, net);
      }
    }
  }

  /** The home networks are the adapters' networks that contain the internal host; only
      if there are none, it is the network assumed around it. */
  lemma HomeNetworksMean(nets: seq<Network>, host: Option<Host>, net: Network)
    ensures net in HomeNetworks(nets, host) <==>
      && host.Some? && host.value.Ipv4?
      && if exists other :: other in nets && InNetwork(host.value.address, other) then
           net in nets && InNetwork(host.value.address, net)
         else net == NetworkOf(host.value.address, 24)
  {
    if host.Some? && host.value.Ipv4? {
      var address := host.value.address;
      hide InNetwork, NetworkOf;
      ContainingMeans(nets, address, net);
      if Containing(nets, address) == [] {
        forall other | other in nets ensures !InNetwork(address, other) {
          ContainingMeans(nets, address, other);
        }
      } else {
        var other := Containing(nets, address)[0];
        ContainingMeans(nets, address, other);
      }
    }
  }

  /** Whether a device is outside every home network, if that can be told. */
  function Mismatch(home: seq<Network>, host: Option<Host>): Option<bool> {
    if host.None? || !host.value.Ipv4? || home == [] then None
    else Some(Containing(home, host.value.address) == [])
  }

  /** The internal host itself is never a mismatch. */
  lemma HostMatchesItself(nets: seq<Network>, host: Option<Host>)
    ensures Mismatch(HomeNetworks(nets, host), host) != Some(true)
  {
    var home := HomeNetworks(nets, host);
    HomeNetworksContainHost(nets, host);
    if home != [] {
      ContainingMeans(home, host.value.address, home[0]);
    }
  }

  /** A device is a mismatch if and only if no home network contains its address, and that
      is unknown if and only if it has no address or there is no home network. */
  lemma MismatchMeans(home: seq<Network>, host: Option<Host>)
    ensures Mismatch(home, host) == None <==> host.None? || !host.value.Ipv4? || home == []
    ensures Mismatch(home, host) == Some(true) <==>
      host.Some? && host.value.Ipv4? && home != [] && forall net :: net in home ==> !InNetwork(host.value.address, net)
  {
    if host.Some? && host.value.Ipv4? && home != [] {
      var address := host.value.address;
      hide InNetwork;
      if Containing(home, address) == [] {
        forall net | net in home ensures !InNetwork(address, net) {
          ContainingMeans(home, address, net);
        }
      } else {
        ContainingMeans(home, address, Containing(home, address)[0]);
      }
    }
  }
}
