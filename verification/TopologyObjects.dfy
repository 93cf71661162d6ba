/** The topology tracker as an object that rebuilds its networks and groups in place.
    Each loop is proved against the function of `Topology` that says what it computes. */
module TopologyObjects {
  import opened Vocabulary
  import opened Topology
  import TH = TopologyHistory
  import RH = RepairHistory
  import Repairs
  import opened RepairObjects
  import Ledger
  import opened LedgerObjects

  class TopologyTracker {
    var infos: map<Uuid, Info>
    /** The order of the dictionary `infos`: that of first discovery. */
    var order: seq<Uuid>
    var groups: map<Uuid, Group>
    var homeNetworks: seq<Network>
    var adapterNetworks: seq<Network>
    var multihomed: Option<bool>
    var internalUrlAutomatic: Option<bool>

    ghost function Discoveries(): Discovery
      reads this
    {
      Discovery(infos, order)
    }

    ghost predicate Valid()
      reads this
    {
      WellOrdered(Discoveries())
    }

    constructor ()
      ensures Valid() && Discoveries() == Discovery(map[], []) && groups == map[]
    {
      infos, order, groups := map[], [], map[];
      homeNetworks, adapterNetworks := [], [];
      multihomed, internalUrlAutomatic := None, None;
    }

    /** `async_record_discovery`. */
    method RecordDiscovery(u: Uuid, info: Info)
      requires Valid()
      modifies this`infos, this`order
      ensures Valid() && Discoveries() == Discovered(old(Discoveries()), u, info)
      ensures infos == old(infos)[u := info] && order == if u in old(infos) then old(order) else old(order) + [u]
    {
      TH.DiscoveredOrdered(Discoveries(), u, info);
      if u !in infos {
        order := order + [u];
      }
      infos := infos[u := info];
    }

    /** `async_refresh`: no adapters stand for a failed enumeration, and no URL for a
        missing one. */
    method Refresh(adapters: seq<Adapter>, automatic: bool, urlHost: Option<Option<Host>>, memberships: Memberships,
                   ledger: DeliveryLedger)
      requires Valid() && ledger.Valid() && this !in ledger.Repr
      modifies this, ledger.Repr
      ensures ledger.Valid() && fresh(ledger.Repr - old(ledger.Repr)) && Placed(ledger)
      ensures ledger.View() == TouchedAll(old(ledger.View()), order) && ledger.manager.View() == old(ledger.manager.View())
      ensures Valid() && Discoveries() == old(Discoveries())
      ensures adapterNetworks == AdapterNetworks(adapters)
      ensures homeNetworks == if urlHost.Some? then HomeNetworks(adapterNetworks, urlHost.value) else []
      ensures multihomed == TH.Multihomed(adapters) && internalUrlAutomatic == Some(automatic)
      ensures groups == GroupsOf(Discoveries(), adapterNetworks, memberships)
    {
      hide AdapterNetworks, HomeNetworks, GroupsOf, TH.Multihomed, WellOrdered, Placed;
      hide DeliveryLedger.Valid, DeliveryLedger.View;
      LoadNetworks(adapters, automatic, urlHost);
      ComputeGroups(memberships);
      ApplySubnetMismatch(ledger);
    }

    /** Every discovered device's health says whether the device is outside the home networks. */
    ghost predicate Placed(ledger: DeliveryLedger)
      reads this, ledger, ledger.Repr
      requires ledger.Valid()
    {
      forall u :: u in infos ==> u in ledger.Mismatches() && ledger.Mismatches()[u] == Mismatch(homeNetworks, infos[u].host)
    }

    // --------------------------------------------------------------- networks

    method LoadNetworks(adapters: seq<Adapter>, automatic: bool, urlHost: Option<Option<Host>>)
      modifies this`adapterNetworks, this`homeNetworks, this`multihomed, this`internalUrlAutomatic
      ensures adapterNetworks == AdapterNetworks(adapters)
      ensures homeNetworks == if urlHost.Some? then HomeNetworks(adapterNetworks, urlHost.value) else []
      ensures multihomed == TH.Multihomed(adapters) && internalUrlAutomatic == Some(automatic)
    {
      adapterNetworks := [];
      var inUse: nat := 0;
      for i := 0 to |adapters|
        invariant adapterNetworks == AdapterNetworks(adapters[..i]) && inUse == TH.Homes(adapters[..i])
      {
        assert adapters[..i + 1][..i] == adapters[..i];
        if adapters[i].enabled {
          AddNetworks(adapters[i].ipv4);
          if adapters[i].ipv4 != [] {
            inUse := inUse + 1;
          }
        }
      }
      assert adapters[..|adapters|] == adapters;
      multihomed := if adapters != [] then Some(inUse >= 2) else None;
      internalUrlAutomatic := Some(automatic);
      homeNetworks := [];
      if urlHost.None? {
        return;
      }
      var host := urlHost.value;
      if host.None? || !host.value.Ipv4? {
        return;
      }
      homeNetworks := NetworksWith(adapterNetworks, host.value.address);
      if homeNetworks == [] {
        homeNetworks := [NetworkOf(host.value.address, ASSUMED_PREFIX)];
      }
    }

    method AddNetworks(addresses: seq<(nat, nat)>)
      modifies this`adapterNetworks
      ensures adapterNetworks == old(adapterNetworks) + NetworksOf(addresses)
    {
      for k := 0 to |addresses|
        invariant adapterNetworks == old(adapterNetworks) + NetworksOf(addresses[..k])
      {
        assert NetworksOf(addresses[..k + 1]) == NetworksOf(addresses[..k]) + [NetworkOf(addresses[k].0, addresses[k].1)];
        adapterNetworks := adapterNetworks + [NetworkOf(addresses[k].0, addresses[k].1)];
      }
      assert addresses[..|addresses|] == addresses;
    }

    static method NetworksWith(nets: seq<Network>, address: nat) returns (found: seq<Network>)
      ensures found == Containing(nets, address)
    {
      found := [];
      for i := 0 to |nets|
        invariant found == Containing(nets[..i], address)
      {
        assert nets[..i + 1][..i] == nets[..i];
        if InNetwork(address, nets[i]) {
          found := found + [nets[i]];
        }
      }
      assert nets[..|nets|] == nets;
    }

    /** `_subnet_of`. */
    method SubnetFor(host: Option<Host>) returns (net: Option<Network>)
      ensures net == SubnetOf(adapterNetworks, host)
    {
      if host.None? || !host.value.Ipv4? {
        return None;
      }
      for i := 0 to |adapterNetworks|
        invariant SubnetOfAddress(adapterNetworks, host.value.address) == SubnetOfAddress(adapterNetworks[i..], host.value.address)
      {
        if InNetwork(host.value.address, adapterNetworks[i]) {
          return Some(adapterNetworks[i]);
        }
      }
      return Some(NetworkOf(host.value.address, ASSUMED_PREFIX));
    }

    // ----------------------------------------------------------------- groups

    /** The first loop of `_compute_groups`. */
    method MembersByGroup(m: Memberships) returns (members: map<Uuid, seq<Uuid>>)
      requires Valid()
      ensures forall g :: Listed(members, g) == MembersOf(Discoveries(), order, m, g)
    {
      members := map[];
      if m.None? {
        return;
      }
      for i := 0 to |order|
        invariant forall g :: Listed(members, g) == MembersOf(Discoveries(), order[..i], m, g)
      {
        var u := order[i];
        assert order[..i + 1][..i] == order[..i];
        if infos[u].isAudioGroup || u !in m.value {
          continue;
        }
        members := AddMember(members, m.value[u], u);
      }
      assert order[..|order|] == order;
    }

    /** Its inner loop: device `u` joins each of its groups. */
    static method AddMember(before: map<Uuid, seq<Uuid>>, memberships: seq<Uuid>, u: Uuid) returns (members: map<Uuid, seq<Uuid>>)
      ensures forall g :: Listed(members, g) == Listed(before, g) + Repeated(memberships, g, u)
    {
      hide Listed, Repeated;
      members := before;
      forall g ensures Listed(before, g) == Listed(before, g) + Repeated(memberships[..0], g, u) {
        NoMembership(g, u);
      }
      for j := 0 to |memberships|
        invariant forall g :: Listed(members, g) == Listed(before, g) + Repeated(memberships[..j], g, u)
      {
        var g := memberships[j];
        OneMoreMembership(members, before, memberships, j, u);
        members := members[g := Listed(members, g) + [u]];
      }
      assert memberships[..|memberships|] == memberships;
    }

    /** `hosts_to_uuid`: a later device takes over a host. */
    method HostsToUuid() returns (hosts: map<Host, Uuid>)
      requires Valid()
      ensures forall host :: Found(hosts, host) == DeviceAt(Discoveries(), order, host)
    {
      hosts := map[];
      for i := 0 to |order|
        invariant forall host :: Found(hosts, host) == DeviceAt(Discoveries(), order[..i], host)
      {
        assert order[..i + 1][..i] == order[..i];
        var info := infos[order[i]];
        if !info.isAudioGroup && info.host.Some? {
          hosts := hosts[info.host.value := order[i]];
        }
      }
      assert order[..|order|] == order;
    }

    /** `_compute_groups`. */
    method ComputeGroups(m: Memberships)
      requires Valid()
      modifies this`groups
      ensures groups == GroupsOf(Discoveries(), adapterNetworks, m)
    {
      var members := MembersByGroup(m);
      var hosts := HostsToUuid();
      var found: map<Uuid, Group> := map[];
      hide GroupOf, GroupsOf, MembersOf, DeviceAt, Listed, Found;
      for i := 0 to |order|
        invariant forall g :: g in found <==> g in order[..i] && infos[g].isAudioGroup
        invariant forall g :: g in found ==> found[g] == GroupOf(Discoveries(), adapterNetworks, m, g)
      {
        var u := order[i];
        if infos[u].isAudioGroup {
          var group := Inspect(u, members, hosts, m);
          found := found[u := group];
        }
      }
      GroupsFound(Discoveries(), adapterNetworks, m, found);
      groups := found;
    }

    /** What the last loop of `_compute_groups` finds out about one group. */
    method Inspect(g: Uuid, members: map<Uuid, seq<Uuid>>, hosts: map<Host, Uuid>, ghost m: Memberships) returns (group: Group)
      requires Valid() && g in infos
      requires forall g :: Listed(members, g) == MembersOf(Discoveries(), order, m, g)
      requires forall host :: Found(hosts, host) == DeviceAt(Discoveries(), order, host)
      ensures group == GroupOf(Discoveries(), adapterNetworks, m, g)
    {
      var info := infos[g];
      var leader := info.host;
      group := Group(g, leader, info.port, info.isDynamicGroup,
                     if leader.Some? && leader.value in hosts then Some(hosts[leader.value]) else None,
                     Sort(Listed(members, g)), map[], map[], None);
      hide HostsOf, SubnetsOf, SpanOf, Sort;
      var memberHosts := HostsFor(group.members);
      var subnets := PlacesOf(leader, memberHosts);
      group := group.(memberHosts := memberHosts, subnets := subnets, span := SpanOf(subnets));
      assert leader.Some? ==> group.leaderUuid == Found(hosts, leader.value);
    }

    method HostsFor(members: seq<Uuid>) returns (hosts: map<Uuid, Option<Host>>)
      ensures hosts == HostsOf(Discoveries(), SetOf(members))
    {
      hosts := map[];
      for k := 0 to |members|
        invariant hosts == HostsOf(Discoveries(), SetOf(members[..k]))
      {
        assert SetOf(members[..k + 1]) == SetOf(members[..k]) + {members[k]};
        hosts := hosts[members[k] := if members[k] in infos then infos[members[k]].host else None];
      }
      assert members[..|members|] == members;
    }

    method PlacesOf(leader: Option<Host>, hosts: map<Uuid, Option<Host>>) returns (subnets: map<Place, Option<Network>>)
      ensures subnets == SubnetsOf(adapterNetworks, leader, hosts)
    {
      hide SubnetsOf, SubnetOf;
      var net := SubnetFor(leader);
      subnets := map[Leader := net];
      NoPlaces(adapterNetworks, leader);
      var left := hosts.Keys;
      ghost var done: map<Uuid, Option<Host>> := map[];
      while left != {}
        invariant left !! done.Keys && left + done.Keys == hosts.Keys
        invariant forall u :: u in done ==> done[u] == hosts[u]
        invariant subnets == SubnetsOf(adapterNetworks, leader, done)
        decreases |left|
      {
        var u :| u in left;
        left := left - {u};
        OneMorePlace(adapterNetworks, leader, done, u, hosts[u]);
        net := SubnetFor(hosts[u]);
        subnets := subnets[Member(u) := net];
        done := done[u := hosts[u]];
      }
      assert done == hosts;
    }

    // --------------------------------------------------------------- mismatch

    /** `_apply_subnet_mismatch`. */
    method ApplySubnetMismatch(ledger: DeliveryLedger)
      requires Valid() && ledger.Valid() && this !in ledger.Repr
      modifies ledger.Repr
      ensures ledger.Valid() && fresh(ledger.Repr - old(ledger.Repr)) && Placed(ledger)
      ensures ledger.View() == TouchedAll(old(ledger.View()), order) && ledger.manager.View() == old(ledger.manager.View())
      ensures forall u :: u !in infos ==>
        (u in ledger.Mismatches() <==> u in old(ledger.Mismatches())) &&
        (u in ledger.Mismatches() ==> ledger.Mismatches()[u] == old(ledger.Mismatches())[u])
    {
      hide DeliveryLedger.Valid, DeliveryLedger.View, DeliveryLedger.Mismatches, Mismatch, MarkedAll, TouchedAll;
      ledger.RepairsAre();
      ghost var before, marks := ledger.View(), ledger.Mismatches();
      NoneMarked(before, marks, infos, homeNetworks);
      for i := 0 to |order|
        invariant ledger.Valid() && fresh(ledger.Repr - old(ledger.Repr))
        invariant ledger.View() == TouchedAll(before, order[..i])
        invariant ledger.Mismatches() == MarkedAll(marks, infos, homeNetworks, order[..i])
      {
        OneMoreMarked(before, marks, infos, homeNetworks, order, i);
        var mismatch := MismatchOf(infos[order[i]].host);
        ledger.SetMismatch(order[i], mismatch);
      }
      assert order[..|order|] == order;
      ledger.RepairsAre();
      MarkedAllMeans(marks, infos, homeNetworks, order);
    }

    method MismatchOf(host: Option<Host>) returns (mismatch: Option<bool>)
      ensures mismatch == Mismatch(homeNetworks, host)
    {
      if host.None? || !host.value.Ipv4? || homeNetworks == [] {
        return None;
      }
      var containing := NetworksWith(homeNetworks, host.value.address);
      return Some(containing == []);
    }
  }

  /** The ledger that has a state for each of some devices. */
  function TouchedAll(l: Ledger.Ledger, us: seq<Uuid>): (l': Ledger.Ledger)
    ensures l'.repairs == l.repairs
  {
    if us == [] then l else Ledger.Touched(TouchedAll(l, us[..|us| - 1]), us[|us| - 1])
  }

  /** The marks of the devices when those of some have been decided. */
  function MarkedAll(marks: map<Uuid, Option<bool>>, infos: map<Uuid, Info>, home: seq<Network>, us: seq<Uuid>): map<Uuid, Option<bool>>
    requires forall i :: 0 <= i < |us| ==> us[i] in infos
  {
    if us == [] then marks
    else
      var last := us[|us| - 1];
      MarkedAll(marks, infos, home, us[..|us| - 1])[last := Mismatch(home, infos[last].host)]
  }

  lemma NoneMarked(l: Ledger.Ledger, marks: map<Uuid, Option<bool>>, infos: map<Uuid, Info>, home: seq<Network>)
    ensures TouchedAll(l, []) == l && MarkedAll(marks, infos, home, []) == marks
  {
  }

  lemma OneMoreMarked(l: Ledger.Ledger, marks: map<Uuid, Option<bool>>, infos: map<Uuid, Info>, home: seq<Network>, us: seq<Uuid>, i: nat)
    requires i < |us| && forall k :: 0 <= k < |us| ==> us[k] in infos
    ensures TouchedAll(l, us[..i + 1]) == Ledger.Touched(TouchedAll(l, us[..i]), us[i])
    ensures MarkedAll(marks, infos, home, us[..i + 1]) ==
      MarkedAll(marks, infos, home, us[..i])[us[i] := Mismatch(home, infos[us[i]].host)]
  {
    assert us[..i + 1][..i] == us[..i];
  }

  lemma {:induction false} MarkedAllMeans(marks: map<Uuid, Option<bool>>, infos: map<Uuid, Info>, home: seq<Network>, us: seq<Uuid>)
    requires forall i :: 0 <= i < |us| ==> us[i] in infos
    ensures forall u :: u in us ==>
      u in MarkedAll(marks, infos, home, us) && MarkedAll(marks, infos, home, us)[u] == Mismatch(home, infos[u].host)
    ensures forall u :: u !in us ==>
      (u in MarkedAll(marks, infos, home, us) <==> u in marks) &&
      (u in marks ==> MarkedAll(marks, infos, home, us)[u] == marks[u])
  {
    if us != [] {
      hide Mismatch;
      MarkedAllMeans(marks, infos, home, us[..|us| - 1]);
      assert us == us[..|us| - 1] + [us[|us| - 1]];
    }
  }

  /** Making sure of devices changes none. */
  lemma {:induction false} TouchedAllKeeps(l: Ledger.Ledger, us: seq<Uuid>, u: Uuid)
    requires forall v: Uuid :: Ledger.Device(l, v).uuid == v
    ensures Ledger.Device(TouchedAll(l, us), u) == Ledger.Device(l, u)
    ensures TouchedAll(l, us) == l.(devices := TouchedAll(l, us).devices)
  {
    if us != [] {
      var before, last := us[..|us| - 1], us[|us| - 1];
      TouchedAllKeeps(l, before, u);
      TouchedAllKeeps(l, before, last);
    }
  }

  ghost function SiteOf(tracker: TopologyTracker, manager: RepairManager): TH.Site
    reads tracker, manager, manager.registry
  {
    TH.Site(tracker.Discoveries(), tracker.groups, manager.View())
  }

  /** The checks of a cycle, which write nothing but the manager and its registry. */
  method CheckIssues(tracker: TopologyTracker, ledger: DeliveryLedger, manager: RepairManager,
                     devices: seq<Repairs.RegistryDevice>, now: Time)
    requires tracker.Valid() && ledger.Valid() && ledger.manager == manager
    modifies manager, manager.registry
    ensures ledger.Valid() && ledger.Mismatches() == old(ledger.Mismatches())
    ensures var checked := Repairs.TopologyChecked(old(manager.View()), tracker.multihomed, tracker.internalUrlAutomatic,
                                                   TH.Spans(tracker.groups));
      manager.View() == Repairs.Checked(checked, tracker.infos.Keys, devices, now)
  {
    hide Repairs.Checked, Repairs.TopologyChecked, TH.Spans, WellOrdered;
    manager.CheckTopology(tracker.multihomed, tracker.internalUrlAutomatic, TH.Spans(tracker.groups));
    manager.CheckStale(tracker.infos.Keys, devices, now);
  }

  /** The first part of `_async_update_data`: refresh the topology and check it, then look
      for stale devices among those of the registry. */
  method RefreshAndCheck(tracker: TopologyTracker, manager: RepairManager, adapters: seq<Adapter>, automatic: bool,
                         urlHost: Option<Option<Host>>, memberships: Memberships, ledger: DeliveryLedger,
                         devices: seq<Repairs.RegistryDevice>, now: Time)
    requires tracker.Valid() && ledger.Valid() && tracker !in ledger.Repr && ledger.manager == manager
    modifies tracker, ledger.Repr
    ensures tracker.Valid() && ledger.Valid() && tracker.Placed(ledger)
    ensures SiteOf(tracker, manager) ==
      TH.After(TH.After(old(SiteOf(tracker, manager)), TH.Cycle(adapters, memberships, automatic)),
               TH.Other(RH.CheckStale(old(tracker.infos).Keys, devices, now)))
  {
    hide AdapterNetworks, HomeNetworks, GroupsOf, TH.Multihomed, TH.Spans, Mismatch, WellOrdered;
    hide Repairs.Checked, Repairs.TopologyChecked, DeliveryLedger.Valid, DeliveryLedger.View, DeliveryLedger.Mismatches, TouchedAll;
    ledger.OwnsManager();
    tracker.Refresh(adapters, automatic, urlHost, memberships, ledger);
    ledger.OwnsManager();
    CheckIssues(tracker, ledger, manager, devices, now);
  }

  function Listed(members: map<Uuid, seq<Uuid>>, g: Uuid): seq<Uuid> {
    if g in members then members[g] else []
  }

  function Found(hosts: map<Host, Uuid>, host: Host): Option<Uuid> {
    if host in hosts then Some(hosts[host]) else None
  }

  lemma GroupsFound(d: Discovery, adapters: seq<Network>, m: Memberships, found: map<Uuid, Group>)
    requires WellOrdered(d)
    requires forall g :: g in found <==> g in d.order && d.infos[g].isAudioGroup
    requires forall g :: g in found ==> found[g] == GroupOf(d, adapters, m, g)
    ensures found == GroupsOf(d, adapters, m)
  {
    hide GroupOf;
  }

  lemma NoMembership(g: Uuid, u: Uuid)
    ensures Repeated([], g, u) == []
  {
  }

  lemma RepeatedOnceMore(groups: seq<Uuid>, j: nat, g: Uuid, u: Uuid)
    requires j < |groups|
    ensures Repeated(groups[..j + 1], g, u) == Repeated(groups[..j], g, u) + (if groups[j] == g then [u] else [])
  {
    assert groups[..j + 1][..j] == groups[..j];
  }

  lemma OneMoreMembership(members: map<Uuid, seq<Uuid>>, before: map<Uuid, seq<Uuid>>, groups: seq<Uuid>, j: nat, u: Uuid)
    requires j < |groups| && forall g :: Listed(members, g) == Listed(before, g) + Repeated(groups[..j], g, u)
    ensures var members' := members[groups[j] := Listed(members, groups[j]) + [u]];
      forall g :: Listed(members', g) == Listed(before, g) + Repeated(groups[..j + 1], g, u)
  {
    hide Repeated;
    var members' := members[groups[j] := Listed(members, groups[j]) + [u]];
    forall g ensures Listed(members', g) == Listed(before, g) + Repeated(groups[..j + 1], g, u) {
      RepeatedOnceMore(groups, j, g, u);
      assert Listed(members, g) == Listed(before, g) + Repeated(groups[..j], g, u);
    }
  }

  lemma NoPlaces(adapters: seq<Network>, leader: Option<Host>)
    ensures SubnetsOf(adapters, leader, map[]) == map[Leader := SubnetOf(adapters, leader)]
  {
  }

  lemma OneMorePlace(adapters: seq<Network>, leader: Option<Host>, hosts: map<Uuid, Option<Host>>, u: Uuid, host: Option<Host>)
    ensures SubnetsOf(adapters, leader, hosts[u := host]) == SubnetsOf(adapters, leader, hosts)[Member(u) := SubnetOf(adapters, host)]
  {
    hide SubnetOf;
  }
}
