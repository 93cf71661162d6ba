/** The group and multihomed issues over whole runs of discoveries, refreshes and checks. */
module TopologyHistory {
  import opened Vocabulary
  import opened Topology
  import opened Repairs
  import RH = RepairHistory

  datatype Site = Site(discovery: Discovery, groups: map<Uuid, Group>, repairs: State)

  /** A refresh and the check of its result run back to back in each probe cycle. */
  datatype Event =
    | Discover(uuid: Uuid, info: Info)
    | Cycle(adapters: seq<Adapter>, memberships: Memberships, automatic: bool)
    | Other(event: RH.Event)

  /** How many enabled adapters have an IPv4 address. */
  function Homes(adapters: seq<Adapter>): nat {
    if adapters == [] then 0
    else
      var last := adapters[|adapters| - 1];
      Homes(adapters[..|adapters| - 1]) + if last.enabled && last.ipv4 != [] then 1 else 0
  }

  /** `multihomed`: unknown when no adapter could be enumerated. */
  function Multihomed(adapters: seq<Adapter>): Option<bool> {
    if adapters == [] then None else Some(Homes(adapters) >= 2)
  }

  predicate InUse(a: Adapter) {
    a.enabled && a.ipv4 != []
  }

  lemma {:induction false} HomesMean(adapters: seq<Adapter>)
    ensures Homes(adapters) >= 1 <==> exists i :: 0 <= i < |adapters| && InUse(adapters[i])
    ensures Homes(adapters) >= 2 <==> exists i, j :: 0 <= i < j < |adapters| && InUse(adapters[i]) && InUse(adapters[j])
  {
    if adapters != [] {
      var n := |adapters| - 1;
      HomesMean(adapters[..n]);
      assert forall i :: 0 <= i < n ==> adapters[..n][i] == adapters[i];
      if InUse(adapters[n]) && Homes(adapters[..n]) >= 1 {
        var i :| 0 <= i < n && InUse(adapters[..n][i]);
        assert InUse(adapters[i]) && InUse(adapters[n]);
      }
    }
  }

  /** The host is multihomed if and only if two of its adapters are enabled and have an
      IPv4 address, and this is unknown if and only if no adapter is known. */
  lemma MultihomedMeans(adapters: seq<Adapter>)
    ensures Multihomed(adapters) == None <==> adapters == []
    ensures Multihomed(adapters) == Some(true) <==>
      exists i, j :: 0 <= i < j < |adapters| && InUse(adapters[i]) && InUse(adapters[j])
  {
    HomesMean(adapters);
  }

  function Spans(groups: map<Uuid, Group>): map<Uuid, Option<bool>> {
    map g | g in groups :: groups[g].span
  }

  function After(s: Site, e: Event): Site {
    match e
    case Discover(u, info) => s.(discovery := Discovered(s.discovery, u, info))
    case Cycle(adapters, memberships, automatic) =>
      var groups := GroupsOf(s.discovery, AdapterNetworks(adapters), memberships);
      s.(groups := groups, repairs := TopologyChecked(s.repairs, Multihomed(adapters), Some(automatic), Spans(groups)))
    case Other(event) => s.(repairs := RH.After(s.repairs, event))
  }

  predicate IsGroup(d: Discovery, u: Uuid) {
    u in d.infos && d.infos[u].isAudioGroup
  }

  /** Topology checks come with their refresh, and stale checks look for the devices that
      have been discovered so far. */
  predicate Fits(s: Site, e: Event) {
    e.Other? ==>
      && !e.event.CheckTopology?
      && (e.event.CheckStale? ==> e.event.discovered == s.discovery.infos.Keys)
  }

  ghost predicate Happens(ss: seq<Site>, es: seq<Event>, i: nat)
    requires i < |es| < |ss|
  {
    ss[i + 1] == After(ss[i], es[i]) && Fits(ss[i], es[i])
  }

  /** A run of a new tracker and a new manager, whatever issues they find. */
  ghost predicate IsRun(ss: seq<Site>, es: seq<Event>) {
    && |ss| == |es| + 1
    && ss[0].discovery == Discovery(map[], []) && Repairs.IsNew(ss[0].repairs)
    && forall i :: 0 <= i < |es| ==> Happens(ss, es, i)
  }

  /** No id is ever discovered as a plain device after it was discovered as a group. */
  ghost predicate GroupsStayGroups(ss: seq<Site>, es: seq<Event>)
    requires |ss| == |es| + 1
  {
    forall i :: 0 <= i < |es| && es[i].Discover? && IsGroup(ss[i].discovery, es[i].uuid) ==> es[i].info.isAudioGroup
  }

  // ------------------------------------------------------------- one check

  /** A check decides the span issue of every current group and touches no other. */
  lemma CheckDecides(s: State, multihomed: Option<bool>, automatic: Option<bool>, spans: map<Uuid, Option<bool>>, u: Uuid)
    ensures var s' := TopologyChecked(s, multihomed, automatic, spans);
      && (GroupSpansIssue(u) in s'.issues <==>
            if u in spans then spans[u] == Some(true) else GroupSpansIssue(u) in s.issues)
      && (MultihomedIssue in s'.issues <==> multihomed == Some(true) && automatic == Some(true))
  {
  }

  /** A check leaves exactly the issues of the groups that span exactly if no issue is
      held for an id that is no group any more. */
  lemma NoLeakIff(s: State, multihomed: Option<bool>, automatic: Option<bool>, spans: map<Uuid, Option<bool>>)
    ensures (forall u :: GroupSpansIssue(u) in TopologyChecked(s, multihomed, automatic, spans).issues <==>
                         u in spans && spans[u] == Some(true))
      <==> (forall u :: GroupSpansIssue(u) in s.issues ==> u in spans)
  {
    forall u ensures
      GroupSpansIssue(u) in TopologyChecked(s, multihomed, automatic, spans).issues <==>
        if u in spans then spans[u] == Some(true) else GroupSpansIssue(u) in s.issues
    {
      CheckDecides(s, multihomed, automatic, spans, u);
    }
  }

  /** The condition is needed: an id that stops being a group keeps its issue, however
      many cycles follow. */
  lemma {:induction false} DemotedGroupLeaks(s: Site, u: Uuid, info: Info, cycles: seq<Event>, ss: seq<Site>)
    requires GroupSpansIssue(u) in s.repairs.issues && !info.isAudioGroup
    requires |ss| == |cycles| + 1 && ss[0] == After(s, Discover(u, info))
    requires forall i :: 0 <= i < |cycles| ==> cycles[i].Cycle? && ss[i + 1] == After(ss[i], cycles[i])
    ensures GroupSpansIssue(u) in ss[|cycles|].repairs.issues && !IsGroup(ss[|cycles|].discovery, u)
    decreases |cycles|
  {
    hide GroupsOf, AdapterNetworks, TopologyChecked;
    if cycles != [] {
      var n := |cycles| - 1;
      DemotedGroupLeaks(s, u, info, cycles[..n], ss[..n + 1]);
      CycleDecides(ss[n], cycles[n], u);
    }
  }

  /** After a cycle, the span issue of a group says whether it spans, and the issue of any
      other id is as it was. */
  lemma CycleDecides(s: Site, e: Event, u: Uuid)
    requires e.Cycle?
    ensures var s' := After(s, e);
      && s'.discovery == s.discovery && (u in s'.groups <==> IsGroup(s.discovery, u))
      && (GroupSpansIssue(u) in s'.repairs.issues <==>
            if u in s'.groups then s'.groups[u].span == Some(true) else GroupSpansIssue(u) in s.repairs.issues)
      && (MultihomedIssue in s'.repairs.issues <==> Homes(e.adapters) >= 2 && e.automatic)
  {
    hide TopologyChecked, GroupsOf, AdapterNetworks;
    var groups := GroupsOf(s.discovery, AdapterNetworks(e.adapters), e.memberships);
    CheckDecides(s.repairs, Multihomed(e.adapters), Some(e.automatic), Spans(groups), u);
    SpansOfGroups(s.discovery, AdapterNetworks(e.adapters), e.memberships, u);
  }

  lemma OtherLeavesGroups(s: State, e: RH.Event, u: Uuid)
    requires !e.CheckTopology?
    ensures GroupSpansIssue(u) in RH.After(s, e).issues <==> GroupSpansIssue(u) in s.issues
  {
  }

  // ---------------------------------------------------------------- over runs

  lemma SpansOfGroups(d: Discovery, adapters: seq<Network>, m: Memberships, u: Uuid)
    ensures u in Spans(GroupsOf(d, adapters, m)) <==> IsGroup(d, u)
  {
  }

  lemma DiscoveredOrdered(d: Discovery, u: Uuid, info: Info)
    requires WellOrdered(d)
    ensures WellOrdered(Discovered(d, u, info))
  {
    var d' := Discovered(d, u, info);
    if u !in d.infos {
      assert forall v :: v in d'.order <==> v in d.order || v == u;
    }
  }

  lemma {:induction false} Ordered(ss: seq<Site>, es: seq<Event>, i: nat)
    requires IsRun(ss, es) && i < |ss|
    ensures WellOrdered(ss[i].discovery)
  {
    if i > 0 {
      hide GroupsOf, AdapterNetworks, TopologyChecked, WellOrdered, RH.After;
      Ordered(ss, es, i - 1);
      assert Happens(ss, es, i - 1);
      if es[i - 1].Discover? {
        DiscoveredOrdered(ss[i - 1].discovery, es[i - 1].uuid, es[i - 1].info);
      }
    } else {
      EmptyOrdered();
    }
  }

  lemma EmptyOrdered()
    ensures WellOrdered(Discovery(map[], []))
  {
  }

  /** While groups stay groups, an id that is no group has never been one, and its issue is
      as it was found. */
  lemma {:induction false} OthersUntouched(ss: seq<Site>, es: seq<Event>, i: nat, u: Uuid)
    requires IsRun(ss, es) && GroupsStayGroups(ss, es) && i < |ss| && !IsGroup(ss[i].discovery, u)
    ensures GroupSpansIssue(u) in ss[i].repairs.issues <==> GroupSpansIssue(u) in ss[0].repairs.issues
  {
    if i > 0 {
      hide TopologyChecked, GroupsOf, RH.After;
      var s, e := ss[i - 1], es[i - 1];
      assert Happens(ss, es, i - 1);
      if e.Cycle? {
        CycleDecides(s, e, u);
      } else if e.Other? {
        OtherLeavesGroups(s.repairs, e.event, u);
      }
      OthersUntouched(ss, es, i - 1, u);
    }
  }

  /** Main result: while groups stay groups, after every cycle the span issues are those of
      the current groups that span subnets, and of the ids that are no groups those that
      were found at the start; the multihomed issue exists exactly if two adapters are in
      use and the internal URL is automatic. */
  lemma GroupIssuesNeverLeak(ss: seq<Site>, es: seq<Event>, i: nat, u: Uuid)
    requires IsRun(ss, es) && GroupsStayGroups(ss, es) && i < |es| && es[i].Cycle?
    ensures GroupSpansIssue(u) in ss[i + 1].repairs.issues <==>
      if u in ss[i + 1].groups then ss[i + 1].groups[u].span == Some(true) else GroupSpansIssue(u) in ss[0].repairs.issues
    ensures u in ss[i + 1].groups <==> IsGroup(ss[i + 1].discovery, u)
    ensures MultihomedIssue in ss[i + 1].repairs.issues <==> Homes(es[i].adapters) >= 2 && es[i].automatic
  {
    hide TopologyChecked, GroupsOf, AdapterNetworks, After;
    assert Happens(ss, es, i);
    CycleDecides(ss[i], es[i], u);
    if !IsGroup(ss[i].discovery, u) {
      OthersUntouched(ss, es, i, u);
    }
  }

  /** Main result: after every cycle, a current group has its span issue if and only if two
      of the addresses discovered for its leader and its members lie in different subnets. */
  lemma SpanIssueMeans(ss: seq<Site>, es: seq<Event>, i: nat, g: Uuid)
    requires IsRun(ss, es) && i < |es| && es[i].Cycle? && IsGroup(ss[i].discovery, g)
    ensures GroupSpansIssue(g) in ss[i + 1].repairs.issues <==>
      SpansSubnets(ss[i].discovery, AdapterNetworks(es[i].adapters), es[i].memberships, g)
  {
    hide TopologyChecked, GroupOf, AdapterNetworks, SpansSubnets, WellOrdered;
    assert Happens(ss, es, i);
    Ordered(ss, es, i);
    CycleDecides(ss[i], es[i], g);
    GroupSpanMeans(ss[i].discovery, AdapterNetworks(es[i].adapters), es[i].memberships, g);
  }

  /** What is known of a device is its latest discovery. */
  lemma {:induction false} LatestDiscovery(ss: seq<Site>, es: seq<Event>, i: nat, j: nat, u: Uuid)
    requires IsRun(ss, es) && i < j < |ss| && es[i].Discover? && es[i].uuid == u
    requires forall k :: i < k < j ==> !(es[k].Discover? && es[k].uuid == u)
    ensures u in ss[j].discovery.infos && ss[j].discovery.infos[u] == es[i].info
    decreases j
  {
    hide GroupsOf, AdapterNetworks, TopologyChecked, RH.After;
    assert Happens(ss, es, j - 1);
    if j > i + 1 {
      LatestDiscovery(ss, es, i, j - 1, u);
    }
  }

  // ------------------------------------------------------ discovered, not stale

  /** Once discovered, always discovered. */
  lemma {:induction false} StaysDiscovered(ss: seq<Site>, es: seq<Event>, i: nat, j: nat, u: Uuid)
    requires IsRun(ss, es) && i <= j < |ss| && u in ss[i].discovery.infos
    ensures u in ss[j].discovery.infos
    decreases j
  {
    if i < j {
      hide GroupsOf, AdapterNetworks, TopologyChecked, RH.After;
      StaysDiscovered(ss, es, i, j - 1, u);
      assert Happens(ss, es, j - 1);
    }
  }

  ghost predicate NoneStale(s: State, u: Uuid) {
    forall id :: id in s.stale ==> s.stale[id].uuid != Some(u)
  }

  lemma {:induction false} NoDiscoveredCandidate(s: State, discovered: set<Uuid>, devices: seq<RegistryDevice>, now: Time, u: Uuid)
    requires u in discovered
    ensures forall id :: id in Candidates(s, discovered, devices, now) ==> Candidates(s, discovered, devices, now)[id].uuid != Some(u)
  {
    if devices != [] {
      NoDiscoveredCandidate(s, discovered, devices[..|devices| - 1], now, u);
    }
  }

  lemma EventLeavesNoneStale(s: Site, e: Event, u: Uuid)
    requires Fits(s, e) && (if e.Other? && e.event.CheckStale? then u in s.discovery.infos else NoneStale(s.repairs, u))
    ensures NoneStale(After(s, e).repairs, u)
  {
    hide Candidates, Tracked, GroupsOf, AdapterNetworks;
    if e.Other? && e.event.CheckStale? {
      NoDiscoveredCandidate(s.repairs, e.event.discovered, e.event.devices, e.event.now, u);
    }
  }

  /** Main result: from the first check after its discovery on, a device is never held
      stale again, since no discovery is ever forgotten. */
  lemma {:induction false} DiscoveredIsNeverStale(ss: seq<Site>, es: seq<Event>, i: nat, j: nat, m: nat, u: Uuid)
    requires IsRun(ss, es) && i < |es| && es[i].Discover? && es[i].uuid == u
    requires i < j < m < |ss| && es[j].Other? && es[j].event.CheckStale?
    ensures NoneStale(ss[m].repairs, u)
    decreases m
  {
    hide After, NoneStale;
    assert Happens(ss, es, m - 1) && Happens(ss, es, i);
    NowDiscovered(ss[i], es[i]);
    StaysDiscovered(ss, es, i + 1, m - 1, u);
    if m - 1 > j {
      DiscoveredIsNeverStale(ss, es, i, j, m - 1, u);
    }
    EventLeavesNoneStale(ss[m - 1], es[m - 1], u);
  }

  lemma NowDiscovered(s: Site, e: Event)
    requires e.Discover?
    ensures e.uuid in After(s, e).discovery.infos
  {
  }

  // --------------------------------------------------------------- a demotion

  /** A run in which it happens: a group spans two subnets, is rediscovered as a plain
      device, and the next cycle leaves its issue. */
  lemma DemotionRun(start: State, u: Uuid, v: Uuid) returns (ss: seq<Site>, es: seq<Event>)
    requires Repairs.IsNew(start) && u != v
    ensures IsRun(ss, es) && |es| == 5 && es[4].Cycle? && ss[0].repairs == start
    ensures GroupSpansIssue(u) in ss[5].repairs.issues && u !in ss[5].groups
  {
    hide After, IsRun, Repairs.IsNew;
    var group := Info(Some(Ipv4(0)), 8009, true, false);
    var plain := group.(isAudioGroup := false);
    var member := Info(Some(Ipv4(256)), 8009, false, false);
    var cycle := Cycle([], Some(map[v := [u]]), true);
    var s0 := Site(Discovery(map[], []), map[], start);
    Demotion(s0, u, v, group, member, plain, cycle);
    ss, es := FiveEvents(s0, Discover(u, group), Discover(v, member), cycle, Discover(u, plain), cycle);
  }

  lemma Demotion(s: Site, u: Uuid, v: Uuid, group: Info, member: Info, plain: Info, cycle: Event)
    requires s.discovery == Discovery(map[], []) && u != v && !plain.isAudioGroup
    requires group == Info(Some(Ipv4(0)), 8009, true, false) && member == Info(Some(Ipv4(256)), 8009, false, false)
    requires cycle == Cycle([], Some(map[v := [u]]), true)
    ensures var s' := After(After(After(After(After(s, Discover(u, group)), Discover(v, member)), cycle), Discover(u, plain)), cycle);
      GroupSpansIssue(u) in s'.repairs.issues && u !in s'.groups
  {
    hide After, TwoSubnetsKnown;
    GroupAndMember(s, u, v, group, member);
    var s2 := After(After(s, Discover(u, group)), Discover(v, member));
    SpanRaised(s2, u, v, cycle);
    Demoted(s2, After(s2, cycle), u, v, plain, cycle);
    CycleDecides(After(After(s2, cycle), Discover(u, plain)), cycle, u);
  }

  lemma FiveEvents(s: Site, e0: Event, e1: Event, e2: Event, e3: Event, e4: Event) returns (ss: seq<Site>, es: seq<Event>)
    requires s.discovery == Discovery(map[], []) && Repairs.IsNew(s.repairs)
    requires !e0.Other? && !e1.Other? && !e2.Other? && !e3.Other? && !e4.Other?
    ensures IsRun(ss, es) && es == [e0, e1, e2, e3, e4] && ss[0] == s
    ensures ss[4] == After(After(After(After(s, e0), e1), e2), e3) && ss[5] == After(ss[4], e4)
  {
    hide After, Repairs.IsNew;
    var s1 := After(s, e0);
    var s2 := After(s1, e1);
    var s3 := After(s2, e2);
    var s4 := After(s3, e3);
    ss, es := [s, s1, s2, s3, s4, After(s4, e4)], [e0, e1, e2, e3, e4];
    assert Happens(ss, es, 0) && Happens(ss, es, 1) && Happens(ss, es, 2) && Happens(ss, es, 3) && Happens(ss, es, 4);
  }

  /** A leader and a member in different assumed subnets. */
  ghost predicate TwoSubnetsKnown(d: Discovery, u: Uuid, v: Uuid) {
    && WellOrdered(d) && u in d.infos && v in d.infos && d.infos[u].isAudioGroup && !d.infos[v].isAudioGroup
    && d.infos[u].host == Some(Ipv4(0)) && d.infos[v].host == Some(Ipv4(256))
  }

  lemma GroupAndMember(s: Site, u: Uuid, v: Uuid, group: Info, member: Info)
    requires s.discovery == Discovery(map[], []) && u != v
    requires group == Info(Some(Ipv4(0)), 8009, true, false) && member == Info(Some(Ipv4(256)), 8009, false, false)
    ensures TwoSubnetsKnown(After(After(s, Discover(u, group)), Discover(v, member)).discovery, u, v)
  {
    hide GroupsOf, TopologyChecked;
    EmptyOrdered();
    DiscoveredOrdered(s.discovery, u, group);
    DiscoveredOrdered(Discovered(s.discovery, u, group), v, member);
  }

  lemma SpanRaised(s: Site, u: Uuid, v: Uuid, e: Event)
    requires TwoSubnetsKnown(s.discovery, u, v) && e == Cycle([], Some(map[v := [u]]), true)
    ensures GroupSpansIssue(u) in After(s, e).repairs.issues
  {
    hide GroupOf, GroupsOf, TopologyChecked, AdapterNetworks;
    TwoSubnets(s.discovery, u, v, e.memberships);
    SpansThen(s, e, u);
    CycleDecides(s, e, u);
  }

  lemma Demoted(s2: Site, s3: Site, u: Uuid, v: Uuid, plain: Info, cycle: Event)
    requires cycle.Cycle? && s3 == After(s2, cycle) && !plain.isAudioGroup
    ensures var s4 := After(s3, Discover(u, plain));
      s4.repairs == s3.repairs && !IsGroup(s4.discovery, u)
  {
    hide GroupsOf, TopologyChecked;
  }

  lemma SpansThen(s: Site, e: Event, u: Uuid)
    requires e.Cycle? && IsGroup(s.discovery, u)
    ensures u in After(s, e).groups
    ensures After(s, e).groups[u] == GroupOf(s.discovery, AdapterNetworks(e.adapters), e.memberships, u)
  {
    hide GroupOf, AdapterNetworks;
  }

  lemma TwoSubnets(d: Discovery, u: Uuid, v: Uuid, m: Memberships)
    requires TwoSubnetsKnown(d, u, v) && m == Some(map[v := [u]])
    ensures GroupOf(d, AdapterNetworks([]), m, u).span == Some(true)
  {
    hide MembersOf, HostsOf, SubnetsOf, DeviceAt;
    assert AdapterNetworks([]) == [];
    assert Pow2(8) == 256;
    var a, b := NetworkOf(0, ASSUMED_PREFIX), NetworkOf(256, ASSUMED_PREFIX);
    PlacesMean(d, [], m, u, Leader, a);
    PlacesMean(d, [], m, u, Member(v), b);
    var subnets := GroupOf(d, [], m, u).subnets;
    assert PlacedIn(subnets, Leader, a) && PlacedIn(subnets, Member(v), b) && a != b;
    SpanMeans(subnets);
  }
}
