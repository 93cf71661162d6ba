/** The repair manager's stale-device tracking over whole runs. */
module RepairHistory {
  import opened Vocabulary
  import opened Repairs

  /** Everything that changes the manager's state or the issue registry. */
  datatype Event =
    | Delivery(record: Record)
    | DeviceSeen(uuid: Uuid, now: Time)
    | CheckStale(discovered: set<Uuid>, devices: seq<RegistryDevice>, now: Time)
    | CheckTopology(multihomed: Option<bool>, automatic: Option<bool>, spans: map<Uuid, Option<bool>>)
    | FixFlow(device: DeviceId)

  function After(s: State, e: Event): State {
    match e
    case Delivery(r) => OnRecord(s, r)
    case DeviceSeen(u, now) => Seen(s, u, now)
    case CheckStale(discovered, devices, now) => Checked(s, discovered, devices, now)
    case CheckTopology(multihomed, automatic, spans) => TopologyChecked(s, multihomed, automatic, spans)
    case FixFlow(id) => Fixed(s, id)
  }

  ghost predicate Happens(ss: seq<State>, es: seq<Event>, i: nat)
    requires i < |es| < |ss|
  {
    && ss[i + 1] == After(ss[i], es[i])
    && (es[i].CheckStale? ==> Distinct(es[i].devices))
  }

  /** A run of a new manager, from whatever stamps and issues it finds. */
  ghost predicate IsRun(start: State, ss: seq<State>, es: seq<Event>) {
    && |ss| == |es| + 1 && ss[0] == start && IsNew(start)
    && forall i :: 0 <= i < |es| ==> Happens(ss, es, i)
  }

  /** An issue for a device the manager does not hold stale. */
  predicate LeftOver(s: State, id: DeviceId) {
    StaleIssue(id) in s.issues && id !in s.stale
  }

  // ------------------------------------------------------------ one check

  lemma {:induction false} TrackedKeys(s: State, discovered: set<Uuid>, devices: seq<RegistryDevice>, now: Time)
    ensures var t := Tracked(s, discovered, devices, now);
      && (forall k :: k in s.trackedSince ==> k in t && t[k] == s.trackedSince[k])
      && (forall d :: d in devices && !IsDiscovered(d, discovered) ==> KeyOf(d) in t && t[KeyOf(d)] == TrackedSince(s, d, now))
  {
    if devices != [] {
      var last := devices[|devices| - 1];
      var before := devices[..|devices| - 1];
      TrackedKeys(s, discovered, before, now);
      TrackedNew(s, discovered, before, now);
      forall d | d in devices && d != last ensures d in before {
      }
    }
  }

  lemma {:induction false} TrackedNew(s: State, discovered: set<Uuid>, devices: seq<RegistryDevice>, now: Time)
    ensures var t := Tracked(s, discovered, devices, now);
      forall k :: k in t && k !in s.trackedSince ==> t[k] == now
  {
    if devices != [] {
      TrackedNew(s, discovered, devices[..|devices| - 1], now);
    }
  }

  lemma {:induction false} CandidatesAre(s: State, discovered: set<Uuid>, devices: seq<RegistryDevice>, now: Time)
    requires Distinct(devices)
    ensures var c := Candidates(s, discovered, devices, now);
      && (forall i :: 0 <= i < |devices| ==> (devices[i].id in c <==> IsStale(s, devices[i], discovered, now)))
      && (forall i :: 0 <= i < |devices| && devices[i].id in c ==>
            c[devices[i].id] == Candidate(devices[i].id, devices[i].uuid, LastSeen(s, devices[i]), TrackedSince(s, devices[i], now)))
  {
    if devices != [] {
      hide IsStale, IsDiscovered, LastSeen, TrackedSince, Reference;
      var n := |devices| - 1;
      CandidatesAre(s, discovered, devices[..n], now);
      CandidatesListed(s, discovered, devices[..n], now);
      assert devices[n].id !in Candidates(s, discovered, devices[..n], now);
    }
  }

  lemma {:induction false} CandidatesListed(s: State, discovered: set<Uuid>, devices: seq<RegistryDevice>, now: Time)
    ensures forall id :: id in Candidates(s, discovered, devices, now) ==> Candidates(s, discovered, devices, now)[id].device == id
    ensures forall id :: id in Candidates(s, discovered, devices, now) ==> exists i :: 0 <= i < |devices| && devices[i].id == id
  {
    if devices != [] {
      var n := |devices| - 1;
      CandidatesListed(s, discovered, devices[..n], now);
      var before := Candidates(s, discovered, devices[..n], now);
      forall id | id in Candidates(s, discovered, devices, now)
        ensures Candidates(s, discovered, devices, now)[id].device == id
        ensures exists i :: 0 <= i < |devices| && devices[i].id == id
      {
        if id in before {
          var i :| 0 <= i < n && devices[..n][i].id == id;
          assert devices[i].id == id;
        } else {
          assert devices[n].id == id;
        }
      }
    }
  }

  /** Exactly two things end a left-over issue: the device turns out stale, so that the
      manager holds it from then on, or the fix flow deletes it. */
  lemma LeftOverStep(s: State, e: Event, id: DeviceId)
    ensures LeftOver(After(s, e), id) <==> LeftOver(s, id) && id !in After(s, e).stale && e != FixFlow(id)
  {
    hide Candidates, Tracked;
    match e
    case Delivery(r) => DeliveryLeaves(s, r, id);
    case CheckTopology(multihomed, automatic, spans) => TopologyLeaves(s, multihomed, automatic, spans, id);
    case _ =>
  }

  lemma DeliveryLeaves(s: State, r: Record, id: DeviceId)
    ensures OnRecord(s, r).stale == s.stale && (StaleIssue(id) in OnRecord(s, r).issues <==> StaleIssue(id) in s.issues)
  {
    if r.outcome == Ok {
    } else if r.outcome == FetchFailed {
    }
  }

  lemma TopologyLeaves(s: State, multihomed: Option<bool>, automatic: Option<bool>, spans: map<Uuid, Option<bool>>, id: DeviceId)
    ensures var s' := TopologyChecked(s, multihomed, automatic, spans);
      s'.stale == s.stale && (StaleIssue(id) in s'.issues <==> StaleIssue(id) in s.issues)
  {
  }

  /** Up to state `i` the manager has never held device `id` stale, and no fix flow has
      been confirmed for it. */
  ghost predicate Untouched(ss: seq<State>, es: seq<Event>, i: nat, id: DeviceId)
    requires i <= |es| < |ss|
  {
    && (forall k :: 0 <= k <= i ==> id !in ss[k].stale)
    && (forall k :: 0 <= k < i ==> es[k] != FixFlow(id))
  }

  // ------------------------------------------------------------- main results

  /** In every run, the stale issues beyond the devices held stale are exactly those that
      were found at the start and have not been touched since. */
  lemma {:induction false} LeftOversAreUntouched(start: State, ss: seq<State>, es: seq<Event>, i: nat, id: DeviceId)
    requires IsRun(start, ss, es) && i < |ss|
    ensures LeftOver(ss[i], id) <==> StaleIssue(id) in start.issues && Untouched(ss, es, i, id)
  {
    if i > 0 {
      hide After, Checked, IsNew;
      LeftOversAreUntouched(start, ss, es, i - 1, id);
      assert Happens(ss, es, i - 1);
      LeftOverStep(ss[i - 1], es[i - 1], id);
    }
  }

  /** A stale issue is of a device held stale, fix flows included, or was found at the
      start and has not been touched since. */
  lemma StaleIssuesAreTracked(start: State, ss: seq<State>, es: seq<Event>, i: nat, id: DeviceId)
    requires IsRun(start, ss, es) && i < |ss| && StaleIssue(id) in ss[i].issues
    ensures id in ss[i].stale || (StaleIssue(id) in start.issues && Untouched(ss, es, i, id))
  {
    hide Happens, Untouched;
    LeftOversAreUntouched(start, ss, es, i, id);
  }

  lemma CheckIsExact(s: State, discovered: set<Uuid>, devices: seq<RegistryDevice>, now: Time, id: DeviceId)
    requires Distinct(devices)
    ensures var s' := Checked(s, discovered, devices, now);
      && (id in s'.stale ==> StaleIssue(id) in s'.issues)
      && (id in s'.stale <==> exists i :: 0 <= i < |devices| && devices[i].id == id && IsStale(s, devices[i], discovered, now))
  {
    hide Tracked, IsStale, Candidates;
    CandidatesAre(s, discovered, devices, now);
    CandidatesListed(s, discovered, devices, now);
  }

  /** In every run a check leaves the issues of exactly the registry devices that are not
      discovered and have been neither seen nor tracked for less than seven days, besides
      those found at the start that it does not touch. */
  lemma EveryCheckIsExact(start: State, ss: seq<State>, es: seq<Event>, i: nat, id: DeviceId)
    requires IsRun(start, ss, es) && i < |es| && es[i].CheckStale?
    ensures id in ss[i + 1].stale <==>
      exists k :: 0 <= k < |es[i].devices| && es[i].devices[k].id == id && IsStale(ss[i], es[i].devices[k], es[i].discovered, es[i].now)
    ensures StaleIssue(id) in ss[i + 1].issues <==>
      id in ss[i + 1].stale || (StaleIssue(id) in start.issues && Untouched(ss, es, i + 1, id))
  {
    hide After, Untouched, IsStale;
    assert Happens(ss, es, i);
    ChecksOf(ss[i], es[i]);
    CheckIsExact(ss[i], es[i].discovered, es[i].devices, es[i].now, id);
    LeftOversAreUntouched(start, ss, es, i + 1, id);
  }

  /** Once a fix flow has been confirmed, the issue stays away as long as no check lists
      the device, which the flow has removed from the registry. */
  lemma {:induction false} FixIsFinal(start: State, ss: seq<State>, es: seq<Event>, i: nat, j: nat, id: DeviceId)
    requires IsRun(start, ss, es) && i < j < |ss| && es[i] == FixFlow(id)
    requires forall k :: i < k < j && es[k].CheckStale? ==> Unlisted(es[k].devices, id)
    ensures StaleIssue(id) !in ss[j].issues
    decreases j
  {
    hide Candidates, Tracked, Unlisted;
    assert Happens(ss, es, j - 1);
    var s, e := ss[j - 1], es[j - 1];
    if i < j - 1 {
      FixIsFinal(start, ss, es, i, j - 1, id);
      match e
      case Delivery(r) => DeliveryLeaves(s, r, id);
      case CheckTopology(multihomed, automatic, spans) => TopologyLeaves(s, multihomed, automatic, spans, id);
      case CheckStale(discovered, devices, now) => UnlistedIsNoCandidate(s, discovered, devices, now, id);
      case _ =>
    }
  }

  lemma UnlistedIsNoCandidate(s: State, discovered: set<Uuid>, devices: seq<RegistryDevice>, now: Time, id: DeviceId)
    requires Unlisted(devices, id)
    ensures id !in Candidates(s, discovered, devices, now)
  {
    CandidatesListed(s, discovered, devices, now);
  }

  lemma ChecksOf(s: State, e: Event)
    requires e.CheckStale?
    ensures After(s, e) == Checked(s, e.discovered, e.devices, e.now)
  {
  }

  /** A device that has just been seen has no stale issue, unless one was found at the
      start and has not been touched since: that the manager does not know. */
  lemma SeenDeviceHasNoIssue(start: State, ss: seq<State>, es: seq<Event>, i: nat, id: DeviceId)
    requires IsRun(start, ss, es) && i < |es| && es[i].DeviceSeen?
    ensures StaleIssue(id) in ss[i + 1].issues <==>
      || (StaleIssue(id) in ss[i].issues && id in ss[i].stale && ss[i].stale[id].uuid != Some(es[i].uuid))
      || (StaleIssue(id) in start.issues && Untouched(ss, es, i, id))
  {
    assert Happens(ss, es, i);
    hide Happens, Untouched, IsRun, IsNew;
    LeftOversAreUntouched(start, ss, es, i, id);
  }

  /** Nothing but being seen changes what a tracked device's staleness is measured from. */
  lemma ReferenceKept(s: State, e: Event, d: RegistryDevice, now: Time)
    requires KeyOf(d) in s.trackedSince && !(e.DeviceSeen? && d.uuid == Some(e.uuid))
    ensures KeyOf(d) in After(s, e).trackedSince && Reference(After(s, e), d, now) == Reference(s, d, now)
  {
    if e.CheckStale? {
      TrackedKeys(s, e.discovered, e.devices, e.now);
    }
  }

  /** Between events `i` and `j` device `d` is not seen. */
  ghost predicate Unseen(es: seq<Event>, i: nat, j: nat, d: RegistryDevice)
    requires i <= j <= |es|
  {
    forall k :: i <= k < j ==> !(es[k].DeviceSeen? && d.uuid == Some(es[k].uuid))
  }

  lemma {:induction false} ReferencePersists(start: State, ss: seq<State>, es: seq<Event>, i: nat, j: nat, d: RegistryDevice, now: Time)
    requires IsRun(start, ss, es) && i <= j < |ss| && KeyOf(d) in ss[i].trackedSince && Unseen(es, i, j, d)
    ensures KeyOf(d) in ss[j].trackedSince && Reference(ss[j], d, now) == Reference(ss[i], d, now)
    decreases j
  {
    if i < j {
      hide After, Reference;
      ReferencePersists(start, ss, es, i, j - 1, d, now);
      assert Happens(ss, es, j - 1);
      ReferenceKept(ss[j - 1], es[j - 1], d, now);
    }
  }

  /** A stale device is found stale again by every later check, whatever happens between,
      as long as it is in the registry and is neither seen nor discovered. */
  lemma StalenessPersists(start: State, ss: seq<State>, es: seq<Event>, i: nat, j: nat, m: nat, n: nat)
    requires IsRun(start, ss, es) && i < j < |es| && es[i].CheckStale? && es[j].CheckStale?
    requires m < |es[i].devices| && n < |es[j].devices| && es[i].devices[m] == es[j].devices[n]
    requires es[i].devices[m].id in ss[i + 1].stale
    requires Unseen(es, i, j, es[i].devices[m]) && !IsDiscovered(es[j].devices[n], es[j].discovered)
    requires es[i].now <= es[j].now
    ensures StaleIssue(es[j].devices[n].id) in ss[j + 1].issues
  {
    hide After, IsStale, IsNew;
    var d := es[i].devices[m];
    assert Happens(ss, es, i) && Happens(ss, es, j);
    ChecksOf(ss[i], es[i]);
    ChecksOf(ss[j], es[j]);
    CheckIsExact(ss[i], es[i].discovered, es[i].devices, es[i].now, d.id);
    CheckIsExact(ss[j], es[j].discovered, es[j].devices, es[j].now, d.id);
    assert IsStale(ss[i], d, es[i].discovered, es[i].now);
    NotDiscovered(ss[i], d, es[i].discovered, es[i].now);
    CheckTracks(ss[i], es[i].discovered, es[i].devices, es[i].now, m);
    ReferencePersists(start, ss, es, i + 1, j, d, es[i].now);
    StillStale(ss[i], ss[j], d, es[i].discovered, es[j].discovered, es[i].now, es[j].now);
  }

  /** A check tracks every device it has not discovered. */
  lemma CheckTracks(s: State, discovered: set<Uuid>, devices: seq<RegistryDevice>, now: Time, m: nat)
    requires m < |devices| && !IsDiscovered(devices[m], discovered)
    ensures var s', d := Checked(s, discovered, devices, now), devices[m];
      KeyOf(d) in s'.trackedSince && Reference(s', d, now) == Reference(s, d, now)
  {
    hide Candidates;
    TrackedKeys(s, discovered, devices, now);
    assert devices[m] in devices;
  }

  lemma NotDiscovered(s: State, d: RegistryDevice, discovered: set<Uuid>, now: Time)
    requires IsStale(s, d, discovered, now)
    ensures !IsDiscovered(d, discovered)
  {
  }

  lemma StillStale(s: State, s': State, d: RegistryDevice, discovered: set<Uuid>, discovered': set<Uuid>, now: Time, later: Time)
    requires IsStale(s, d, discovered, now) && !IsDiscovered(d, discovered') && now <= later
    requires KeyOf(d) in s'.trackedSince && Reference(s', d, now) == Reference(s, d, now)
    ensures IsStale(s', d, discovered', later)
  {
  }

  // ---------------------------------------------------------- from the events

  /** When device `u` was last seen, from the events alone: by its latest sighting or, if
      there was none, by the stamp that was stored. */
  function SightingOf(start: State, es: seq<Event>, u: Uuid): Option<Time> {
    if es == [] then if u in start.lastSeen then Some(start.lastSeen[u]) else None
    else
      var e := es[|es| - 1];
      if e.DeviceSeen? && e.uuid == u then Some(e.now) else SightingOf(start, es[..|es| - 1], u)
  }

  /** The check lists a device under this key and has not discovered it. */
  ghost predicate Misses(e: Event, key: Key) {
    e.CheckStale? && exists k :: 0 <= k < |e.devices| && MissesAt(e, k, key)
  }

  ghost predicate MissesAt(e: Event, k: nat, key: Key)
    requires e.CheckStale? && k < |e.devices|
  {
    var d := e.devices[k];
    (match d.uuid
     case Some(u) => key == OfUuid(u) && u !in e.discovered
     case None => key == OfDevice(d.id))
  }

  /** Since when a key has been tracked, from the events alone: by the stamp that was stored
      or, failing that, by the first check that missed it. */
  ghost function TrackingOf(start: State, es: seq<Event>, key: Key): Option<Time> {
    if es == [] then if key in start.trackedSince then Some(start.trackedSince[key]) else None
    else
      var e, before := es[|es| - 1], TrackingOf(start, es[..|es| - 1], key);
      if before.Some? then before else if Misses(e, key) then Some(e.now) else None
  }

  lemma {:induction false} LastSeenIs(start: State, ss: seq<State>, es: seq<Event>, i: nat, u: Uuid)
    requires IsRun(start, ss, es) && i < |ss|
    ensures SightingOf(start, es[..i], u) == if u in ss[i].lastSeen then Some(ss[i].lastSeen[u]) else None
  {
    if i > 0 {
      hide Tracked, Candidates, IsNew;
      LastSeenIs(start, ss, es, i - 1, u);
      assert Happens(ss, es, i - 1);
      assert es[..i][..i - 1] == es[..i - 1];
    }
  }

  /** A check begins to track exactly the keys that it misses. */
  lemma {:induction false} TrackedIs(s: State, discovered: set<Uuid>, devices: seq<RegistryDevice>, now: Time, key: Key)
    ensures var t, e := Tracked(s, discovered, devices, now), CheckStale(discovered, devices, now);
      if key in s.trackedSince then key in t && t[key] == s.trackedSince[key]
      else if Misses(e, key) then key in t && t[key] == now
      else key !in t
  {
    if devices != [] {
      var before := devices[..|devices| - 1];
      TrackedIs(s, discovered, before, now, key);
      MissesMore(discovered, devices, now, key);
    }
  }

  lemma MissesMore(discovered: set<Uuid>, devices: seq<RegistryDevice>, now: Time, key: Key)
    requires devices != []
    ensures var e, before := CheckStale(discovered, devices, now), CheckStale(discovered, devices[..|devices| - 1], now);
      Misses(e, key) <==> Misses(before, key) || MissesAt(e, |devices| - 1, key)
  {
    var e, before := CheckStale(discovered, devices, now), CheckStale(discovered, devices[..|devices| - 1], now);
    if Misses(before, key) {
      var k :| 0 <= k < |before.devices| && MissesAt(before, k, key);
      assert MissesAt(e, k, key);
    }
    if Misses(e, key) {
      var k :| 0 <= k < |e.devices| && MissesAt(e, k, key);
      if k < |devices| - 1 {
        assert MissesAt(before, k, key);
      }
    }
  }

  lemma {:induction false} TrackedSinceIs(start: State, ss: seq<State>, es: seq<Event>, i: nat, key: Key)
    requires IsRun(start, ss, es) && i < |ss|
    ensures TrackingOf(start, es[..i], key) == if key in ss[i].trackedSince then Some(ss[i].trackedSince[key]) else None
  {
    if i > 0 {
      hide Tracked, Candidates, IsNew, Misses;
      TrackedSinceIs(start, ss, es, i - 1, key);
      assert Happens(ss, es, i - 1);
      assert es[..i][..i - 1] == es[..i - 1];
      if es[i - 1].CheckStale? {
        TrackedIs(ss[i - 1], es[i - 1].discovered, es[i - 1].devices, es[i - 1].now, key);
      }
    }
  }

  /** Main result: in every run, a check at `t` holds a registry device stale if and only if
      it is not discovered and its latest sighting (or else the stored one, or if it was
      never seen, the first check that missed it or a stored stamp of that) is at least
      seven days before `t`. */
  lemma HeldStaleIff(start: State, ss: seq<State>, es: seq<Event>, i: nat, k: nat)
    requires IsRun(start, ss, es) && i < |es| && es[i].CheckStale? && k < |es[i].devices|
    ensures var d, t, week := es[i].devices[k], es[i].now, 4 * 7 * 24 * 3600;
      d.id in ss[i + 1].stale <==>
        match d.uuid
        case None =>
          var since := TrackingOf(start, es[..i + 1], OfDevice(d.id));
          since.Some? && since.value + week <= t
        case Some(u) =>
          && u !in es[i].discovered
          && match SightingOf(start, es[..i], u)
             case Some(seen) => seen + week <= t
             case None =>
               var since := TrackingOf(start, es[..i + 1], OfUuid(u));
               since.Some? && since.value + week <= t
    ensures var d := es[i].devices[k];
      d.id in ss[i + 1].stale ==>
        var since := TrackingOf(start, es[..i + 1], if d.uuid.Some? then OfUuid(d.uuid.value) else OfDevice(d.id));
        since.Some? &&
        ss[i + 1].stale[d.id] ==
          Candidate(d.id, d.uuid, if d.uuid.Some? then SightingOf(start, es[..i], d.uuid.value) else None, since.value)
  {
    hide Tracked, Candidates, Happens, IsNew;
    var d, e := es[i].devices[k], es[i];
    assert Happens(ss, es, i);
    EveryCheckIsExact(start, ss, es, i, d.id);
    OnlyDevice(ss, es, i, k);
    if d.uuid.Some? {
      LastSeenIs(start, ss, es, i, d.uuid.value);
    }
    TrackedSinceIs(start, ss, es, i, KeyOf(d));
    assert es[..i + 1][..i] == es[..i];
    if !IsDiscovered(d, e.discovered) {
      assert MissesAt(e, k, KeyOf(d));
    }
    CandidateIs(ss, es, i, k);
    TrackedSinceIs(start, ss, es, i + 1, KeyOf(d));
  }

  lemma CandidateIs(ss: seq<State>, es: seq<Event>, i: nat, k: nat)
    requires i < |es| < |ss| && Happens(ss, es, i) && es[i].CheckStale? && k < |es[i].devices|
    ensures var d, s := es[i].devices[k], ss[i];
      d.id in ss[i + 1].stale ==> ss[i + 1].stale[d.id] == Candidate(d.id, d.uuid, LastSeen(s, d), TrackedSince(s, d, es[i].now))
  {
    hide Candidates, Tracked, IsStale;
    CandidatesAre(ss[i], es[i].discovered, es[i].devices, es[i].now);
  }

  /** The registry lists a device once. */
  lemma OnlyDevice(ss: seq<State>, es: seq<Event>, i: nat, k: nat)
    requires i < |es| < |ss| && Happens(ss, es, i) && es[i].CheckStale? && k < |es[i].devices|
    ensures (exists j :: 0 <= j < |es[i].devices| && es[i].devices[j].id == es[i].devices[k].id &&
                         IsStale(ss[i], es[i].devices[j], es[i].discovered, es[i].now))
      <==> IsStale(ss[i], es[i].devices[k], es[i].discovered, es[i].now)
  {
    hide IsStale, After;
  }
}
