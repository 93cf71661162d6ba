/** The repair manager as an object that updates its dictionaries and the issue registry
    in place. Each method is proved against the state functions of `Repairs`. */
module RepairObjects {
  import opened Vocabulary
  import opened Repairs

  /** The issues of the integration's domain. */
  class IssueRegistry {
    var issues: set<IssueId>

    constructor (issues: set<IssueId>)
      ensures this.issues == issues
    {
      this.issues := issues;
    }

    predicate Has(id: IssueId)
      reads this
    {
      id in issues
    }

    method Create(id: IssueId)
      modifies this
      ensures issues == old(issues) + {id}
    {
      issues := issues + {id};
    }

    method Delete(id: IssueId)
      modifies this
      ensures issues == old(issues) - {id}
    {
      issues := issues - {id};
    }
  }

  class RepairManager {
    const registry: IssueRegistry
    /** The issues that the registry held when this manager was created. */
    ghost const found: set<IssueId>
    var fetchFailures: map<Uuid, nat>
    var unreachables: map<Uuid, nat>
    var lastSeen: map<Uuid, Time>
    var trackedSince: map<Key, Time>
    var stale: map<DeviceId, Candidate>

    ghost function View(): State
      reads this, registry
    {
      State(fetchFailures, unreachables, lastSeen, trackedSince, stale, registry.issues, found)
    }

    constructor (registry: IssueRegistry, lastSeen: map<Uuid, Time>, trackedSince: map<Key, Time>)
      ensures this.registry == registry
      ensures IsNew(View()) && registry.issues == View().issues
      ensures View().lastSeen == lastSeen && View().trackedSince == trackedSince
    {
      this.registry := registry;
      found := registry.issues;
      this.lastSeen := lastSeen;
      this.trackedSince := trackedSince;
      fetchFailures, unreachables, stale := map[], map[], map[];
    }

    /** `_create`. */
    method Raise(id: IssueId)
      modifies registry
      ensures registry.issues == old(registry.issues) + {id}
    {
      registry.Create(id);
    }

    /** `_delete`: an issue that is not there is left alone. */
    method Clear(id: IssueId)
      modifies registry
      ensures registry.issues == old(registry.issues) - {id}
    {
      if registry.Has(id) {
        registry.Delete(id);
      }
    }

    method OnRecord(r: Record)
      modifies this, registry
      ensures View() == Repairs.OnRecord(old(View()), r)
    {
      if r.outcome == FetchFailed {
        var count := CountIn(fetchFailures, r.uuid) + 1;
        fetchFailures := fetchFailures[r.uuid := count];
        if count >= FAILURES_BEFORE_ISSUE {
          Raise(FetchFailedIssue(r.uuid));
        }
      } else if r.outcome == Unreachable {
        var count := CountIn(unreachables, r.uuid) + 1;
        unreachables := unreachables[r.uuid := count];
        if count >= FAILURES_BEFORE_ISSUE {
          Raise(UnreachableIssue(r.uuid));
        }
      } else if r.outcome == Ok {
        fetchFailures := fetchFailures[r.uuid := 0];
        unreachables := unreachables[r.uuid := 0];
        Clear(FetchFailedIssue(r.uuid));
        Clear(UnreachableIssue(r.uuid));
        assert registry.issues == old(registry.issues) - {FetchFailedIssue(r.uuid), UnreachableIssue(r.uuid)};
      }
    }

    method DeviceSeen(u: Uuid, now: Time)
      modifies this, registry
      ensures View() == Seen(old(View()), u, now)
    {
      hide StaleIssues, SeenAs;
      ghost var s, seen := View(), SeenAs(View(), u);
      SeenAsMeans(s, u);
      NoneLeftOut(s.stale, s.issues, seen);
      lastSeen := lastSeen[u := now];
      var left := stale.Keys;
      while left != {}
        invariant left <= s.stale.Keys && stale == s.stale - (seen - left)
        invariant registry.issues == s.issues - StaleIssues(seen - left)
        modifies this`stale, registry
        decreases |left|
      {
        var id :| id in left;
        OneLeftOut(s.stale, s.issues, seen, left, id);
        left := left - {id};
        if stale[id].uuid == Some(u) {
          Clear(StaleIssue(id));
          stale := stale - {id};
        }
      }
      assert seen - left == seen;
    }

    method CheckTopology(multihomed: Option<bool>, automatic: Option<bool>, spans: map<Uuid, Option<bool>>)
      modifies registry
      ensures View() == TopologyChecked(old(View()), multihomed, automatic, spans)
    {
      if multihomed == Some(true) && automatic == Some(true) {
        Raise(MultihomedIssue);
      } else {
        Clear(MultihomedIssue);
      }
      CheckGroups(spans);
      assert spans.Keys * Spanning(spans) == Spanning(spans);
    }

    /** The loop over the groups. */
    method CheckGroups(spans: map<Uuid, Option<bool>>)
      modifies registry
      ensures registry.issues == Decided(old(registry.issues), spans, spans.Keys)
    {
      hide Decided;
      NoneDecided(registry.issues, spans);
      var left := spans.Keys;
      ghost var done: set<Uuid> := {};
      while left != {}
        invariant left !! done && left + done == spans.Keys
        invariant registry.issues == Decided(old(registry.issues), spans, done)
        decreases |left|
      {
        var g :| g in left;
        left := left - {g};
        OneMoreDecided(old(registry.issues), spans, done, g);
        if spans[g] == Some(true) {
          Raise(GroupSpansIssue(g));
        } else {
          Clear(GroupSpansIssue(g));
        }
        done := done + {g};
      }
    }

    /** The loop over the registry's devices. */
    method FindStale(discovered: set<Uuid>, devices: seq<RegistryDevice>, now: Time)
      returns (current: map<DeviceId, Candidate>)
      modifies this
      ensures current == Candidates(old(View()), discovered, devices, now)
      ensures View() == old(View()).(trackedSince := Tracked(old(View()), discovered, devices, now))
    {
      current := map[];
      ghost var s := View();
      for i := 0 to |devices|
        invariant current == Candidates(s, discovered, devices[..i], now)
        invariant View() == s.(trackedSince := Tracked(s, discovered, devices[..i], now))
      {
        assert devices[..i + 1][..i] == devices[..i];
        TrackingReads(s, discovered, devices[..i], now, devices[i]);
        var d := devices[i];
        if d.uuid.Some? && d.uuid.value in discovered {
          continue;
        }
        var key := KeyOf(d);
        if key !in trackedSince {
          trackedSince := trackedSince[key := now];
        }
        var since := trackedSince[key];
        var seen := if d.uuid.Some? && d.uuid.value in lastSeen then Some(lastSeen[d.uuid.value]) else None;
        var reference := if seen.Some? then seen.value else since;
        if reference > now - STALE_AFTER {
          continue;
        }
        current := current[d.id := Candidate(d.id, d.uuid, seen, since)];
      }
      assert devices[..|devices|] == devices;
    }

    method CheckStale(discovered: set<Uuid>, devices: seq<RegistryDevice>, now: Time)
      modifies this, registry
      ensures View() == Checked(old(View()), discovered, devices, now)
    {
      hide StaleIssues;
      var current := FindStale(discovered, devices, now);
      ClearAll(stale.Keys - current.Keys);
      RaiseAll(current.Keys);
      stale := current;
    }

    /** The issues of the devices that are no longer stale. */
    method ClearAll(ids: set<DeviceId>)
      modifies registry
      ensures registry.issues == old(registry.issues) - StaleIssues(ids)
    {
      hide StaleIssues;
      NoStaleIssues();
      var left := ids;
      ghost var done: set<DeviceId> := {};
      while left != {}
        invariant left !! done && left + done == ids
        invariant registry.issues == old(registry.issues) - StaleIssues(done)
        decreases |left|
      {
        var id :| id in left;
        left := left - {id};
        OneMoreStaleIssue(done, id);
        Clear(StaleIssue(id));
        done := done + {id};
      }
    }

    /** The issues of the stale devices. */
    method RaiseAll(ids: set<DeviceId>)
      modifies registry
      ensures registry.issues == old(registry.issues) + StaleIssues(ids)
    {
      hide StaleIssues;
      NoStaleIssues();
      var left := ids;
      ghost var done: set<DeviceId> := {};
      while left != {}
        invariant left !! done && left + done == ids
        invariant registry.issues == old(registry.issues) + StaleIssues(done)
        decreases |left|
      {
        var id :| id in left;
        left := left - {id};
        OneMoreStaleIssue(done, id);
        Raise(StaleIssue(id));
        done := done + {id};
      }
    }
  }

  lemma SeenAsMeans(s: State, u: Uuid)
    ensures forall id :: id in SeenAs(s, u) <==> id in s.stale && s.stale[id].uuid == Some(u)
  {
  }

  lemma NoneLeftOut(stale: map<DeviceId, Candidate>, issues: set<IssueId>, seen: set<DeviceId>)
    requires seen <= stale.Keys
    ensures stale - (seen - stale.Keys) == stale && issues - StaleIssues(seen - stale.Keys) == issues
  {
    assert seen - stale.Keys == {};
  }

  lemma OneLeftOut(stale: map<DeviceId, Candidate>, issues: set<IssueId>, seen: set<DeviceId>, left: set<DeviceId>, id: DeviceId)
    requires id in left && left <= stale.Keys
    ensures var now, next := seen - left, seen - (left - {id});
      && id in stale - now && (stale - now)[id] == stale[id]
      && stale - next == (if id in seen then stale - now - {id} else stale - now)
      && issues - StaleIssues(next) == (if id in seen then issues - StaleIssues(now) - {StaleIssue(id)} else issues - StaleIssues(now))
  {
    hide StaleIssues;
    var now, next := seen - left, seen - (left - {id});
    if id in seen {
      assert next == now + {id};
      OneMoreStaleIssue(now, id);
    } else {
      assert next == now;
    }
  }

  lemma NoStaleIssues()
    ensures StaleIssues({}) == {}
  {
  }

  lemma OneMoreStaleIssue(ids: set<DeviceId>, id: DeviceId)
    ensures StaleIssues(ids + {id}) == StaleIssues(ids) + {StaleIssue(id)}
  {
  }

  /** The issues when those of the groups in `done` have been decided. */
  ghost function Decided(issues: set<IssueId>, spans: map<Uuid, Option<bool>>, done: set<Uuid>): set<IssueId> {
    issues - GroupIssues(done - Spanning(spans)) + GroupIssues(done * Spanning(spans))
  }

  lemma NoneDecided(issues: set<IssueId>, spans: map<Uuid, Option<bool>>)
    ensures Decided(issues, spans, {}) == issues
  {
  }

  lemma OneMoreDecided(issues: set<IssueId>, spans: map<Uuid, Option<bool>>, done: set<Uuid>, g: Uuid)
    requires g in spans && g !in done
    ensures Decided(issues, spans, done + {g}) ==
      if spans[g] == Some(true) then Decided(issues, spans, done) + {GroupSpansIssue(g)}
      else Decided(issues, spans, done) - {GroupSpansIssue(g)}
  {
    var a, b := Decided(issues, spans, done), Decided(issues, spans, done + {g});
    forall id ensures id in b <==> if id == GroupSpansIssue(g) then spans[g] == Some(true) else id in a {
    }
  }

  /** What a check has tracked so far agrees with what the device was tracked since. */
  lemma {:induction false} TrackingReads(s: State, discovered: set<Uuid>, devices: seq<RegistryDevice>, now: Time, d: RegistryDevice)
    ensures var t := Tracked(s, discovered, devices, now);
      if KeyOf(d) in t then t[KeyOf(d)] == TrackedSince(s, d, now) else KeyOf(d) !in s.trackedSince
  {
    if devices != [] {
      TrackingReads(s, discovered, devices[..|devices| - 1], now, d);
    }
  }

  /** The devices of the config entry, as the device registry lists them. */
  class DeviceRegistry {
    var devices: seq<RegistryDevice>

    constructor (devices: seq<RegistryDevice>)
      ensures this.devices == devices
    {
      this.devices := devices;
    }

    /** The position of a device, or that of the end. */
    method Find(id: DeviceId) returns (k: nat)
      ensures k <= |devices| && Unlisted(devices[..k], id)
      ensures k < |devices| ==> devices[k].id == id
    {
      k := 0;
      while k < |devices| && devices[k].id != id
        invariant k <= |devices| && Unlisted(devices[..k], id)
      {
        k := k + 1;
      }
    }

    method Remove(k: nat)
      requires k < |devices|
      modifies this
      ensures devices == old(devices)[..k] + old(devices)[k + 1..]
    {
      devices := devices[..k] + devices[k + 1..];
    }
  }

  lemma RemovedIsUnlisted(devices: seq<RegistryDevice>, k: nat)
    requires Distinct(devices) && k < |devices|
    ensures Distinct(devices[..k] + devices[k + 1..]) && Unlisted(devices[..k] + devices[k + 1..], devices[k].id)
  {
  }

  /** The confirm step of the fix flow. The device is gone from the registry and its issue
      is deleted, so no later check can raise it again; the manager is not told, and holds
      the device stale until its next check. */
  method ConfirmFix(manager: RepairManager, devices: DeviceRegistry, id: DeviceId)
    requires Distinct(devices.devices)
    modifies manager.registry, devices
    ensures manager.View() == Fixed(old(manager.View()), id)
    ensures Distinct(devices.devices) && Unlisted(devices.devices, id)
    ensures forall d :: d in devices.devices <==> d in old(devices.devices) && d.id != id
  {
    var k := devices.Find(id);
    if k < |devices.devices| {
      RemovedIsUnlisted(devices.devices, k);
      RemovedKeeps(devices.devices, k);
      devices.Remove(k);
    }
    manager.registry.Delete(StaleIssue(id));
  }

  lemma RemovedKeeps(devices: seq<RegistryDevice>, k: nat)
    requires Distinct(devices) && k < |devices|
    ensures forall d :: d in devices[..k] + devices[k + 1..] <==> d in devices && d.id != devices[k].id
  {
    var rest := devices[..k] + devices[k + 1..];
    forall d | d in devices && d.id != devices[k].id ensures d in rest {
      var i :| 0 <= i < |devices| && devices[i] == d;
      assert d == rest[if i < k then i else i - 1];
    }
  }
}
