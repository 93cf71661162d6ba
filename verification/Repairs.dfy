/** The state of the repair manager and of the issue registry it writes to. */
module Repairs {
  import opened Vocabulary

  type DeviceId = string

  datatype IssueId =
    | FetchFailedIssue(uuid: Uuid)
    | UnreachableIssue(uuid: Uuid)
    | GroupSpansIssue(uuid: Uuid)
    | MultihomedIssue
    | StaleIssue(device: DeviceId)

  /** What a registry device is tracked under: its uuid, or its id if it has none. */
  datatype Key = OfUuid(uuid: Uuid) | OfDevice(device: DeviceId)

  datatype Candidate = Candidate(device: DeviceId, uuid: Option<Uuid>, lastSeen: Option<Time>, trackedSince: Time)

  /** `found` remembers the issues that the registry held when the manager was created:
      a reload creates a new manager, but deletes no issue. */
  datatype State = State(
    fetchFailures: map<Uuid, nat>,
    unreachables: map<Uuid, nat>,
    lastSeen: map<Uuid, Time>,
    trackedSince: map<Key, Time>,
    stale: map<DeviceId, Candidate>,
    issues: set<IssueId>,
    found: set<IssueId>)

  /** The state of a new manager: no counters and no candidates, but whatever stamps were
      stored and whatever issues the registry holds. */
  predicate IsNew(s: State) {
    s.fetchFailures == map[] && s.unreachables == map[] && s.stale == map[] && s.found == s.issues
  }

  function CountIn(m: map<Uuid, nat>, u: Uuid): nat {
    if u in m then m[u] else 0
  }

  /** The manager's reaction to a delivery record (`async_on_record`). */
  function OnRecord(s: State, r: Record): State {
    match r.outcome
    case FetchFailed =>
      var count := CountIn(s.fetchFailures, r.uuid) + 1;
      s.(fetchFailures := s.fetchFailures[r.uuid := count],
         issues := if count >= FAILURES_BEFORE_ISSUE then s.issues + {FetchFailedIssue(r.uuid)} else s.issues)
    case Unreachable =>
      var count := CountIn(s.unreachables, r.uuid) + 1;
      s.(unreachables := s.unreachables[r.uuid := count],
         issues := if count >= FAILURES_BEFORE_ISSUE then s.issues + {UnreachableIssue(r.uuid)} else s.issues)
    case Ok =>
      s.(fetchFailures := s.fetchFailures[r.uuid := 0],
         unreachables := s.unreachables[r.uuid := 0],
         issues := s.issues - {FetchFailedIssue(r.uuid), UnreachableIssue(r.uuid)})
    case _ => s
  }

  // --------------------------------------------------------------- stale devices

  const STALE_AFTER: Time := 7 * 24 * 3600 * SECOND

  /** A device of the registry, with the uuid its identifiers parse to, if they do. */
  datatype RegistryDevice = RegistryDevice(id: DeviceId, uuid: Option<Uuid>)

  function KeyOf(d: RegistryDevice): Key {
    if d.uuid.Some? then OfUuid(d.uuid.value) else OfDevice(d.id)
  }

  predicate IsDiscovered(d: RegistryDevice, discovered: set<Uuid>) {
    d.uuid.Some? && d.uuid.value in discovered
  }

  function LastSeen(s: State, d: RegistryDevice): Option<Time> {
    if d.uuid.Some? && d.uuid.value in s.lastSeen then Some(s.lastSeen[d.uuid.value]) else None
  }

  /** When device `d` was last seen or, failing that, first tracked: at `now` if a check
      at `now` is the first to track it. */
  function Reference(s: State, d: RegistryDevice, now: Time): Time {
    if LastSeen(s, d).Some? then LastSeen(s, d).value
    else if KeyOf(d) in s.trackedSince then s.trackedSince[KeyOf(d)]
    else now
  }

  predicate IsStale(s: State, d: RegistryDevice, discovered: set<Uuid>, now: Time) {
    !IsDiscovered(d, discovered) && Reference(s, d, now) + STALE_AFTER <= now
  }

  /** The registry lists each device once. */
  ghost predicate Distinct(devices: seq<RegistryDevice>) {
    forall i, j :: 0 <= i < j < |devices| ==> devices[i].id != devices[j].id
  }

  /** The registry does not list the device. */
  predicate Unlisted(devices: seq<RegistryDevice>, id: DeviceId) {
    forall k :: 0 <= k < |devices| ==> devices[k].id != id
  }

  /** `setdefault` for every device that was not discovered. */
  function Tracked(s: State, discovered: set<Uuid>, devices: seq<RegistryDevice>, now: Time): map<Key, Time> {
    if devices == [] then s.trackedSince
    else
      var before := Tracked(s, discovered, devices[..|devices| - 1], now);
      var d := devices[|devices| - 1];
      if IsDiscovered(d, discovered) || KeyOf(d) in before then before else before[KeyOf(d) := now]
  }

  /** The candidates a check finds among `devices`. */
  function Candidates(s: State, discovered: set<Uuid>, devices: seq<RegistryDevice>, now: Time): map<DeviceId, Candidate> {
    if devices == [] then map[]
    else
      var before := Candidates(s, discovered, devices[..|devices| - 1], now);
      var d := devices[|devices| - 1];
      if IsStale(s, d, discovered, now) then
        before[d.id := Candidate(d.id, d.uuid, LastSeen(s, d), TrackedSince(s, d, now))]
      else before
  }

  function TrackedSince(s: State, d: RegistryDevice, now: Time): Time {
    if KeyOf(d) in s.trackedSince then s.trackedSince[KeyOf(d)] else now
  }

  function StaleIssues(ids: set<DeviceId>): set<IssueId> {
    set id | id in ids :: StaleIssue(id)
  }

  /** `async_check_stale`. */
  function Checked(s: State, discovered: set<Uuid>, devices: seq<RegistryDevice>, now: Time): State {
    var current := Candidates(s, discovered, devices, now);
    s.(trackedSince := Tracked(s, discovered, devices, now),
       stale := current,
       issues := s.issues - StaleIssues(s.stale.Keys - current.Keys) + StaleIssues(current.Keys))
  }

  function SeenAs(s: State, u: Uuid): set<DeviceId> {
    set id | id in s.stale && s.stale[id].uuid == Some(u)
  }

  /** `async_device_seen`. */
  function Seen(s: State, u: Uuid, now: Time): State {
    s.(lastSeen := s.lastSeen[u := now],
       stale := s.stale - SeenAs(s, u),
       issues := s.issues - StaleIssues(SeenAs(s, u)))
  }

  /** The fix flow deletes the issue it confirms; the manager is not told. */
  function Fixed(s: State, id: DeviceId): State {
    s.(issues := s.issues - {StaleIssue(id)})
  }

  // ------------------------------------------------------------- topology issues

  function GroupIssues(groups: set<Uuid>): set<IssueId> {
    set u | u in groups :: GroupSpansIssue(u)
  }

  function Spanning(spans: map<Uuid, Option<bool>>): set<Uuid> {
    set u | u in spans && spans[u] == Some(true)
  }

  /** `async_check_topology`, given each group's `members_span_subnets`. */
  function TopologyChecked(s: State, multihomed: Option<bool>, automatic: Option<bool>, spans: map<Uuid, Option<bool>>): State {
    var warned := if multihomed == Some(true) && automatic == Some(true) then s.issues + {MultihomedIssue}
                  else s.issues - {MultihomedIssue};
    s.(issues := warned - GroupIssues(spans.Keys - Spanning(spans)) + GroupIssues(Spanning(spans)))
  }
}
