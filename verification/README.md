# Delivery health, verified

A Dafny model of the delivery-health subsystem of the Cast integration, and of two
small text processors of the same repository, with proofs of what they promise.

The subsystem is a concurrent protocol on one event loop. A *ledger* keeps, per device,
at most one pending play request with an expiry timer, and turns device callbacks,
exceptions and timers into delivery records with running counters. A *probe
coordinator* launches at most one background task per device, which begins a ledger
request, waits behind a watchdog, polls the ledger and may quit the app; a circuit
breaker with exponential backoff listens to the ledger. *User requests* begin requests
on the same ledger and report their exceptions later. A *repair manager* raises and
clears issues from records, discoveries and the computed *topology* of groups and
subnets.

## How it is modelled

Every operation is a state function on values (`DeviceLedger`, `Ledger`, `Repairs`,
`Topology`), and every object that the program updates in place is a class whose
methods are proved to compute exactly that function of the old state (`LedgerObjects`,
`RepairObjects`, `TopologyObjects`). The functions carry the histories that the program
does not keep: every record ever appended and every request ever begun.

Theorems are about sequences of states:

- `DeviceHistory.IsRun` is any sequence of ledger calls on one device, at any times,
  including timers that fire although they were cancelled.
- `Protocol.IsExecution` is any interleaving of the whole protocol. Everything between
  two awaits is one event: a play begins or raises, a status arrives, a timer fires, a
  probe cycle decides about one device, a probe's executor job returns or raises, a
  sleeping probe wakes, options change, time advances, and the entry is unloaded in
  three steps. It starts from a new entry with any options, any stored stamps and any
  issues that an earlier set-up has left in the registry.
- `RepairHistory.IsRun` and `TopologyHistory.IsRun` are the same for issues, discoveries
  and refreshes.

Time is one clock in quarter seconds, the polling period of a waiting probe. It stands
for both the wall clock and the monotonic clock. Time never passes an armed timer, a
watchdog or a poll that is due (`Protocol.MayAdvanceTo`); that is the only assumption
about scheduling, and only the real-time and ownership results rest on it.

| file | content |
|---|---|
| Vocabulary | outcomes, sources, statuses, records, exceptions, constants |
| DeviceLedger, DeviceHistory, OkSoundness | one device: its calls, its invariant, evidence for `Ok` |
| Ledger, LedgerHistory | all devices: bounded log, isolation, agreement of the delivery issues |
| Protocol, ProtocolSafety, ProtocolTheorems, Projection | the interleavings and what holds in all of them |
| Verdicts | what each event of an interleaving records, when a probe is launched and how long a circuit stays open, spelled out with numbers |
| DeadDevice | how rarely a device that never answers is probed |
| Limits | expectations the program does not meet, with exact conditions and runs |
| Repairs, RepairHistory | stale-device tracking |
| Topology, TopologyHistory | subnets, groups and their issues |
| LedgerObjects, RepairObjects, TopologyObjects | the classes that update state in place |
| Playlist | the m3u scanner |
| CalVer | release versions |

## Where the documentation differs from the code

The model follows the code.

- `DESIGN.md:166` says that a cycle which finds an entity unavailable only logs; the code
  records `unreachable` (`custom_components/cast/coordinator.py:236-245`).
- `DESIGN.md:180` says that two consecutive *probe* timeouts open the circuit; the code
  counts timeouts of every source. `Limits.ProbeTimeoutOpensIff` gives the exact
  condition, `Limits.OneProbeTimeoutCanOpen` a run with one probe timeout.
- `docs/troubleshooting.md:93` says that a successful announcement closes the circuit;
  only a successful probe does (`Limits.SuccessClosesCircuitIffProbe`,
  `Limits.UserSuccessRun`).
- `DESIGN.md:186` says that the app is quit after a successful probe; the code reads the
  device's last record. So another request's success quits the app too
  (`Limits.ForeignSuccessQuitsApp`, `Limits.QuitRun`), and a probe's own success does not
  if something else is recorded after it (`Limits.NoQuitRun`); `Projection.IdleRestoration`
  says exactly when the two agree.
- `docs/troubleshooting.md:94` describes timeouts with `responded: true`; there are none
  (`Projection.RespondedAlways`).

## Model

| member | source | states |
|---|---|---|
| DeviceHistory.FifoAccounting | custom_components/cast/health.py:238-536 | in every run of calls, the requests that the begin calls have begun are exactly the records with a `requested_at`, in the same order with the same content id, source and time, followed by the pending request if there is one: none is lost, duplicated or reordered |
| DeviceHistory.CountersRefineHistory | custom_components/cast/health.py:587-603 | `consecutive_failures` is the number of counted records since the last `ok`, `consecutive_timeouts` the length of the trailing timeouts, `last_outcome`, `last_record` and `last_success` the last of their kind, all over the full history; timeouts never exceed failures |
| DeviceHistory.CircuitRefinesHistory | custom_components/cast/coordinator.py:336-358 | `circuit_open_until` is a fold over the full log: a probe's `ok` clears it, a probe's timeout that ends two or more trailing timeouts of any source sets it to now plus the capped backoff, nothing else touches it |
| DeviceHistory.TimersMatchPending | custom_components/cast/health.py:270-292 | a timer is armed exactly for the pending request, due its timeout after it was begun, and for no other |
| DeviceHistory.StepKeeps | custom_components/cast/health.py:238-639 | every call of the ledger, at any time, keeps the accounting, the counters, the circuit and the timers exact |
| DeviceHistory.ExpireKeeps | custom_components/cast/health.py:272-290 | an expiry for a request that is not the pending one changes nothing, however late it comes |
| OkSoundness.OkIsCaused | custom_components/cast/health.py:324-385 | in every run each `ok` record answers a request that was pending from its begin up to one status with the same content id, BUFFERING or PLAYING, no ERROR idle, and a session other than the one known at request time; that status appended the record |
| OkSoundness.RespondedMeansAnswered | custom_components/cast/health.py:410-454 | `responded` holds exactly for `ok` and `fetch_failed` records, given what callers pass to `async_record` |
| OkSoundness.StatusVerdict | custom_components/cast/health.py:324-385 | a status resolves the pending request if and only if it confirms it (`ok`) or reports an ERROR for its content id or for none (`fetch_failed`); an ERROR for other content is logged as observed and leaves the request pending, every other status changes nothing |
| OkSoundness.ExceptionVerdict | custom_components/cast/health.py:426-453 | an exception is a timeout if and only if the watchdog or the library timed out, unreachable if and only if the channel is missing or the request failed without an answer, and otherwise a failed fetch, which alone counts as a response |
| OkSoundness.FailureEndsOwnRequestIffPending | custom_components/cast/health.py:454-536 | a reported exception resolves the caller's own request if and only if that request is still the pending one; it always leaves nothing pending and logs one record |
| LedgerHistory.OnKeeps | custom_components/cast/health.py:176-631 | every call about any device keeps: `records` is the last min(50, n) of all records, each device's log is its share of them, each device's fields are exact, and with the manager attached the delivery issues agree with the log and with the issues found at set-up |
| LedgerHistory.Isolation | custom_components/cast/health.py:199-204 | a call about one device changes no other device's state, circuit, repair counters or delivery issues |
| LedgerHistory.IssuesWithinFailures | custom_components/cast/issues.py:127-165 | the two repair counters of a device sum to at most its `consecutive_failures` |
| LedgerHistory.RepairCountsWithinFailures | custom_components/cast/issues.py:127-165 | the same over any log: `fetch_failed` plus `unreachable` records since the last `ok` are at most the failures since then |
| ProtocolTheorems.ProbeExclusion | custom_components/cast/coordinator.py:206-230 | in every state of every interleaving, each device has at most one live probe task, and exactly while its id is in the running set |
| ProtocolTheorems.ProbeOwnership | custom_components/cast/coordinator.py:264-321 | in every state of every interleaving, a pending request of source probe belongs to a device outside the running set if and only if the very task that began it has given up waiting for it; until the shutdown no such request exists |
| ProtocolSafety.OwnershipLostIff | custom_components/cast/coordinator.py:313-321 | a step takes the owner from a pending probe request if and only if it is the owner's poll in which it gives up, which happens only after the shutdown |
| ProtocolTheorems.SkippedProbesResolveNothing | custom_components/cast/coordinator.py:232-275 | what a cycle records about a device it does not probe never resolves a pending request |
| Verdicts.ProbedIff | custom_components/cast/coordinator.py:232-275 | in every interleaving a cycle launches a probe of a device if and only if its id is not running, there is a snapshot, the options allow the kind of device, the deadline that follows from its full log has passed, and neither the device nor any of its group players is playing, buffering or paused; a launched probe is in its executor job for at most 20 s and its request, with the snapshot's session and 30 s, is the pending one; otherwise tasks, running set and pending request stay |
| Verdicts.DecisionMeans | custom_components/cast/coordinator.py:232-275 | which of the tests decides, in their order, each characterised both ways |
| Verdicts.BusyMeans | custom_components/cast/coordinator.py:72-76 | a device is busy if and only if it or one of its group players is playing, buffering or paused |
| Verdicts.CycleRecords | custom_components/cast/coordinator.py:232-275 | what a cycle adds to a device's records, field by field: one `unreachable` without a channel, one `skipped_busy` for an occupied device, the superseded request's `unknown` when a probe replaces it, and nothing otherwise |
| Verdicts.CircuitOpensFor | custom_components/cast/coordinator.py:336-358 | in every interleaving, while the breaker listens, a probe that times out as the n-th timeout in a row, n >= 2, sets the deadline to exactly now + s seconds, where s is interval * 2^(n-1) if that is at most 3600 and 3600 otherwise; a probe's `ok` clears it; and no other record moves it |
| Verdicts.LoadFailureVerdict | custom_components/cast/health.py:387-407 | in every interleaving a load failure answers the pending request, if there is one, with one `fetch_failed` record with `responded`, and leaves none pending; otherwise the device is unchanged |
| Verdicts.StatusRecords | custom_components/cast/health.py:303-385 | the record that a media status adds in every interleaving, field by field: for a confirmed or failed request, and for an error that is observed with nothing pending or for other media |
| Verdicts.PlayErrorVerdict | custom_components/cast/media_player.py:740-756 | the record that a raised play adds in every interleaving: the error and its cause, the connection and the launch failure decide the outcome, and `responded` holds exactly for `fetch_failed` |
| Verdicts.ProbeErrorVerdict | custom_components/cast/coordinator.py:298-311 | the same for a probe whose play request raises, which is judged as not connected and without launch failure |
| Verdicts.TimerVerdict | custom_components/cast/health.py:272-290 | a timer that fires for the pending request answers it with one `timeout` record without `responded`; any other timer leaves the device as it is |
| Verdicts.PlayVerdict | custom_components/cast/media_player.py:722-734 | a play is the pending request for 30 s behind a watchdog of 45 s, and the request before it is recorded as `unknown` |
| Verdicts.TemplateVerdict | custom_components/cast/media_player.py:492-501 | a template error answers a pending announcement and is otherwise noted without content, with the pending request untouched |
| Verdicts.TaskVerdict | custom_components/cast/coordinator.py:302-333 | what each step makes of a probe task, with its times: it sleeps 0.25 s while a probe request is pending, gives up 35 s after its job returned, quits an idle app within 20 s after a last record `ok`, and else is gone |
| Verdicts.OptionsVerdict | custom_components/cast/coordinator.py:111-119 | new options are taken over, but an interval below 60 s counts as 60 s |
| ProtocolTheorems.NoLaunchBeforeDeadline | custom_components/cast/coordinator.py:254-257 | in every interleaving no probe is launched strictly before the deadline that the device's full log determines |
| ProtocolTheorems.ProbeTaskBound | custom_components/cast/coordinator.py:277-333 | until the shutdown a probe task is gone 30 + 0.25 + 20 s after its begin, and before it quits the app 30 + 0.25 s; after the shutdown, which cancels the timer, it is gone 20 + 35 + 0.25 + 20 s after its begin |
| ProtocolTheorems.GiveUpUnreachable | custom_components/cast/coordinator.py:316-319 | the branch that gives up waiting after 35 s is never taken before the shutdown; after it, it is taken (`Limits.ShutdownOrphansProbe`) |
| ProtocolTheorems.SpacedCyclesFindNoneRunning | custom_components/cast/coordinator.py:232-234 | cycles at least the 60 s floor apart never find the previous probe of a device still running |
| ProtocolTheorems.TaskOrigin | custom_components/cast/coordinator.py:219-229 | every live task was launched by a decision to probe its device, at the time it remembers |
| ProtocolTheorems.PendingTimeBound | custom_components/cast/health.py:270-292 | no request whose timer has not been cancelled by the shutdown is pending longer than its 30 s timeout, and until the shutdown every pending request has its timer |
| ProtocolTheorems.LateTimerChangesNothing | custom_components/cast/health.py:273-276 | a timer that fires for a resolved request changes no device, no record and no issue |
| ProtocolTheorems.ShutdownDisarms | custom_components/cast/health.py:633-639 | in every state after the shutdown, a timer is armed exactly for a pending request that was begun after it |
| Limits.LatePlayRun | custom_components/cast/media_player.py:968-1086 | an interleaving in which a play that was under way when the entry was unloaded begins its request, and arms its timer, after the shutdown |
| ProtocolTheorems.UserNeverBlocked | custom_components/cast/media_player.py:722-733 | a user's request becomes the pending one whatever the circuit or the probes are doing |
| ProtocolTheorems.LedgerAlways | custom_components/cast/health.py:176-639 | the ledger's invariant holds in every state of every interleaving |
| ProtocolTheorems.IssuesFollowHistory | custom_components/cast/issues.py:127-167 | in every interleaving, whatever issues it starts with, the fetch-failed issue of a device exists if and only if at least two such records follow its last `ok`, or it was found at set-up and no `ok` has followed; likewise for unreachable |
| ProtocolSafety.NeverGivesUp | custom_components/cast/coordinator.py:313-321 | a waiting task's request expires before its own deadline, by the bounds every state satisfies |
| ProtocolSafety.Always | custom_components/cast/coordinator.py:184-358 | every state of every interleaving satisfies the protocol's invariant |
| Projection.EveryOkHasEvidence | custom_components/cast/health.py:304-385 | in every interleaving each `ok` record goes back to a play or a launched probe that began its request and to a status event that confirmed it while it was pending |
| Projection.RespondedAlways | custom_components/cast/health.py:410-454 | in every interleaving `responded` holds exactly for `ok` and `fetch_failed` records |
| Projection.DeadDeviceBackoff | custom_components/cast/coordinator.py:254-257 | for every fixed interval of at least 60 s, if every counted record of a device is a probe timeout, a probe launched after n >= 2 of them comes at least min(interval * 2^(n-1), 3600) s after the last |
| Projection.DeadDeviceLaunches | custom_components/cast/coordinator.py:336-358 | for every fixed interval of at least 60 s, such a device is probed by time T at most 7 + T/3600 times, not counting probes that were superseded |
| Projection.IdleRestoration | custom_components/cast/coordinator.py:302-321 | a probe that stops waiting quits the app exactly if the device's last record is `ok` and the app was idle at launch; for an idle app this is what its own record says if and only if both records are successes or neither is, and always if nothing else was recorded since the launch |
| Projection.RaisedProbeQuitsNothing | custom_components/cast/coordinator.py:298-306 | a probe whose play request raised ends at once, leaves the running set and quits nothing |
| DeadDevice.LaunchAfterBackoff | custom_components/cast/coordinator.py:254-257 | the backoff bound for any run of calls that respects the circuit |
| DeadDevice.BackoffSaturates | custom_components/cast/coordinator.py:354-357 | from the seventh timeout on, with an interval of at least 60 s, the backoff is exactly 3600 s |
| DeadDevice.LaunchCountBound | custom_components/cast/coordinator.py:336-358 | the launch bound for any run of calls that respects the circuit |
| Limits.SupersededProbesAreUnbounded | custom_components/cast/health.py:248-264 | the exception for superseded probes is needed: for every n there is an interleaving of n minutes, timers firing when due, with n probes of a device none of whose records counts |
| Limits.ForeignSuccessQuitsApp | custom_components/cast/coordinator.py:302-321 | in any interleaving, if a user's request supersedes the probe of an idle device, a request of the device succeeds later, and nothing more is recorded until the probe's next poll, then the probe quits the app although its own record is `unknown`, whatever happens in between |
| Limits.QuitRun | custom_components/cast/coordinator.py:302-321 | an interleaving of four events in which that happens |
| Limits.NoQuitRun | custom_components/cast/coordinator.py:302-321 | an interleaving of four events in which the probe of an idle device succeeds and yet nothing is quit |
| Limits.ProbeTimeoutOpensIff | custom_components/cast/coordinator.py:350-358 | an expired probe opens the circuit if and only if the last counted record was a timeout, of whatever source |
| Limits.OneProbeTimeoutCanOpen | custom_components/cast/coordinator.py:350-358 | an interleaving with one timeout of a user's request and one of a probe, after which the circuit is open |
| Limits.SuccessClosesCircuitIffProbe | custom_components/cast/coordinator.py:338-349 | a confirmed request clears both counters, and an open circuit if and only if it was a probe's |
| Limits.UserSuccessRun | custom_components/cast/coordinator.py:338-349 | an interleaving in which a user's request has succeeded and the circuit is still open |
| Limits.TemplateFailureAnswersAnnouncement | custom_components/cast/media_player.py:492-501 | a failed template resolves the pending request, as that request's template error, if and only if that request is an announcement |
| Limits.AnnouncementRun | custom_components/cast/media_player.py:492-501 | an interleaving in which an announcement that was sent is recorded as a template error |
| Limits.ShutdownOrphansProbe | custom_components/cast/health.py:633-639 | an interleaving in which the shutdown cancels the timer of a waiting probe, the probe gives up after 35 s, and its request stays pending while its device is no longer in the running set |
| RepairHistory.LeftOversAreUntouched | custom_components/cast/issues.py:66-79 | in every run, whatever issues it starts with, the stale issues beyond the devices that the manager holds stale are exactly those found at the start whose device has never been held stale and for which no fix flow was confirmed |
| RepairHistory.LeftOverStep | custom_components/cast/issues.py:116-279 | one event ends such a left-over issue if and only if a check finds its device stale or a fix flow is confirmed for it |
| RepairHistory.StaleIssuesAreTracked | custom_components/cast/issues.py:116-279 | in every run, fix flows included, a stale issue belongs to a device the manager holds stale, or is such a left-over |
| RepairHistory.EveryCheckIsExact | custom_components/cast/issues.py:224-279 | after each check the devices held stale are exactly the registry devices that are not discovered and whose last sighting, or first tracking, is seven days old; the stale issues are theirs and the left-overs |
| RepairHistory.HeldStaleIff | custom_components/cast/issues.py:116-279 | in every run, told from the events and the stored stamps alone: after a check at t a listed device is held stale if and only if it is not discovered and its latest sighting, or without one its stored stamp, is at least 7 * 24 * 3600 s before t, or, having neither, it was first tracked that long before t |
| RepairHistory.SeenDeviceHasNoIssue | custom_components/cast/issues.py:116-124 | when a device is seen, exactly the stale issues of other devices and the left-overs remain |
| RepairHistory.FixIsFinal | custom_components/cast/repairs.py:33-42 | once a fix flow has been confirmed, the issue does not come back as long as the registry does not list the device again |
| RepairHistory.StalenessPersists | custom_components/cast/issues.py:224-279 | a stale device still in the registry is found stale by every later check until it is seen or discovered, whatever happens in between |
| TopologyHistory.CheckDecides | custom_components/cast/issues.py:192-221 | a check decides the span issue of every current group and of no other id, and the multihomed issue by both its conditions |
| TopologyHistory.GroupIssuesNeverLeak | custom_components/cast/issues.py:192-221 | while no group becomes a plain device, after every refresh and check the span issue of a group exists exactly if it spans subnets, that of any other id exactly if it was found at the start, and the multihomed issue exactly if two adapters are in use and the internal URL is automatic |
| TopologyHistory.SpanIssueMeans | custom_components/cast/issues.py:192-221 | in every run, after every cycle a current group has its span issue if and only if two of the addresses discovered for its leader and its members are given different subnets |
| TopologyHistory.LatestDiscovery | custom_components/cast/topology.py:80-83 | in every run what is known of a device is its latest discovery |
| TopologyHistory.MultihomedMeans | custom_components/cast/topology.py:122-131 | the host is multihomed if and only if two of its adapters are enabled and have an IPv4 address; unknown if and only if no adapter is known |
| TopologyHistory.DiscoveredIsNeverStale | custom_components/cast/coordinator.py:187-191 | since discoveries are never forgotten, a device is never held stale again from the first check after its discovery on |
| TopologyHistory.NoLeakIff | custom_components/cast/issues.py:206-221 | a check leaves exactly the issues of spanning groups if and only if no issue is held for an id that is no group any more |
| TopologyHistory.DemotedGroupLeaks | custom_components/cast/issues.py:206-221 | an id with a span issue that is rediscovered as a plain device keeps its issue through any number of cycles |
| TopologyHistory.DemotionRun | custom_components/cast/issues.py:206-221 | a run of two discoveries, a cycle, a demotion and a cycle in which that happens |
| Topology.MembershipInversion | custom_components/cast/topology.py:161-193 | a device is in a group's sorted member list if and only if it is a discovered non-group device whose memberships contain that group |
| Topology.LeaderIsADevice | custom_components/cast/topology.py:175-191 | the leader's id is set if and only if some non-group device has the leader's host, and then that device has it |
| Topology.LastDeviceLeads | custom_components/cast/topology.py:175-179 | of the devices that share a host, the one discovered last is the leader |
| Topology.GroupFields | custom_components/cast/topology.py:181-217 | leader host, port and dynamic flag are those of the group's discovery; exactly the members have a host listed, their own; and the leader is the last discovered device on the leader's host |
| Topology.PlacesMean | custom_components/cast/topology.py:194-201 | which places of a group are placed in which network |
| Topology.SpanMeans | custom_components/cast/topology.py:202-203 | the span is true exactly if two places lie in different networks, unknown exactly if nothing is placed, false otherwise |
| Topology.SubnetContainsAddress | custom_components/cast/topology.py:152-159 | the network chosen for an address contains it by prefix arithmetic (section 3.1 of RFC 4632), and is an adapter's unless no adapter's contains it |
| Topology.SubnetIsFirst | custom_components/cast/topology.py:156-159 | of several adapter networks that contain the host the first is chosen |
| Topology.SizeMeans | custom_components/cast/topology.py:156-159 | a prefix and the addresses under it make up the 32-bit address space |
| Topology.InNetworkIsRange | custom_components/cast/topology.py:156-158 | masking an address decides whether it lies in the network's range |
| Topology.AdapterNetworksCanonical | custom_components/cast/topology.py:116-121 | every adapter network has its host bits cleared |
| Topology.HomeNetworksContainHost | custom_components/cast/topology.py:134-145 | home networks exist exactly for an IPv4 internal host, and all contain it |
| Topology.HomeNetworksMean | custom_components/cast/topology.py:143-145 | the home networks are the adapter networks that contain the internal host, and only if there are none the /24 around it |
| Topology.AdapterNetworksMean | custom_components/cast/topology.py:110-121 | a network is listed if and only if an enabled adapter has an address in it |
| Topology.AdapterNetworksInOrder | custom_components/cast/topology.py:110-121 | the adapters' networks follow one another as the adapters do |
| Topology.HostMatchesItself | custom_components/cast/topology.py:220-229 | the internal host is never a subnet mismatch |
| Topology.MismatchMeans | custom_components/cast/topology.py:224-229 | a device is a mismatch if and only if no home network contains its address; unknown if and only if it has no IPv4 address or there is no home network |
| Topology.SortSorts | custom_components/cast/topology.py:192 | sorting arranges the same ids in ascending order |
| Playlist.ParseM3u | custom_components/cast/helpers.py:308-340 | over the raw lines, whatever they say: the scan meets the declarative reading, in which item k is the k-th item line with the last well-formed EXTINF line since the previous item, or else the first stopping line is an HLS tag or a bad item |
| Playlist.ReadSays | custom_components/cast/helpers.py:313-335 | the reading of a line is what the line says: `#EXTINF:` a `,` t, with no comma in a and no second marker, annotates with a split at its first space and t stripped; without a comma it annotates nothing; exactly the two HLS tags stop the scan as supported; other `#` lines and blank lines say nothing; every other line is an item or an error as the URL verdict says |
| Playlist.SaysIsUnique | custom_components/cast/helpers.py:313-335 | a line says one thing only |
| Playlist.MeetsIsUnique | custom_components/cast/helpers.py:308-340 | that reading determines the result |
| Playlist.ItemLinesMean | custom_components/cast/helpers.py:331-335 | the item lines are listed in order, each once, none missing |
| Playlist.ExtinfServesOneItem | custom_components/cast/helpers.py:335-338 | no EXTINF line annotates two items (section 4.3.2.1 of RFC 8216) |
| Playlist.StripMeans | custom_components/cast/helpers.py:316 | stripping removes all white space at the two ends and nothing else |
| Playlist.BeforeMeans | custom_components/cast/helpers.py:319 | the first piece of a split, at the EXTINF marker or at any other separator, is exactly what precedes its first occurrence |
| Playlist.SplitOnceMeans | custom_components/cast/helpers.py:319-323 | splitting once at a character gives two pieces if and only if the character occurs, and loses nothing but its first occurrence |
| CalVer.NextCalver | scripts/set_version.py:43-53 | the next version has the date and one more than the largest sequence among the existing releases of that date, and prefixed it is no existing tag |
| CalVer.PrintParses | scripts/set_version.py:35-53 | for years 1000 to 9999 a printed version parses to the date and sequence it was printed from |
| CalVer.ParseMeans | scripts/set_version.py:35-40 | a text parses to a date and a sequence if and only if it is four, two and two digits between dots, of a valid date, followed by nothing (sequence 0) or by a dot and a numeral of that value without leading zero |
| CalVer.NextIsNewest | scripts/set_version.py:43-53 | the next version parses to a sequence above every existing one of its date |
| CalVer.NextIsFresh | scripts/set_version.py:43-53 | prefix and next version together are never among the existing tags |
| LedgerObjects.DeliveryLedger.Device | custom_components/cast/health.py:199-204 | the health found or created for an id, and a ledger that differs at most by it |
| LedgerObjects.DeliveryLedger.BeginRequest | custom_components/cast/health.py:238-301 | the object implements the call on which the run results rest: a pending request is superseded, the new one is pending behind its timer |
| LedgerObjects.DeliveryLedger.Expire | custom_components/cast/health.py:272-290 | the object test of the timer's closure is the test whether that request is still the pending one |
| LedgerObjects.DeliveryLedger.MediaStatus | custom_components/cast/health.py:304-385 | the object implements the status call in all its branches |
| LedgerObjects.DeliveryLedger.LoadMediaFailed | custom_components/cast/health.py:388-407 | the object implements the load failure, whose record is that of `Verdicts.LoadFailureVerdict` |
| LedgerObjects.DeliveryLedger.RequestFailed | custom_components/cast/health.py:410-454 | the object implements the classification of an exception and the resolution |
| LedgerObjects.DeliveryLedger.RecordOutcome | custom_components/cast/health.py:457-484 | the object resolves a pending request of the same source, else appends a plain record |
| LedgerObjects.DeliveryLedger.Resolve | custom_components/cast/health.py:501-536 | the pending request is taken, its timer cancelled, and its own content id, source and time are recorded |
| LedgerObjects.DeliveryLedger.Append | custom_components/cast/health.py:556-631 | the record is logged and counted before every listener hears it, and only its device changes |
| LedgerObjects.DeliveryLedger.NotifyListeners | custom_components/cast/health.py:629-630 | the manager and the breaker hear a record as often and in the order in which they are attached |
| LedgerObjects.DeliveryLedger.RemoveListener | custom_components/cast/health.py:189-196 | the first equal listener goes, the others stay in order |
| LedgerObjects.DeliveryLedger.Shutdown | custom_components/cast/health.py:633-639 | every device's timer is cancelled, and nothing else changes |
| LedgerObjects.CastProbeCoordinator.OnRecord | custom_components/cast/coordinator.py:335-358 | the circuit after a record: from the second timeout in a row on, a probe's timeout opens it for the doubled interval or an hour, a probe's `ok` closes it, any other record leaves it |
| LedgerObjects.CastProbeCoordinator.Decide | custom_components/cast/coordinator.py:232-275 | the object takes the decision that `Verdicts.DecisionMeans` spells out, and writes the one record of `Verdicts.CycleRecords` |
| LedgerObjects.CastProbeCoordinator.UpdateData | custom_components/cast/coordinator.py:192-230 | a cycle is one decision event of the protocol for each target, in order, each taken in the state the one before has left |
| LedgerObjects.CastProbeCoordinator.ProbeReturned | custom_components/cast/coordinator.py:302-321 | the probe task's step when its executor job returns is the protocol's |
| LedgerObjects.CastProbeCoordinator.ProbeWoke | custom_components/cast/coordinator.py:302-321 | the probe task's step when it wakes is the protocol's |
| LedgerObjects.CastProbeCoordinator.ProbeRaised | custom_components/cast/coordinator.py:298-311 | the probe task's step when its executor job raises is the protocol's |
| LedgerObjects.CastProbeCoordinator.QuitEnded | custom_components/cast/coordinator.py:303-333 | the probe task's last step is the protocol's |
| LedgerObjects.CastProbeCoordinator.ApplyOptions | custom_components/cast/coordinator.py:111-153 | the stored options with the interval's floor of 60 s |
| LedgerObjects.CastMediaPlayer.PlayBegins | custom_components/cast/media_player.py:722-734 | a play begins a request with its own or the lent source, as the protocol's event does |
| LedgerObjects.CastMediaPlayer.WatchdogExpired | custom_components/cast/media_player.py:740-741 | an expired watchdog is reported as the protocol's event |
| LedgerObjects.CastMediaPlayer.PlayRaised | custom_components/cast/media_player.py:750-756 | a raised error is reported with the connection state and the launch failure |
| LedgerObjects.CastMediaPlayer.TemplateFailed | custom_components/cast/media_player.py:492-501 | a failed template is reported as the protocol's event |
| LedgerObjects.SetUpEntry | custom_components/cast/__init__.py:80-93 | whatever options and stamps are stored and whatever issues the registry holds, a new entry's objects are in a state in which interleavings start, with the manager listening before the breaker |
| LedgerObjects.StopProbes | custom_components/cast/__init__.py:101-103 | the first step of the unload detaches the coordinator, as the protocol's event does |
| LedgerObjects.StopRepairs | custom_components/cast/__init__.py:104-106 | the second step detaches the repair manager, as the protocol's event does |
| LedgerObjects.Shutdown | custom_components/cast/__init__.py:107-108 | the last step cancels every timer, as the protocol's event does |
| RepairObjects.RepairManager.OnRecord | custom_components/cast/issues.py:127-167 | the counters and issues after a record |
| RepairObjects.RepairManager.DeviceSeen | custom_components/cast/issues.py:116-124 | the stamp is set, and exactly the stale entries of that uuid and their issues go |
| RepairObjects.RepairManager.CheckTopology | custom_components/cast/issues.py:192-221 | the loop over the groups leaves the issues the check is specified to leave |
| RepairObjects.RepairManager.CheckStale | custom_components/cast/issues.py:224-279 | the loops over the registry, the old and the new candidates leave the state of the check on which `RepairHistory.HeldStaleIff` rests |
| RepairObjects.ConfirmFix | custom_components/cast/repairs.py:33-42 | the device, and only it, leaves the registry, so that no later check can raise its issue; the issue is gone, while the manager still holds the device stale |
| TopologyObjects.TopologyTracker.RecordDiscovery | custom_components/cast/topology.py:80-83 | the latest record is kept, in the order of first discovery, and none is ever dropped |
| TopologyObjects.TopologyTracker.LoadNetworks | custom_components/cast/topology.py:110-150 | the adapter networks, the home networks and the multihomed flag |
| TopologyObjects.TopologyTracker.SubnetFor | custom_components/cast/topology.py:152-159 | the first adapter network that contains the host, or the assumed one |
| TopologyObjects.TopologyTracker.MembersByGroup | custom_components/cast/topology.py:162-173 | the inverted memberships list each group's members in discovery order |
| TopologyObjects.TopologyTracker.HostsToUuid | custom_components/cast/topology.py:175-179 | a host maps to the last discovered device that has it |
| TopologyObjects.TopologyTracker.ComputeGroups | custom_components/cast/topology.py:161-218 | the loops compute the specified group of every discovered group id and nothing else |
| TopologyObjects.TopologyTracker.ApplySubnetMismatch | custom_components/cast/topology.py:220-243 | the health of every discovered device says whether it is outside the home networks, the mark of no other device is touched, and the ledger differs at most by new devices |
| TopologyObjects.TouchedAllKeeps | custom_components/cast/topology.py:230 | asking the ledger for the health of devices, as that loop does, changes the delivery state of none and nothing else of the ledger |
| TopologyObjects.RefreshAndCheck | custom_components/cast/coordinator.py:187-191 | the first part of a cycle is one refresh-and-check and one stale check of the issue runs, over the ids discovered so far |
| TopologyObjects.TopologyTracker.Refresh | custom_components/cast/topology.py:102-106 | a refresh leaves networks, groups and the devices' marks that fit each other |

## Left out

- Clocks: the wall clock and the monotonic clock are one clock of quarter seconds, so rounding of `elapsed`, clock adjustments and finer timing are not modelled.
- Scheduling: timers, watchdogs and polls run when they are due; an overloaded event loop that runs them late is not modelled. The accounting, evidence, counter and circuit results do not rest on this.
- A cycle that is suspended in its topology refresh while the entry is unloaded: each cycle decides at once, and none after the coordinator has been detached.
- Protocol: the first part of a cycle, the refresh and its checks, is a separate method (`TopologyObjects.RefreshAndCheck`) and separate events of the issue runs; the two kinds of runs are not merged into one.
- LedgerObjects.CastProbeCoordinator.UpdateData: takes the registered targets with their snapshots and URLs as an argument; registering a target, building the URL and its overrides, and the result kept for diagnostics are not modelled.
- LedgerObjects.CastMediaPlayer.PlayBegins: the executor job, the exception that is raised again and the shape of the app data are not modelled.
- Exceptions: only the classes that the classification tells apart, taken as disjoint, and the class of the cause. Probe calls raise what the coordinator catches; anything else raised by a user's play is not reported to the ledger and counts as a return.
- Content ids are opaque, and the URL's source (`_url_source` and `urls.py`) is not modelled.
- Device ids are numbers, since their fixed-width text sorts alike; group ids in memberships are well-formed ids.
- Names, entity ids, hosts, error texts and translation placeholders in records, health and issues.
- The event bus, the dispatcher, logging, sensors, diagnostics, the config flow and services.
- Restoring `last_success` from a sensor's stored state.
- Template-error issues, which are keyed by a digest of the template.
- Storing and loading the repair manager's stamps, beyond the fact that a run may start from any; keys that are uuids and keys that are registry ids are kept apart.
- TopologyObjects.TopologyTracker.LoadNetworks: enumerating adapters and parsing the internal URL are arguments; a failed enumeration is an empty list.
- Addresses are numbers and subnets are values; their text forms are not modelled.
- Playlist.ParseM3u: fetching, decoding and splitting into lines are done before it, and the URL parser's verdict is an argument; an address on which that parser raises is not modelled.
- The pls parser, whose work is done by a configuration parser.
- CalVer.PrintParses: stated for years from 1000, since the year is printed without padding below; the limit of the integer parser on very long digit strings is not modelled.
- Locking during discovery, the rest of the media player, the multizone manager, and the scripts that call git, rewrite files and build archives.
