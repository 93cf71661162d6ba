/** The delivery ledger and the probe coordinator as objects that update their state in
    place. Every method is proved against the state function of the call or event it
    implements, so the results about runs and executions are about these objects. */
module LedgerObjects {
  import opened Vocabulary
  import DL = DeviceLedger
  import opened DeviceLedger
  import L = Ledger
  import opened Ledger
  import opened Protocol
  import Repairs
  import opened RepairObjects

  /** A play request waiting for the device. Identity is what the expiry timer tests. */
  class PendingRequest {
    const request: Request
    ghost const owner: Uuid
    ghost const ordinal: nat
    var cancelTimeout: bool

    constructor (request: Request, ghost owner: Uuid, ghost ordinal: nat)
      ensures this.request == request && this.owner == owner && this.ordinal == ordinal && !cancelTimeout
    {
      this.request := request;
      this.owner := owner;
      this.ordinal := ordinal;
      cancelTimeout := false;
    }
  }

  ghost function RequestsOf(requests: seq<PendingRequest>): (qs: seq<Request>)
    ensures |qs| == |requests|
  {
    seq(|requests|, k requires 0 <= k < |requests| => requests[k].request)
  }

  class DeviceHealth {
    const uuid: Uuid
    var lastOutcome: Outcome
    var lastRecord: Option<Record>
    var lastSuccess: Option<Time>
    var failures: nat
    var timeouts: nat
    var circuit: Option<Time>
    var pending: PendingRequest?
    /** Set by the topology; no part of the delivery state. */
    var subnetMismatch: Option<bool>
    /** The event loop's timers for this device, by request. */
    ghost var armed: map<nat, Time>
    ghost var log: seq<Entry>
    /** Every request object ever begun, in order. */
    ghost var requests: seq<PendingRequest>

    constructor (uuid: Uuid)
      ensures this.uuid == uuid && requests == [] && Valid() && View() == Fresh(uuid)
    {
      this.uuid := uuid;
      lastOutcome, lastRecord, lastSuccess := Unknown, None, None;
      failures, timeouts, circuit, pending, subnetMismatch := 0, 0, None, null, None;
      armed, log, requests := map[], [], [];
    }

    ghost predicate Valid()
      reads this
    {
      && (forall k :: 0 <= k < |requests| ==> requests[k].ordinal == k && requests[k].owner == uuid)
      && (pending != null ==> pending.ordinal < |requests| && requests[pending.ordinal] == pending)
    }

    ghost function Begun(): (qs: seq<Request>)
      reads this
      ensures |qs| == |requests|
    {
      RequestsOf(requests)
    }

    ghost function PendingView(): Option<Pending>
      reads this, pending
    {
      if pending == null then None else Some(Pending(pending.request, pending.ordinal, pending.cancelTimeout))
    }

    ghost function View(): (v: Health)
      reads this, pending
      ensures v.uuid == uuid && v.begun == Begun() && v.armed == armed && v.pending == PendingView()
    {
      Health(uuid, lastOutcome, lastRecord, lastSuccess, failures, timeouts, circuit, PendingView(), armed, log, Begun())
    }

    /** The counters of `_append`. */
    method Count(r: Record, ghost interval: Option<nat>)
      modifies this
      ensures View() == DL.Count(old(View()), r, interval)
      ensures requests == old(requests) && pending == old(pending)
    {
      lastRecord := Some(r);
      if r.outcome != Unknown && r.outcome != SkippedBusy {
        lastOutcome := r.outcome;
      }
      if r.outcome == Ok {
        lastSuccess := Some(r.resolvedAt);
        failures := 0;
        timeouts := 0;
      } else if IsFailure(r.outcome) {
        failures := failures + 1;
        if r.outcome == Timeout {
          timeouts := timeouts + 1;
        } else {
          timeouts := 0;
        }
      }
      log := log + [Entry(r, interval)];
    }

    /** Take the pending request out of the device and cancel its timer. */
    method Detach() returns (taken: PendingRequest?)
      requires Valid()
      modifies this, pending
      ensures Valid() && View() == DL.Detach(old(View()))
      ensures taken == old(pending) && requests == old(requests)
    {
      taken := pending;
      pending := null;
      if taken != null {
        if taken.cancelTimeout {
          armed := armed - {taken.ordinal};
          taken.cancelTimeout := false;
        }
      }
    }

    /** What `async_shutdown` does to one device. */
    method CancelTimer()
      requires Valid()
      modifies this, pending
      ensures Valid() && View() == Cancelled(old(View()))
      ensures pending == old(pending) && requests == old(requests)
    {
      if pending != null && pending.cancelTimeout {
        armed := armed - {pending.ordinal};
        pending.cancelTimeout := false;
      }
    }

    /** Begin a request when none is pending: the request first, then its timer. */
    method Attach(request: Request) returns (begun: PendingRequest)
      requires Valid() && pending == null
      modifies this
      ensures Valid() && fresh(begun) && pending == begun && begun.request == request
      ensures requests == old(requests) + [begun]
      ensures View() == old(View()).(
        pending := Some(Pending(request, |old(requests)|, true)),
        armed := old(armed)[|old(requests)| := request.requestedAt + request.timeout],
        begun := old(Begun()) + [request])
    {
      begun := new PendingRequest(request, uuid, |requests|);
      pending := begun;
      requests := requests + [begun];
      armed := armed[begun.ordinal := request.requestedAt + request.timeout];
      begun.cancelTimeout := true;
      assert Begun() == old(Begun()) + [request];
    }
  }

  datatype ListenerObject =
    | ToRepairs(manager: RepairManager)
    | ToBreaker(coordinator: CastProbeCoordinator)

  /** A registered target: what it would answer now, and the probe URL made for it. */
  datatype Target = Target(uuid: Uuid, snapshot: Option<Snapshot>, content: Content)

  class CastProbeCoordinator {
    const ledger: DeliveryLedger
    var options: ProbeOptions
    var running: set<Uuid>
    /** The background tasks the event loop holds, by the order of their launch. */
    ghost var tasks: map<nat, Task>
    ghost var spawned: nat

    ghost predicate Valid()
      reads this, ledger, ledger.Repr
    {
      && ledger.Valid() && ledger.coordinator == this && this !in ledger.Repr
      && (forall i :: i in tasks ==> tasks[i].uuid in ledger.View().devices)
    }

    /** The coordinator and its ledger are as in `w`. */
    ghost predicate Is(w: World)
      requires ledger.Valid()
      reads this, ledger, ledger.Repr
    {
      w.ledger == ledger.View() && w.options == options && w.running == running && w.tasks == tasks && w.spawned == spawned
    }

    /** Created for a ledger, the coordinator attaches itself as a listener. */
    constructor (ledger: DeliveryLedger, stored: ProbeOptions)
      requires ledger.Valid() && ledger.coordinator == null
      modifies ledger
      ensures this.ledger == ledger && options == WithFloor(stored) && running == {} && tasks == map[] && spawned == 0
      ensures Valid() && ledger.Repr == old(ledger.Repr) && ledger.listeners == old(ledger.listeners) + [ToBreaker(this)]
      ensures ledger.View() == old(ledger.View()).(listeners := old(ledger.View()).listeners + [BreakerListener])
    {
      this.ledger := ledger;
      options := WithFloor(stored);
      running, tasks, spawned := {}, map[], 0;
      new;
      ledger.AddBreaker(this);
    }

    /** `async_apply_options`. */
    method ApplyOptions(stored: ProbeOptions, ghost w: World)
      requires Valid() && Is(w) && Enabled(w, OptionsChange(stored))
      modifies this`options
      ensures Valid() && Is(Next(w, OptionsChange(stored)))
    {
      options := WithFloor(stored);
    }

    /** `_async_on_record`. */
    method OnRecord(health: DeviceHealth, r: Record)
      modifies health`circuit
      ensures health.View() == OnBreaker(old(health.View()), r, options.interval)
      ensures var n, seconds := health.timeouts, options.interval * if health.timeouts >= 1 then Pow2(health.timeouts - 1) else 1;
        health.circuit ==
          if r.source != Probe then old(health.circuit)
          else if r.outcome == Ok then None
          else if r.outcome == Timeout && n >= 2 then Some(r.resolvedAt + 4 * (if seconds <= 3600 then seconds else 3600))
          else old(health.circuit)
    {
      if r.source != Probe {
        return;
      }
      if r.outcome == Ok {
        health.circuit := None;
        return;
      }
      if r.outcome == Timeout && health.timeouts >= CIRCUIT_BREAKER_TIMEOUTS {
        var exponent := health.timeouts - CIRCUIT_BREAKER_TIMEOUTS + 1;
        var backoff := Min(options.interval * Pow2(exponent), CIRCUIT_BREAKER_MAX_BACKOFF);
        health.circuit := Some(r.resolvedAt + backoff * SECOND);
      }
    }

    // ------------------------------------------------------------- the cycle

    /** `_decide`. */
    method Decide(h: DeviceHealth, snapshot: Option<Snapshot>, now: Time) returns (d: Decision)
      requires Valid() && ledger.Holds(h)
      modifies ledger.Repr
      ensures Valid() && fresh(ledger.Repr - old(ledger.Repr)) && old(ledger.Repr) <= ledger.Repr
      ensures d == DecisionFor(h.uuid in running, snapshot, options, old(h.circuit), now)
      ensures ledger.View() ==
        if d == Launch then old(ledger.View())
        else On(old(ledger.View()), h.uuid, DecisionCall(d, snapshot, ""), now, options.interval)
    {
      hide DeliveryLedger.Valid, DeliveryLedger.View, On, Stored;
      LookTouches(ledger.View(), h.uuid, now, options.interval);
      ledger.Unstored(h);
      OnGrows(ledger.View(), h.uuid, DL.Call.RecordOutcome(Unreachable, Probe, None, false), now, options.interval);
      OnGrows(ledger.View(), h.uuid, DL.Call.RecordOutcome(SkippedBusy, Probe, None, false), now, options.interval);
      if h.uuid in running {
        return StillRunning;
      }
      if snapshot.None? {
        d := NotConnected;
        ledger.RecordOutcome(h.uuid, Unreachable, Probe, None, false, now);
        return;
      }
      var s := snapshot.value;
      if s.isAudioGroup && !options.groups {
        return GroupsOff;
      }
      if !s.isAudioGroup && s.castType != Some(Audio) && s.castType != None && !options.video {
        return VideoOff;
      }
      if h.circuit.Some? {
        var remaining := h.circuit.value - now;
        if remaining > 0 {
          return CircuitOpen;
        }
      }
      if Busy(s) {
        d := IsBusy;
        ledger.RecordOutcome(h.uuid, SkippedBusy, Probe, None, false, now);
        return;
      }
      d := Launch;
    }

    /** The device's health and the decision about it. */
    method Consider(t: Target, now: Time) returns (d: Decision)
      requires Valid()
      modifies ledger.Repr
      ensures Valid() && fresh(ledger.Repr - old(ledger.Repr)) && old(ledger.Repr) <= ledger.Repr
      ensures d == DecisionFor(t.uuid in running, t.snapshot, options, L.Device(old(ledger.View()), t.uuid).circuit, now)
      ensures ledger.View() ==
        On(old(ledger.View()), t.uuid, if d == Launch then Look else DecisionCall(d, t.snapshot, ""), now, options.interval)
    {
      hide DeliveryLedger.Valid, DeliveryLedger.View, On, Apply, DecisionFor, DecisionCall, L.Touched, L.Device;
      ghost var before := ledger.View();
      ledger.DeviceUuid(t.uuid);
      OnGrows(before, t.uuid, Look, now, options.interval);
      var h := ledger.Device(t.uuid);
      LookTouches(before, t.uuid, now, options.interval);
      d := Decide(h, t.snapshot, now);
      TouchFirst(before, t.uuid, if d == Launch then Look else DecisionCall(d, t.snapshot, ""), now, options.interval);
    }

    /** A launched probe runs up to its first await. */
    method Spawn(t: Target, s: Snapshot, now: Time, ghost w: World)
      requires Valid() && Is(w) && w.now == now
      modifies this`running, this`tasks, this`spawned, ledger.Repr
      ensures Valid() && fresh(ledger.Repr - old(ledger.Repr)) && old(ledger.Repr) <= ledger.Repr
      ensures var after := On(w.ledger, t.uuid, Begin(t.content, Probe, s.session, DELIVERY_TIMEOUT), now, w.options.interval);
        Is(Launched(w, t.uuid, s, after).(ledger := after))
    {
      hide DeliveryLedger.Valid, DeliveryLedger.View, On, L.Device;
      running := running + {t.uuid};
      ledger.DeviceUuid(t.uuid);
      OnGrows(ledger.View(), t.uuid, Begin(t.content, Probe, s.session, DELIVERY_TIMEOUT), now, options.interval);
      var _ := ledger.BeginRequest(t.uuid, t.content, Probe, s.session, DELIVERY_TIMEOUT, now);
      ghost var begun := L.Device(ledger.View(), t.uuid);
      tasks := tasks[spawned := Task(t.uuid, s, if begun.pending.Some? then begun.pending.value.ordinal else 0,
                                     |begun.log|, now, InExecutor(now + PROBE_WATCHDOG))];
      spawned := spawned + 1;
    }

    /** One target of a cycle. */
    method Visit(t: Target, now: Time, ghost w: World) returns (d: Decision)
      requires Valid() && Is(w) && w.now == now && Enabled(w, Event.Decide(t.uuid, t.snapshot, t.content))
      modifies this`running, this`tasks, this`spawned, ledger.Repr
      ensures Valid() && fresh(ledger.Repr - old(ledger.Repr)) && old(ledger.Repr) <= ledger.Repr
      ensures d == DecisionOf(w, t.uuid, t.snapshot)
      ensures Is(Next(w, Event.Decide(t.uuid, t.snapshot, t.content)))
    {
      hide DeliveryLedger.Valid, DeliveryLedger.View, On, L.Device, Launched, DecisionFor, Next, Enabled;
      ledger.DeviceUuid(t.uuid);
      d := Consider(t, now);
      NextDecide(w, t);
      if d != Launch {
        return;
      }
      Spawn(t, t.snapshot.value, now, w.(ledger := ledger.View()));
    }

    /** A cycle is one interleaving-free run of `Decide` events, one for each target. */
    ghost predicate IsCycle(w: World, targets: seq<Target>, n: nat, ws: seq<World>)
    {
      && n <= |targets| && |ws| == n + 1 && ws[0] == w
      && forall k :: 0 <= k < n ==> Visits(ws[k], targets[k], ws[k + 1])
    }

    static ghost predicate Visits(w: World, t: Target, w': World) {
      var e := Event.Decide(t.uuid, t.snapshot, t.content);
      Enabled(w, e) && w' == Next(w, e)
    }

    /** `_async_update_data`, from the test of the options on. */
    method UpdateData(targets: seq<Target>, now: Time, ghost w: World) returns (results: seq<Decision>, ghost ws: seq<World>)
      requires Valid() && Is(w) && w.now == now && w.ledger.listeners == SetUp
      modifies this`running, this`tasks, this`spawned, ledger.Repr
      ensures Valid() && fresh(ledger.Repr - old(ledger.Repr)) && old(ledger.Repr) <= ledger.Repr
      ensures |results| == if options.enabled then |targets| else 0
      ensures IsCycle(w, targets, |results|, ws) && Is(ws[|results|])
      ensures forall k :: 0 <= k < |results| ==> results[k] == DecisionOf(ws[k], targets[k].uuid, targets[k].snapshot)
    {
      hide DeliveryLedger.Valid, LedgerAfter, DecisionOf, Launched;
      results, ws := [], [w];
      if !options.enabled {
        return;
      }
      for i := 0 to |targets|
        invariant Valid() && fresh(ledger.Repr - old(ledger.Repr)) && old(ledger.Repr) <= ledger.Repr
        invariant |results| == i && IsCycle(w, targets, i, ws) && Is(ws[i])
        invariant ws[i].now == now && ws[i].ledger.listeners == SetUp && ws[i].options.enabled
        invariant forall k :: 0 <= k < i ==> results[k] == DecisionOf(ws[k], targets[k].uuid, targets[k].snapshot)
      {
        var t := targets[i];
        DecideKeepsClock(ws[i], t);
        var d := Visit(t, now, ws[i]);
        results, ws := results + [d], ws + [Next(ws[i], Event.Decide(t.uuid, t.snapshot, t.content))];
      }
    }

    // ------------------------------------------------------------- the tasks

    /** The `finally` block of `_async_probe`. */
    method Finish(u: Uuid, ghost w: World, ghost i: nat)
      requires Valid() && Is(w) && i in w.tasks && w.tasks[i].uuid == u
      modifies this`running, this`tasks
      ensures Valid() && Is(Finished(w, i))
    {
      hide DeliveryLedger.Valid, DeliveryLedger.View;
      running := running - {u};
      tasks := tasks - {i};
    }

    /** The guard of the loop of `_async_wait_for_outcome`, and what it returns after it. */
    method Waits(u: Uuid) returns (waiting: bool, last: Option<Outcome>)
      requires Valid() && u in ledger.View().devices
      modifies ledger
      ensures Valid() && ledger.View() == old(ledger.View()) && ledger.Repr == old(ledger.Repr)
      ensures var h := L.Device(ledger.View(), u);
        waiting == PendingFrom(h, Probe) &&
        last == if h.lastRecord.Some? then Some(h.lastRecord.value.outcome) else None
    {
      hide DeliveryLedger.Valid;
      var h := ledger.Device(u);
      TouchedKnown(old(ledger.View()), u);
      waiting := h.pending != null && h.pending.request.source == Probe;
      last := if h.lastRecord.Some? then Some(h.lastRecord.value.outcome) else None;
    }

    /** One turn of that loop, and what the probe does after it. */
    method Poll(u: Uuid, snapshot: Snapshot, giveUpAt: Time, now: Time, ghost w: World, ghost i: nat)
      requires Valid() && Is(w) && w.now == now
      requires i in w.tasks && w.tasks[i].uuid == u && w.tasks[i].snapshot == snapshot
      modifies this`running, this`tasks, ledger
      ensures Valid() && ledger.Repr == old(ledger.Repr) && Is(Polled(w, i, giveUpAt))
    {
      hide DeliveryLedger.Valid, DeliveryLedger.View, L.Device, PendingFrom, Polled, Finished;
      var waiting, outcome := Waits(u);
      PolledCases(w, i, giveUpAt);
      if waiting {
        if now <= giveUpAt {
          tasks := tasks[i := tasks[i].(at := Sleeping(now + POLL_PERIOD, giveUpAt))];
          return;
        }
        outcome := None;
      }
      if outcome == Some(Ok) && snapshot.appIdle {
        tasks := tasks[i := tasks[i].(at := Quitting(now + PROBE_WATCHDOG))];
      } else {
        Finish(u, w, i);
      }
    }

    /** The executor job of a probe has returned. */
    method ProbeReturned(u: Uuid, snapshot: Snapshot, now: Time, ghost w: World, ghost i: nat)
      requires Valid() && Is(w) && w.now == now && Enabled(w, ProbeReturns(i))
      requires w.tasks[i].uuid == u && w.tasks[i].snapshot == snapshot
      modifies this`running, this`tasks, ledger
      ensures Valid() && ledger.Repr == old(ledger.Repr) && Is(Next(w, ProbeReturns(i)))
    {
      hide DeliveryLedger.Valid, DeliveryLedger.View, Polled, Next, Enabled;
      NextPoll(w, ProbeReturns(i), i);
      var deadline := now + DELIVERY_TIMEOUT + GIVE_UP_MARGIN;
      Poll(u, snapshot, deadline, now, w, i);
    }

    /** A sleeping probe has woken up. */
    method ProbeWoke(u: Uuid, snapshot: Snapshot, deadline: Time, now: Time, ghost w: World, ghost i: nat)
      requires Valid() && Is(w) && w.now == now && Enabled(w, ProbeWakes(i))
      requires w.tasks[i].uuid == u && w.tasks[i].snapshot == snapshot && w.tasks[i].at.giveUpAt == deadline
      modifies this`running, this`tasks, ledger
      ensures Valid() && ledger.Repr == old(ledger.Repr) && Is(Next(w, ProbeWakes(i)))
    {
      hide DeliveryLedger.Valid, DeliveryLedger.View, Polled, Next, Enabled;
      NextPoll(w, ProbeWakes(i), i);
      Poll(u, snapshot, deadline, now, w, i);
    }

    /** The executor job of a probe has raised, or its watchdog has. */
    method ProbeRaised(u: Uuid, err: Exception, now: Time, ghost w: World, ghost i: nat)
      requires Valid() && Is(w) && w.now == now && Enabled(w, ProbeRaises(i, err)) && w.tasks[i].uuid == u
      modifies this`running, this`tasks, ledger.Repr
      ensures Valid() && fresh(ledger.Repr - old(ledger.Repr)) && old(ledger.Repr) <= ledger.Repr
      ensures Is(Next(w, ProbeRaises(i, err)))
    {
      hide DeliveryLedger.Valid, DeliveryLedger.View, On, Next, Enabled, Finished, L.Device;
      NextRaises(w, i, err);
      ledger.DeviceUuid(u);
      OnGrows(ledger.View(), u, DL.Call.RequestFailed(err, false, false), now, options.interval);
      ledger.RequestFailed(u, err, false, false, now);
      Finish(u, w.(ledger := ledger.View()), i);
    }

    /** The app has been quit, or has failed to. */
    method QuitEnded(u: Uuid, ghost w: World, ghost i: nat)
      requires Valid() && Is(w) && Enabled(w, QuitEnds(i)) && w.tasks[i].uuid == u
      modifies this`running, this`tasks
      ensures Valid() && Is(Next(w, QuitEnds(i)))
    {
      Finish(u, w, i);
    }
  }

  lemma PolledCases(w: World, i: nat, giveUpAt: Time)
    requires i in w.tasks
    ensures var task := w.tasks[i];
      var h := L.Device(w.ledger, task.uuid);
      Polled(w, i, giveUpAt) ==
        if PendingFrom(h, Probe) && w.now <= giveUpAt then
          w.(tasks := w.tasks[i := task.(at := Sleeping(w.now + POLL_PERIOD, giveUpAt))])
        else if !PendingFrom(h, Probe) && h.lastRecord.Some? && h.lastRecord.value.outcome == Ok && task.snapshot.appIdle then
          w.(tasks := w.tasks[i := task.(at := Quitting(w.now + PROBE_WATCHDOG))])
        else Finished(w, i)
  {
    hide L.Device;
  }

  lemma NextPoll(w: World, e: Event, i: nat)
    requires Enabled(w, e) && (e == ProbeReturns(i) || e == ProbeWakes(i))
    ensures i in w.tasks
    ensures e == ProbeReturns(i) ==> Next(w, e) == Polled(w, i, w.now + DELIVERY_TIMEOUT + GIVE_UP_MARGIN)
    ensures e == ProbeWakes(i) ==> w.tasks[i].at.Sleeping? && Next(w, e) == Polled(w, i, w.tasks[i].at.giveUpAt)
  {
    hide L.Device;
  }

  lemma NextRaises(w: World, i: nat, err: Exception)
    requires Enabled(w, ProbeRaises(i, err))
    ensures i in w.tasks && w.tasks[i].at.InExecutor?
    ensures Next(w, ProbeRaises(i, err)) ==
      Finished(w.(ledger := On(w.ledger, w.tasks[i].uuid, DL.Call.RequestFailed(err, false, false), w.now, w.options.interval)), i)
  {
    hide On;
  }

  lemma NextDecide(w: World, t: Target)
    requires Enabled(w, Event.Decide(t.uuid, t.snapshot, t.content)) && L.Device(w.ledger, t.uuid).uuid == t.uuid
    ensures var e, d := Event.Decide(t.uuid, t.snapshot, t.content), DecisionOf(w, t.uuid, t.snapshot);
      && (d == Launch ==> t.snapshot.Some?)
      && Next(w, e) ==
        if d == Launch then
          var looked := w.(ledger := On(w.ledger, t.uuid, Look, w.now, w.options.interval));
          var begin := Begin(t.content, Probe, t.snapshot.value.session, DELIVERY_TIMEOUT);
          var after := On(looked.ledger, t.uuid, begin, w.now, w.options.interval);
          Launched(looked, t.uuid, t.snapshot.value, after).(ledger := after)
        else w.(ledger := On(w.ledger, t.uuid, DecisionCall(d, t.snapshot, ""), w.now, w.options.interval))
  {
    hide L.Device, On, Busy;
    var d := DecisionOf(w, t.uuid, t.snapshot);
    LookTouches(w.ledger, t.uuid, w.now, w.options.interval);
    TouchFirst(w.ledger, t.uuid, DecisionCall(d, t.snapshot, t.content), w.now, w.options.interval);
  }

  lemma DecideKeepsClock(w: World, t: Target)
    requires w.ledger.listeners == SetUp && w.options.enabled
    ensures Enabled(w, Event.Decide(t.uuid, t.snapshot, t.content))
    ensures var w' := Next(w, Event.Decide(t.uuid, t.snapshot, t.content));
      w'.now == w.now && w'.ledger.listeners == SetUp && w'.options == w.options
  {
    hide Apply, DecisionOf, Notify, Push;
  }

  function Kind(o: ListenerObject): Listener {
    match o
    case ToRepairs(_) => RepairListener
    case ToBreaker(_) => BreakerListener
  }

  function Kinds(os: seq<ListenerObject>): (ks: seq<Listener>)
    ensures |ks| == |os|
  {
    seq(|os|, i requires 0 <= i < |os| => Kind(os[i]))
  }

  /** Hearing one more listener. */
  lemma {:induction false} NotifyNext(s: Repairs.State, ks: seq<Listener>, k: Listener, r: Record)
    ensures Notify(s, ks + [k], r) ==
      if k == RepairListener then Repairs.OnRecord(Notify(s, ks, r), r) else Notify(s, ks, r)
    decreases |ks|
  {
    if ks == [] {
      assert (ks + [k])[1..] == [];
    } else {
      assert (ks + [k])[1..] == ks[1..] + [k];
      NotifyNext(if ks[0] == RepairListener then Repairs.OnRecord(s, r) else s, ks[1..], k, r);
    }
  }

  lemma NotifyNobody(s: Repairs.State, r: Record)
    ensures Notify(s, [], r) == s
  {
  }

  lemma BreakerTwice(h: Health, r: Record, interval: nat)
    ensures OnBreaker(OnBreaker(h, r, interval), r, interval) == OnBreaker(h, r, interval)
  {
  }

  class DeliveryLedger {
    var records: seq<Record>
    var devices: map<Uuid, DeviceHealth>
    var listeners: seq<ListenerObject>
    /** The entry's repair manager and coordinator, the only objects that listen. */
    ghost const manager: RepairManager
    ghost var coordinator: CastProbeCoordinator?
    ghost var history: seq<Record>
    ghost var Repr: set<object>

    ghost predicate Listens(o: ListenerObject)
      reads this
    {
      if o.ToRepairs? then o.manager == manager else o.coordinator == coordinator
    }

    ghost predicate Valid()
      reads this, Repr
      ensures Valid() ==> this in Repr
    {
      && this in Repr && manager in Repr && manager.registry in Repr
      && (coordinator != null ==> coordinator !in Repr)
      && (forall u :: u in devices ==> devices[u] in Repr && devices[u].uuid == u && devices[u].Valid())
      && (forall u, k :: u in devices && 0 <= k < |devices[u].requests| ==> devices[u].requests[k] in Repr)
      && (forall i :: 0 <= i < |listeners| ==> Listens(listeners[i]))
    }

    ghost predicate Holds(h: DeviceHealth)
      reads this
    {
      h.uuid in devices && devices[h.uuid] == h
    }

    ghost function View(): Ledger
      requires Valid()
      reads this, Repr
    {
      Ledger(DeviceViews(), history, records, Kinds(listeners), manager.View())
    }

    ghost function DeviceViews(): map<Uuid, Health>
      requires Valid()
      reads this, Repr
    {
      map u | u in devices :: devices[u].View()
    }

    twostate predicate Kept(h: DeviceHealth)
      reads h, h.pending
    {
      unchanged(h) && (h.pending != null ==> unchanged(h.pending))
    }

    /** When only device `u` has changed, only its view has. */
    twostate lemma OnlyDevice(u: Uuid)
      requires old(Valid()) && Valid() && u in devices
      requires devices.Keys == old(devices.Keys) + {u}
      requires forall v :: v in old(devices) && v != u ==> devices[v] == old(devices[v]) && Kept(devices[v])
      ensures DeviceViews() == old(DeviceViews())[u := devices[u].View()]
    {
    }

    /** When no device has changed, no view has. */
    twostate lemma NoDevice()
      requires old(Valid()) && Valid() && devices == old(devices)
      requires forall v :: v in old(devices) ==> Kept(devices[v])
      ensures DeviceViews() == old(DeviceViews())
    {
    }

    /** The interval logged with a record: the breaker's, if it is listening. */
    ghost function Interval(): Option<nat>
      reads this, coordinator
    {
      if coordinator != null && BreakerListener in Kinds(listeners) then Some(coordinator.options.interval) else None
    }

    /** What every call leaves alone. */
    twostate predicate SameSetUp()
      reads this
    {
      listeners == old(listeners) && coordinator == old(coordinator)
    }

    constructor (ghost manager: RepairManager)
      ensures Valid() && fresh(Repr - {manager, manager.registry})
      ensures this.manager == manager && coordinator == null && listeners == []
      ensures View() == Ledger(map[], [], [], [], manager.View())
    {
      records, devices, listeners, history := [], map[], [], [];
      this.manager := manager;
      coordinator := null;
      Repr := {this, manager, manager.registry};
    }

    /** Attach the repair manager. */
    method AddRepairs(m: RepairManager)
      requires Valid() && m == manager
      modifies this
      ensures Valid() && Repr == old(Repr) && coordinator == old(coordinator)
      ensures listeners == old(listeners) + [ToRepairs(m)]
      ensures View() == old(View()).(listeners := old(View()).listeners + [RepairListener])
    {
      listeners := listeners + [ToRepairs(m)];
      assert Valid();
      hide Valid;
      NoDevice();
      assert Kinds(listeners) == old(Kinds(listeners)) + [RepairListener];
    }

    /** Attach the coordinator. */
    method AddBreaker(c: CastProbeCoordinator)
      requires Valid() && coordinator == null && c !in Repr
      modifies this
      ensures Valid() && Repr == old(Repr) && coordinator == c && listeners == old(listeners) + [ToBreaker(c)]
      ensures View() == old(View()).(listeners := old(View()).listeners + [BreakerListener])
    {
      listeners := listeners + [ToBreaker(c)];
      coordinator := c;
      assert forall i :: 0 <= i < |listeners| - 1 ==> listeners[i] == old(listeners)[i] && !listeners[i].ToBreaker?;
      assert Valid();
      hide Valid;
      NoDevice();
      assert Kinds(listeners) == old(Kinds(listeners)) + [BreakerListener];
    }

    /** `device()`: the health of a device, created on first use. */
    method Device(u: Uuid) returns (h: DeviceHealth)
      requires Valid()
      modifies this
      ensures Valid() && Holds(h) && h.uuid == u && SameSetUp()
      ensures fresh(Repr - old(Repr)) && old(Repr) <= Repr
      ensures View() == L.Touched(old(View()), u) && Interval() == old(Interval())
      ensures h.View() == L.Device(old(View()), u) && L.Device(old(View()), u).uuid == u
      ensures u in old(View()).devices ==> Repr == old(Repr)
      ensures devices == old(devices)[u := h] && (u in old(devices) ==> h == old(devices)[u])
    {
      if u in devices {
        h := devices[u];
        assert View() == L.Touched(View(), u);
      } else {
        h := Create(u);
      }
    }

    method Create(u: Uuid) returns (h: DeviceHealth)
      requires Valid() && u !in devices
      modifies this
      ensures Valid() && Holds(h) && h.uuid == u && SameSetUp()
      ensures fresh(Repr - old(Repr)) && old(Repr) <= Repr
      ensures View() == L.Touched(old(View()), u) && Interval() == old(Interval())
      ensures h.View() == Fresh(u) && devices == old(devices)[u := h]
    {
      h := new DeviceHealth(u);
      devices := devices[u := h];
      Repr := Repr + {h};
      assert Valid();
      hide Valid;
      OnlyDevice(u);
    }

    ghost function Mismatches(): map<Uuid, Option<bool>>
      requires Valid()
      reads this, Repr
    {
      map u | u in devices :: devices[u].subnetMismatch
    }

    /** What the topology finds out about a device goes to its health. */
    method SetMismatch(u: Uuid, mismatch: Option<bool>)
      requires Valid()
      modifies Repr
      ensures Valid() && SameSetUp() && fresh(Repr - old(Repr)) && old(Repr) <= Repr
      ensures View() == L.Touched(old(View()), u) && Mismatches() == old(Mismatches())[u := mismatch]
    {
      hide Valid, View;
      var h := Device(u);
      Footprint(h);
      assert Mismatches()[u := mismatch] == old(Mismatches())[u := mismatch];
      hide Mismatches;
      Mark(h, mismatch);
    }

    method Mark(h: DeviceHealth, mismatch: Option<bool>)
      requires Valid() && Holds(h)
      modifies h`subnetMismatch
      ensures Valid() && View() == old(View()) && Mismatches() == old(Mismatches())[h.uuid := mismatch]
    {
      if h.subnetMismatch == mismatch {
        return;
      }
      hide Kinds;
      h.subnetMismatch := mismatch;
      assert Valid() && h.View() == old(h.View());
      hide Valid, Mismatches, DeviceViews, DeviceHealth.View;
      OnlyDevice(h.uuid);
      OnlyMismatch(h.uuid);
      SameDevice(h.uuid);
    }

    twostate lemma OnlyMismatch(u: Uuid)
      requires old(Valid()) && Valid() && u in devices && devices == old(devices)
      requires forall v :: v in devices && v != u ==> devices[v].subnetMismatch == old(devices[v].subnetMismatch)
      ensures Mismatches() == old(Mismatches())[u := devices[u].subnetMismatch]
    {
    }

    twostate lemma SameDevice(u: Uuid)
      requires old(Valid()) && Valid() && u in devices && devices == old(devices) && devices[u].View() == old(devices[u].View())
      requires DeviceViews() == old(DeviceViews())[u := devices[u].View()]
      ensures DeviceViews() == old(DeviceViews())
    {
    }

    /** The loop over a copy of the listeners. */
    method NotifyListeners(h: DeviceHealth, r: Record)
      requires Valid() && Holds(h)
      modifies h`circuit, manager, manager.registry
      ensures Valid()
      ensures manager.View() == Notify(old(manager.View()), Kinds(listeners), r)
      ensures h.View() == match Interval() case None => old(h.View()) case Some(i) => OnBreaker(old(h.View()), r, i)
    {
      var heard := listeners;
      hide Notify;
      assert Notify(manager.View(), [], r) == manager.View() by {
        NotifyNobody(manager.View(), r);
      }
      for i := 0 to |heard|
        invariant Valid() && h.pending == old(h.pending) && h.requests == old(h.requests)
        invariant manager.View() == Notify(old(manager.View()), Kinds(heard)[..i], r)
        invariant h.View() ==
          if coordinator != null && BreakerListener in Kinds(heard)[..i] then OnBreaker(old(h.View()), r, coordinator.options.interval)
          else old(h.View())
      {
        assert Kinds(heard)[..i + 1] == Kinds(heard)[..i] + [Kind(heard[i])];
        NotifyNext(old(manager.View()), Kinds(heard)[..i], Kind(heard[i]), r);
        assert Listens(listeners[i]);
        if coordinator != null {
          BreakerTwice(old(h.View()), r, coordinator.options.interval);
        }
        Tell(heard[i], h, r);
      }
      assert Kinds(heard)[..|heard|] == Kinds(heard);
    }

    /** One listener hears a record. */
    method Tell(o: ListenerObject, h: DeviceHealth, r: Record)
      requires Valid() && Holds(h) && Listens(o) && (o.ToBreaker? ==> coordinator != null)
      modifies h`circuit, manager, manager.registry
      ensures Valid()
      ensures manager.View() == if o.ToRepairs? then Repairs.OnRecord(old(manager.View()), r) else old(manager.View())
      ensures h.View() == if o.ToBreaker? then OnBreaker(old(h.View()), r, coordinator.options.interval) else old(h.View())
    {
      match o
      case ToRepairs(m) => m.OnRecord(r);
      case ToBreaker(c) => c.OnRecord(h, r);
    }

    /** `_append`: log the record, count it, and tell the listeners. */
    method Append(h: DeviceHealth, r: Record)
      requires Valid() && Holds(h) && r.uuid == h.uuid
      modifies this, h, manager, manager.registry
      ensures Valid() && SameSetUp() && devices == old(devices) && Repr == old(Repr)
      ensures h.requests == old(h.requests) && h.pending == old(h.pending)
      ensures View() == Commit(old(View()), Effect(DL.Append(old(h.View()), r, old(Interval())), Some(r)))
    {
      hide Valid, DeviceHealth.View, DL.Count, OnBreaker, Push, Notify, Interval;
      Log(h, r);
      NotifyListeners(h, r);
      assert h.View() == DL.Append(old(h.View()), r, old(Interval()));
      OnlyDevice(h.uuid);
    }

    method Log(h: DeviceHealth, r: Record)
      requires Valid() && Holds(h)
      modifies this`records, this`history, h
      ensures Valid() && h.requests == old(h.requests) && h.pending == old(h.pending)
      ensures records == Push(old(records), r) && history == old(history) + [r]
      ensures Interval() == old(Interval()) && h.View() == DL.Count(old(h.View()), r, Interval())
    {
      records := Push(records, r);
      history := history + [r];
      h.Count(r, Interval());
    }

    /** The first half of `_resolve`: the device gives up its pending request. */
    method DetachPending(h: DeviceHealth) returns (taken: PendingRequest?)
      requires Valid() && Holds(h)
      modifies h, h.pending
      ensures Valid() && h.requests == old(h.requests) && h.pending == null && taken == old(h.pending)
      ensures h.View() == DL.Detach(old(h.View()))
      ensures View() == Stored(old(View()), h.View())
    {
      taken := h.Detach();
      assert Valid();
      hide Valid;
      OnlyDevice(h.uuid);
    }

    /** `_resolve`. */
    method Resolve(h: DeviceHealth, outcome: Outcome, responded: bool, observed: Option<Status>,
                   unsolicited: Option<Content>, now: Time) returns (r: Record)
      requires Valid() && Holds(h)
      modifies this, h, h.pending, manager, manager.registry
      ensures Valid() && SameSetUp() && devices == old(devices) && Repr == old(Repr)
      ensures h.requests == old(h.requests) && h.pending == null
      ensures View() == Commit(old(View()), DL.Resolve(old(h.View()), outcome, responded, observed, unsolicited, now, old(Interval())))
    {
      hide Valid, View, DeviceHealth.View, DL.Append, Commit, DL.Detach, Stored;
      var player := if observed.Some? then observed.value.player else None;
      var idle := if observed.Some? then observed.value.idle else None;
      var session := if observed.Some? then observed.value.session else None;
      var taken := DetachPending(h);
      if taken != null {
        r := Record(h.uuid, taken.request.source, outcome, Some(taken.request.content), responded,
                    Some(taken.request.requestedAt), now, Some(now - taken.request.requestedAt), player, idle, session);
      } else {
        r := Record(h.uuid, Observed, outcome, unsolicited, responded, None, now, None, player, idle, session);
      }
      assert r == ResolutionRecord(old(h.View()), outcome, responded, observed, unsolicited, now);
      ghost var detached := h.View();
      Append(h, r);
      CommitOver(old(View()), detached, Effect(DL.Append(detached, r, old(Interval())), Some(r)));
    }

    /** The interval of the attached coordinator, if there is one. */
    ghost function Base(): nat
      reads this, coordinator
    {
      if coordinator == null then 0 else coordinator.options.interval
    }

    lemma IntervalIsBase()
      requires Valid()
      ensures Interval() == BreakerInterval(View(), Base())
    {
      if BreakerListener in Kinds(listeners) {
        var i :| 0 <= i < |listeners| && Kinds(listeners)[i] == BreakerListener;
        assert Listens(listeners[i]) && listeners[i].ToBreaker?;
      }
    }

    /** What a call about a device may write. */
    lemma Footprint(h: DeviceHealth)
      requires Valid() && Holds(h)
      ensures {this, h, manager, manager.registry} <= Repr && (h.pending != null ==> h.pending in Repr)
    {
      if h.pending != null {
        assert h.requests[h.pending.ordinal] == h.pending;
      }
    }

    /** Give a device that has no pending request one, with its timer. */
    method AttachTo(h: DeviceHealth, request: Request) returns (p: PendingRequest)
      requires Valid() && Holds(h) && h.pending == null
      modifies this`Repr, h
      ensures Valid() && SameSetUp() && Holds(h) && fresh(Repr - old(Repr)) && old(Repr) <= Repr
      ensures fresh(p) && h.pending == p && p.request == request
      ensures h.View() == old(h.View()).(
        pending := Some(Pending(request, |old(h.requests)|, true)),
        armed := old(h.armed)[|old(h.requests)| := request.requestedAt + request.timeout],
        begun := old(h.Begun()) + [request])
      ensures View() == Stored(old(View()), h.View())
    {
      p := h.Attach(request);
      Repr := Repr + {p};
      assert Valid();
      hide Valid;
      OnlyDevice(h.uuid);
    }

    /** The part of `async_begin_request` that makes room for the new request. */
    method Supersede(h: DeviceHealth, now: Time)
      requires Valid() && Holds(h)
      modifies this, h, h.pending, manager, manager.registry
      ensures Valid() && SameSetUp() && Holds(h) && Repr == old(Repr) && h.pending == null
      ensures View() == Commit(old(View()), Superseded(old(h.View()), now, old(Interval())))
    {
      hide Valid, Commit, DL.Resolve;
      if h.pending != null {
        var _ := Resolve(h, Unknown, false, None, None, now);
      } else {
        StoredIsCommitted(View(), h.View());
        assert View() == Stored(View(), h.View()) by { Unstored(h); }
      }
    }

    /** A device's view is the one stored. */
    lemma Unstored(h: DeviceHealth)
      requires Valid() && Holds(h)
      ensures View() == Stored(View(), h.View()) && L.Device(View(), h.uuid) == h.View()
    {
    }

    /** `async_begin_request`, once the device's state is at hand. */
    method BeginOn(h: DeviceHealth, content: Content, source: Source, session: Option<int>, timeout: Time, now: Time)
      returns (p: PendingRequest)
      requires Valid() && Holds(h)
      modifies this, h, h.pending, manager, manager.registry
      ensures Valid() && SameSetUp() && fresh(Repr - old(Repr)) && old(Repr) <= Repr
      ensures fresh(p) && h.pending == p
      ensures View() == Commit(old(View()), Apply(old(h.View()), Begin(content, source, session, timeout), now, old(Interval())))
    {
      hide Valid, View, DeviceHealth.View, Commit, Superseded, Stored, Interval, Apply;
      ghost var before, health, prior := View(), h.View(), Superseded(h.View(), now, Interval());
      Supersede(h, now);
      Unstored(h);
      StoredHealth(before, prior);
      p := AttachTo(h, Request(content, source, now, session, timeout));
      StoreOver(before, prior, h.View());
      BeginShape(health, content, source, session, timeout, now, old(Interval()));
    }

    /** `async_begin_request`. */
    method BeginRequest(u: Uuid, content: Content, source: Source, session: Option<int>, timeout: Time, now: Time)
      returns (p: PendingRequest)
      requires Valid()
      modifies Repr
      ensures Valid() && SameSetUp() && fresh(Repr - old(Repr)) && old(Repr) <= Repr
      ensures View() == On(old(View()), u, Begin(content, source, session, timeout), now, old(Base()))
    {
      hide Valid, On, Commit, Stored, Apply, Interval, Base;
      ghost var before, base := View(), Base();
      IntervalIsBase();
      var h := Device(u);
      Footprint(h);
      OnTouched(before, u, Begin(content, source, session, timeout), now, base);
      p := BeginOn(h, content, source, session, timeout, now);
    }

    /** `async_media_status`, once the device's state is at hand. */
    method StatusOn(h: DeviceHealth, status: Status, now: Time)
      requires Valid() && Holds(h)
      modifies this, h, h.pending, manager, manager.registry
      ensures Valid() && SameSetUp() && Repr == old(Repr)
      ensures View() == Commit(old(View()), Apply(old(h.View()), DL.Call.MediaStatus(status), now, old(Interval())))
    {
      hide Valid, View, DeviceHealth.View, Commit, Stored, DL.Append, DL.Resolve, Interval, OnMediaStatus;
      MediaStatusCases(h.View(), status, now, Interval());
      Unstored(h);
      StoredIsCommitted(View(), h.View());
      if status.playerIsIdle && status.idle == Some(IdleError) {
        if h.pending != null && status.content != None && status.content != Some(h.pending.request.content) {
          Append(h, Record(h.uuid, Observed, FetchFailed, status.content, true, None, now, None,
                           status.player, status.idle, status.session));
          return;
        }
        var _ := Resolve(h, FetchFailed, true, Some(status), if h.pending == null then status.content else None, now);
        return;
      }
      if h.pending == null {
        return;
      }
      if status.content != Some(h.pending.request.content) {
        return;
      }
      if status.player != Some(Buffering) && status.player != Some(Playing) {
        return;
      }
      if h.pending.request.session.Some? && status.session == h.pending.request.session {
        return;
      }
      var _ := Resolve(h, Ok, true, Some(status), None, now);
    }

    /** `async_media_status`. */
    method MediaStatus(u: Uuid, status: Status, now: Time)
      requires Valid()
      modifies Repr
      ensures Valid() && SameSetUp() && fresh(Repr - old(Repr)) && old(Repr) <= Repr
      ensures View() == On(old(View()), u, DL.Call.MediaStatus(status), now, old(Base()))
    {
      hide Valid, On, Commit, Stored, Apply, Interval, Base;
      ghost var before, base := View(), Base();
      IntervalIsBase();
      var h := Device(u);
      Footprint(h);
      OnTouched(before, u, DL.Call.MediaStatus(status), now, base);
      StatusOn(h, status, now);
    }

    /** `async_load_media_failed`, once the device's state is at hand. */
    method LoadFailedOn(h: DeviceHealth, now: Time)
      requires Valid() && Holds(h)
      modifies this, h, h.pending, manager, manager.registry
      ensures Valid() && SameSetUp() && Repr == old(Repr)
      ensures View() == Commit(old(View()), Apply(old(h.View()), LoadFailed, now, old(Interval())))
    {
      hide Valid, View, DeviceHealth.View, Commit, Stored, DL.Append, DL.Resolve, Interval;
      Unstored(h);
      StoredIsCommitted(View(), h.View());
      if h.pending == null {
        return;
      }
      var _ := Resolve(h, FetchFailed, true, None, None, now);
    }

    /** `async_load_media_failed`. */
    method LoadMediaFailed(u: Uuid, now: Time)
      requires Valid()
      modifies Repr
      ensures Valid() && SameSetUp() && fresh(Repr - old(Repr)) && old(Repr) <= Repr
      ensures View() == On(old(View()), u, LoadFailed, now, old(Base()))
    {
      hide Valid, On, Commit, Stored, Apply, Interval, Base;
      ghost var before, base := View(), Base();
      IntervalIsBase();
      var h := Device(u);
      Footprint(h);
      OnTouched(before, u, LoadFailed, now, base);
      LoadFailedOn(h, now);
    }

    /** The classification of an exception. */
    method Classified(err: Exception, connected: bool, launchFailure: bool) returns (outcome: Outcome, responded: bool)
      ensures (outcome, responded) == Classify(err, connected, launchFailure)
    {
      var cause := if IsChromecastError(err.class_) then Some(err.class_) else err.cause;
      if err.class_ == TimeoutClass {
        return Timeout, false;
      } else if cause == Some(RequestTimeoutClass) {
        return Timeout, false;
      } else if cause == Some(RequestFailedClass) && (connected || launchFailure) {
        return FetchFailed, true;
      } else if cause == Some(NotConnectedClass) || cause == Some(ConnectionClass) || cause == Some(RequestFailedClass) {
        return Unreachable, false;
      }
      return FetchFailed, true;
    }

    /** `async_request_failed`, once the device's state is at hand. */
    method FailedOn(h: DeviceHealth, err: Exception, connected: bool, launchFailure: bool, now: Time)
      requires Valid() && Holds(h)
      modifies this, h, h.pending, manager, manager.registry
      ensures Valid() && SameSetUp() && Repr == old(Repr)
      ensures View() == Commit(old(View()),
        Apply(old(h.View()), DL.Call.RequestFailed(err, connected, launchFailure), now, old(Interval())))
    {
      hide Valid, View, DeviceHealth.View, Commit, Stored, DL.Append, DL.Resolve, Interval, Classify;
      var outcome, responded := Classified(err, connected, launchFailure);
      var _ := Resolve(h, outcome, responded, None, None, now);
    }

    /** `async_request_failed`. */
    method RequestFailed(u: Uuid, err: Exception, connected: bool, launchFailure: bool, now: Time)
      requires Valid()
      modifies Repr
      ensures Valid() && SameSetUp() && fresh(Repr - old(Repr)) && old(Repr) <= Repr
      ensures View() == On(old(View()), u, DL.Call.RequestFailed(err, connected, launchFailure), now, old(Base()))
    {
      hide Valid, On, Commit, Stored, Apply, Interval, Base;
      ghost var before, base := View(), Base();
      IntervalIsBase();
      var h := Device(u);
      Footprint(h);
      OnTouched(before, u, DL.Call.RequestFailed(err, connected, launchFailure), now, base);
      FailedOn(h, err, connected, launchFailure, now);
    }

    /** `async_record`, once the device's state is at hand. */
    method RecordOn(h: DeviceHealth, outcome: Outcome, source: Source, content: Option<Content>, responded: bool, now: Time)
      requires Valid() && Holds(h)
      modifies this, h, h.pending, manager, manager.registry
      ensures Valid() && SameSetUp() && Repr == old(Repr)
      ensures View() == Commit(old(View()),
        Apply(old(h.View()), DL.Call.RecordOutcome(outcome, source, content, responded), now, old(Interval())))
    {
      hide Valid, View, DeviceHealth.View, Commit, Stored, DL.Append, DL.Resolve, Interval;
      if h.pending != null && h.pending.request.source == source {
        var _ := Resolve(h, outcome, responded, None, None, now);
      } else {
        Append(h, Record(h.uuid, source, outcome, content, responded, None, now, None, None, None, None));
      }
    }

    /** `async_record`. */
    method RecordOutcome(u: Uuid, outcome: Outcome, source: Source, content: Option<Content>, responded: bool, now: Time)
      requires Valid()
      modifies Repr
      ensures Valid() && SameSetUp() && fresh(Repr - old(Repr)) && old(Repr) <= Repr
      ensures View() == On(old(View()), u, DL.Call.RecordOutcome(outcome, source, content, responded), now, old(Base()))
    {
      hide Valid, On, Commit, Stored, Apply, Interval, Base;
      ghost var before, base := View(), Base();
      IntervalIsBase();
      var h := Device(u);
      Footprint(h);
      OnTouched(before, u, DL.Call.RecordOutcome(outcome, source, content, responded), now, base);
      RecordOn(h, outcome, source, content, responded, now);
    }

    /** A timer leaves the event loop, and the request it was armed for loses its handle. */
    method Fire(h: DeviceHealth, p: PendingRequest)
      requires Valid() && Holds(h) && p in h.requests
      modifies h, p
      ensures Valid() && h.requests == old(h.requests) && h.pending == old(h.pending)
      ensures h.View() == Fired(old(h.View()), p.ordinal)
      ensures View() == Stored(old(View()), h.View())
    {
      h.armed := h.armed - {p.ordinal};
      p.cancelTimeout := false;
      assert Valid();
      hide Valid;
      OnlyDevice(h.uuid);
    }

    /** `_expire`: the request that is timed out is the one the timer was armed for, and
        only if that very object is still the device's pending one. */
    method Expire(h: DeviceHealth, p: PendingRequest, now: Time)
      requires Valid() && Holds(h) && p in h.requests
      modifies this, h, h.pending, p, manager, manager.registry
      ensures Valid() && SameSetUp() && Repr == old(Repr)
      ensures View() == On(old(View()), h.uuid, DL.Call.Expire(p.ordinal), now, old(Base()))
    {
      IntervalIsBase();
      Unstored(h);
      hide Valid, Base, Interval, BreakerInterval, Commit, Apply;
      ExpireOn(h, p, now);
    }

    method ExpireOn(h: DeviceHealth, p: PendingRequest, now: Time)
      requires Valid() && Holds(h) && p in h.requests
      modifies this, h, h.pending, p, manager, manager.registry
      ensures Valid() && SameSetUp() && Repr == old(Repr)
      ensures View() == Commit(old(View()), Apply(old(h.View()), DL.Call.Expire(p.ordinal), now, old(Interval())))
    {
      Requested(h, p);
      ExpireShape(h.View(), p.ordinal, now, Interval());
      hide Valid, View, DeviceHealth.View, Commit, Stored, DL.Append, DL.Resolve, Interval, Apply, Fired, PendingIs;
      ghost var before := View();
      Fire(h, p);
      StoredIsCommitted(before, h.View());
      if h.pending != p {
        return;
      }
      ghost var fired := h.View();
      var _ := Resolve(h, Timeout, false, None, None, now);
      CommitOver(before, fired, DL.Resolve(fired, Timeout, false, None, None, now, old(Interval())));
    }

    /** The removal that `async_add_listener` hands out: the first equal listener goes. */
    method RemoveListener(o: ListenerObject)
      requires Valid() && o in listeners
      modifies this`listeners
      ensures Valid() && View() == old(View()).(listeners := Kinds(listeners))
      ensures exists i :: 0 <= i < |old(listeners)| && old(listeners)[i] == o && o !in old(listeners)[..i] &&
                          listeners == old(listeners)[..i] + old(listeners)[i + 1..]
    {
      var i := 0;
      while listeners[i] != o
        invariant 0 <= i < |listeners| && o in listeners[i..]
        invariant o !in listeners[..i]
        decreases |listeners| - i
      {
        i := i + 1;
      }
      listeners := listeners[..i] + listeners[i + 1..];
      assert Valid();
      hide Valid;
      NoDevice();
    }

    method CancelOn(h: DeviceHealth)
      requires Valid() && Holds(h)
      modifies h, h.pending
      ensures Valid() && h.View() == Cancelled(old(h.View()))
      ensures View() == Stored(old(View()), h.View())
    {
      h.CancelTimer();
      assert Valid();
      hide Valid;
      OnlyDevice(h.uuid);
    }

    /** `async_shutdown`. */
    method Shutdown()
      requires Valid()
      modifies Repr - {this}
      ensures Valid() && Repr == old(Repr)
      ensures View() == Shut(old(View()), old(View()).devices.Keys)
    {
      hide Valid, View, Shut;
      ghost var before, keys := View(), devices.Keys;
      AllLeft(before);
      Keys();
      var left := devices.Keys;
      while left != {}
        invariant Valid() && left <= devices.Keys == keys && View() == Shut(before, keys - left)
        decreases |left|
      {
        var u :| u in left;
        ShutNext(before, keys, left, u);
        left := left - {u};
        Found(u);
        CancelNext(devices[u]);
      }
      assert keys - left == keys;
    }

    method CancelNext(h: DeviceHealth)
      requires Valid() && Holds(h)
      modifies Repr - {this}
      ensures Valid() && Repr == old(Repr)
      ensures L.Device(old(View()), h.uuid).uuid == h.uuid
      ensures View() == Stored(old(View()), Cancelled(L.Device(old(View()), h.uuid)))
    {
      hide Valid;
      Footprint(h);
      Unstored(h);
      CancelOn(h);
    }

    lemma OwnsManager()
      requires Valid()
      ensures manager in Repr && manager.registry in Repr
    {
    }

    lemma RepairsAre()
      requires Valid()
      ensures View().repairs == manager.View()
    {
    }

    lemma DeviceUuid(u: Uuid)
      requires Valid()
      ensures L.Device(View(), u).uuid == u
    {
    }

    lemma Keys()
      requires Valid()
      ensures devices.Keys == View().devices.Keys
    {
    }

    lemma Found(u: Uuid)
      requires Valid() && u in devices
      ensures Holds(devices[u]) && devices[u].uuid == u
    {
    }

    lemma Requested(h: DeviceHealth, p: PendingRequest)
      requires Valid() && Holds(h) && p in h.requests
      ensures p in Repr && (h.pending == p <==> PendingIs(h.View(), p.ordinal))
    {
      var k :| 0 <= k < |h.requests| && h.requests[k] == p;
    }
  }

  /** The part of a media player entity that talks to the ledger. */
  class CastMediaPlayer {
    const uuid: Uuid
    const ledger: DeliveryLedger
    /** The source of the next play request; an announcement lends it to its playback. */
    var requestSource: Source

    constructor (uuid: Uuid, ledger: DeliveryLedger)
      ensures this.uuid == uuid && this.ledger == ledger && requestSource == PlayMedia
    {
      this.uuid := uuid;
      this.ledger := ledger;
      requestSource := PlayMedia;
    }

    ghost predicate Sees(w: World)
      reads this, ledger, ledger.Repr, ledger.coordinator
    {
      ledger.Valid() && w.ledger == ledger.View() && w.options.interval == ledger.Base()
    }

    /** The first step of `_async_quick_play_tracked`. */
    method PlayBegins(content: Content, source: Option<Source>, session: Option<int>, now: Time, ghost w: World)
      requires Sees(w) && w.now == now
      modifies ledger.Repr
      ensures ledger.Valid()
      ensures ledger.View() ==
        LedgerAfter(w, Event.PlayBegins(uuid, content, if source.Some? then source.value else old(requestSource), session))
    {
      hide DeliveryLedger.Valid, DeliveryLedger.View, On;
      var _ := ledger.BeginRequest(uuid, content, if source.Some? then source.value else requestSource, session,
                                   DELIVERY_TIMEOUT, now);
    }

    /** The watchdog of a play request has expired. */
    method WatchdogExpired(now: Time, ghost w: World, ghost p: nat)
      requires Sees(w) && w.now == now && p in w.plays && w.plays[p].uuid == uuid
      modifies ledger.Repr
      ensures ledger.Valid()
      ensures ledger.View() == LedgerAfter(w, PlayRaises(p, Exception(TimeoutClass, None), false, false))
    {
      hide DeliveryLedger.Valid, DeliveryLedger.View, On;
      ledger.RequestFailed(uuid, Exception(TimeoutClass, None), false, false, now);
    }

    /** The executor job of a play request has raised. */
    method PlayRaised(err: Exception, available: bool, launchFailure: bool, now: Time, ghost w: World, ghost p: nat)
      requires Sees(w) && w.now == now && p in w.plays && w.plays[p].uuid == uuid
      modifies ledger.Repr
      ensures ledger.Valid()
      ensures ledger.View() == LedgerAfter(w, PlayRaises(p, err, available, launchFailure))
    {
      hide DeliveryLedger.Valid, DeliveryLedger.View, On;
      ledger.RequestFailed(uuid, err, available, launchFailure, now);
    }

    /** The message of an announcement could not be rendered. */
    method TemplateFailed(now: Time, ghost w: World)
      requires Sees(w) && w.now == now
      modifies ledger.Repr
      ensures ledger.Valid()
      ensures ledger.View() == LedgerAfter(w, Event.TemplateFailed(uuid))
    {
      hide DeliveryLedger.Valid, DeliveryLedger.View, On;
      ledger.RecordOutcome(uuid, TemplateError, Announce, None, false, now);
    }
  }

  /** The part of `async_load` that makes the ledger know the devices with stored stamps. */
  method RestoreDevices(ledger: DeliveryLedger, uuids: set<Uuid>)
    requires ledger.Valid() && forall u :: u in ledger.View().devices ==> ledger.View().devices[u] == Fresh(u)
    modifies ledger
    ensures ledger.Valid() && fresh(ledger.Repr - old(ledger.Repr)) && ledger.coordinator == old(ledger.coordinator)
    ensures ledger.listeners == old(ledger.listeners)
    ensures ledger.View() == old(ledger.View()).(devices := ledger.View().devices)
    ensures forall u :: u in ledger.View().devices ==> ledger.View().devices[u] == Fresh(u)
    ensures uuids <= ledger.View().devices.Keys
  {
    hide DeliveryLedger.Valid, DeliveryLedger.View;
    var left := uuids;
    while left != {}
      invariant ledger.Valid() && fresh(ledger.Repr - old(ledger.Repr)) && ledger.coordinator == old(ledger.coordinator)
      invariant ledger.listeners == old(ledger.listeners)
      invariant ledger.View() == old(ledger.View()).(devices := ledger.View().devices)
      invariant forall u :: u in ledger.View().devices ==> ledger.View().devices[u] == Fresh(u)
      invariant left <= uuids && uuids - left <= ledger.View().devices.Keys
      decreases |left|
    {
      var u :| u in left;
      left := left - {u};
      var _ := ledger.Device(u);
    }
  }

  /** `async_setup_entry`: whatever options and stamps are stored and whatever issues the
      registry holds, the objects are in a state in which interleavings start. */
  method SetUpEntry(registry: IssueRegistry, lastSeen: map<Uuid, Time>, trackedSince: map<Repairs.Key, Time>, stored: ProbeOptions)
    returns (m: RepairManager, c: CastProbeCoordinator)
    ensures c.Valid() && c.ledger.manager == m && c.ledger.listeners == [ToRepairs(m), ToBreaker(c)]
    ensures IsStart(Start(c.ledger.View(), stored)) && c.Is(Start(c.ledger.View(), stored))
    ensures c.ledger.View().repairs.lastSeen == lastSeen && c.ledger.View().repairs.trackedSince == trackedSince
    ensures c.ledger.View().repairs.issues == registry.issues
  {
    m := new RepairManager(registry, lastSeen, trackedSince);
    var ledger := new DeliveryLedger(m);
    hide DeliveryLedger.Valid, DeliveryLedger.View, Repairs.IsNew;
    RestoreDevices(ledger, lastSeen.Keys);
    ledger.AddRepairs(m);
    c := new CastProbeCoordinator(ledger, stored);
  }

  /** The first step of the unload: `async_shutdown_probes` detaches the coordinator. */
  method StopProbes(c: CastProbeCoordinator, m: RepairManager, ghost w: World)
    requires c.Valid() && c.Is(w) && c.ledger.listeners == [ToRepairs(m), ToBreaker(c)]
    requires Enabled(w, Event.StopProbes)
    modifies c.ledger`listeners
    ensures c.Valid() && c.Is(Next(w, Event.StopProbes)) && c.ledger.listeners == [ToRepairs(m)]
  {
    hide DeliveryLedger.Valid, DeliveryLedger.View, Kinds;
    c.ledger.RemoveListener(ToBreaker(c));
    assert c.ledger.listeners == [ToRepairs(m)];
    OneKind(c.ledger.listeners);
  }

  lemma OneKind(os: seq<ListenerObject>)
    requires |os| == 1
    ensures Kinds(os) == [Kind(os[0])]
  {
  }

  /** The second step: the repair manager's `async_shutdown` detaches it. */
  method StopRepairs(c: CastProbeCoordinator, m: RepairManager, ghost w: World)
    requires c.Valid() && c.Is(w) && c.ledger.listeners == [ToRepairs(m)] && Enabled(w, Event.StopRepairs)
    modifies c.ledger`listeners
    ensures c.Valid() && c.Is(Next(w, Event.StopRepairs)) && c.ledger.listeners == []
  {
    hide DeliveryLedger.Valid, DeliveryLedger.View, Kinds;
    c.ledger.RemoveListener(ToRepairs(m));
    assert c.ledger.listeners == [];
  }

  /** The last step: the ledger's `async_shutdown`. */
  method Shutdown(c: CastProbeCoordinator, ghost w: World)
    requires c.Valid() && c.Is(w) && Enabled(w, Event.Shutdown)
    modifies c.ledger.Repr
    ensures c.Valid() && c.Is(Next(w, Event.Shutdown))
  {
    hide Shut, DeliveryLedger.Valid, DeliveryLedger.View, Closed;
    AllShut(w.ledger);
    c.ledger.Shutdown();
  }

  /** The ledger when the timers of the devices in `done` have been cancelled. */
  ghost function Shut(l: Ledger, done: set<Uuid>): (l': Ledger)
    ensures l'.devices.Keys == l.devices.Keys
  {
    l.(devices := map u | u in l.devices :: if u in done then Cancelled(l.devices[u]) else l.devices[u])
  }

  lemma AllLeft(l: Ledger)
    ensures Shut(l, l.devices.Keys - l.devices.Keys) == l
  {
    assert Shut(l, l.devices.Keys - l.devices.Keys).devices == l.devices;
  }

  lemma ShutNext(l: Ledger, keys: set<Uuid>, left: set<Uuid>, u: Uuid)
    requires keys == l.devices.Keys && u in left && left <= keys
    ensures var now, h := Shut(l, keys - left), L.Device(Shut(l, keys - left), u);
      h.uuid == u ==> Stored(now, Cancelled(h)) == Shut(l, keys - (left - {u}))
  {
    var now, h := Shut(l, keys - left), L.Device(Shut(l, keys - left), u);
    assert h == l.devices[u];
    if h.uuid == u {
      assert Stored(now, Cancelled(h)).devices == Shut(l, keys - (left - {u})).devices;
    }
  }

  lemma AllShut(l: Ledger)
    ensures Shut(l, l.devices.Keys) == Closed(l)
  {
    assert Shut(l, l.devices.Keys).devices == Closed(l).devices;
  }

  /** Storing a state that is stored again changes nothing. */
  lemma CommitOver(l: Ledger, h: Health, e: Effect)
    requires h.uuid == e.health.uuid
    ensures Commit(Stored(l, h), e) == Commit(l, e)
  {
  }

  lemma StoreOver(l: Ledger, e: Effect, h: Health)
    requires h.uuid == e.health.uuid
    ensures Stored(Commit(l, e), h) == Commit(l, Effect(h, e.emitted))
  {
  }

  lemma StoredIsCommitted(l: Ledger, h: Health)
    ensures Stored(l, h) == Commit(l, Effect(h, None))
  {
  }

  lemma StoredHealth(l: Ledger, e: Effect)
    ensures L.Device(Commit(l, e), e.health.uuid) == e.health
  {
  }

  lemma OnGrows(l: Ledger, u: Uuid, c: Call, now: Time, base: nat)
    requires L.Device(l, u).uuid == u
    ensures On(l, u, c, now, base).devices.Keys == l.devices.Keys + {u}
  {
    hide Apply, Notify, Push;
    ApplyKeepsUuid(L.Device(l, u), c, now, BreakerInterval(l, base));
  }

  lemma TouchedKnown(l: Ledger, u: Uuid)
    requires u in l.devices && l.devices[u].uuid == u
    ensures L.Touched(l, u) == l
  {
    assert l.devices[u := l.devices[u]] == l.devices;
  }

  lemma LookTouches(l: Ledger, u: Uuid, now: Time, base: nat)
    ensures On(l, u, Look, now, base) == L.Touched(l, u)
  {
  }

  /** Asking for the device first makes no difference to a call about it. */
  lemma TouchFirst(l: Ledger, u: Uuid, c: Call, now: Time, base: nat)
    requires L.Device(l, u).uuid == u
    ensures On(L.Touched(l, u), u, c, now, base) == On(l, u, c, now, base)
    ensures L.Device(L.Touched(l, u), u) == L.Device(l, u)
  {
    hide Apply, Notify, Push;
    OnTouched(l, u, c, now, base);
  }

  /** A call on a device is its effect on the state `device()` finds or makes. */
  lemma OnTouched(l: Ledger, u: Uuid, c: Call, now: Time, base: nat)
    requires L.Device(l, u).uuid == u
    ensures On(l, u, c, now, base) == Commit(L.Touched(l, u), Apply(L.Device(l, u), c, now, BreakerInterval(l, base)))
  {
    ApplyKeepsUuid(L.Device(l, u), c, now, BreakerInterval(l, base));
    TouchedOver(l, u, Apply(L.Device(l, u), c, now, BreakerInterval(l, base)));
  }

  lemma ApplyKeepsUuid(h: Health, c: Call, now: Time, interval: Option<nat>)
    ensures Apply(h, c, now, interval).health.uuid == h.uuid
  {
    hide DL.Append;
  }

  lemma TouchedOver(l: Ledger, u: Uuid, e: Effect)
    requires e.health.uuid == u && L.Device(l, u).uuid == u
    ensures Commit(L.Touched(l, u), e) == Commit(l, e)
  {
  }

  lemma ExpireShape(h: Health, ordinal: nat, now: Time, interval: Option<nat>)
    ensures Fired(h, ordinal).uuid == h.uuid
    ensures Apply(h, DL.Call.Expire(ordinal), now, interval) ==
      if PendingIs(h, ordinal) then DL.Resolve(Fired(h, ordinal), Timeout, false, None, None, now, interval)
      else Effect(Fired(h, ordinal), None)
  {
  }

  lemma BeginShape(h: Health, content: Content, source: Source, session: Option<int>, timeout: Time, now: Time, interval: Option<nat>)
    ensures var prior := Superseded(h, now, interval);
      var request := Request(content, source, now, session, timeout);
      Apply(h, Begin(content, source, session, timeout), now, interval) ==
      Effect(prior.health.(pending := Some(Pending(request, |prior.health.begun|, true)),
                           armed := prior.health.armed[|prior.health.begun| := now + timeout],
                           begun := prior.health.begun + [request]),
             prior.emitted)
  {
    hide Superseded;
  }

  /** Every branch keeps the device's id, and the silent ones keep its state. */
  lemma MediaStatusCases(h: Health, s: Status, now: Time, interval: Option<nat>)
    ensures OnMediaStatus(h, s, now, interval).health.uuid == h.uuid
    ensures OnMediaStatus(h, s, now, interval) ==
      if s.playerIsIdle && s.idle == Some(IdleError) then
        if h.pending.Some? && s.content != None && s.content != Some(h.pending.value.request.content) then
          Effect(DL.Append(h, ObservationRecord(h, s, now), interval), Some(ObservationRecord(h, s, now)))
        else DL.Resolve(h, FetchFailed, true, Some(s), if h.pending.None? then s.content else None, now, interval)
      else if h.pending.None? || s.content != Some(h.pending.value.request.content) ||
              (s.player != Some(Buffering) && s.player != Some(Playing)) ||
              (h.pending.value.request.session.Some? && s.session == h.pending.value.request.session) then Effect(h, None)
      else DL.Resolve(h, Ok, true, Some(s), None, now, interval)
  {
    hide DL.Append, DL.Resolve;
  }
}
