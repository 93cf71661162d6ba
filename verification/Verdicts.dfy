/** What each event records, when a probe is launched and how long a circuit stays open,
    spelled out for every interleaving without the functions that compute it. */
module Verdicts {
  import opened Vocabulary
  import opened DeviceLedger
  import opened DeviceHistory
  import opened OkSoundness
  import opened Ledger
  import opened LedgerHistory
  import opened Protocol
  import opened ProtocolSafety
  import opened ProtocolTheorems

  // --------------------------------------------------------------- records

  /** What becomes of request `q` of device `u`, as seen in status `s` if there was one. */
  function Telling(u: Uuid, q: Request, outcome: Outcome, responded: bool, now: Time, s: Option<Status>): Record {
    Record(u, q.source, outcome, Some(q.content), responded, Some(q.requestedAt), now, Some(now - q.requestedAt),
           if s.Some? then s.value.player else None, if s.Some? then s.value.idle else None,
           if s.Some? then s.value.session else None)
  }

  /** Something that answers no request. */
  function Noting(u: Uuid, source: Source, content: Option<Content>, outcome: Outcome, responded: bool,
                  now: Time, s: Option<Status>): Record
  {
    Record(u, source, outcome, content, responded, None, now, None,
           if s.Some? then s.value.player else None, if s.Some? then s.value.idle else None,
           if s.Some? then s.value.session else None)
  }

  /** The event adds exactly these records to device `u`, in this order. */
  ghost predicate Adds(ws: seq<World>, i: nat, u: Uuid, rs: seq<Record>)
    requires i + 1 < |ws|
  {
    Records(Device(ws[i + 1].ledger, u).log) == Records(Device(ws[i].ledger, u).log) + rs
  }

  lemma EventStep(ws: seq<World>, es: seq<Event>, i: nat, u: Uuid)
    requires IsExecution(ws, es) && i < |es|
    ensures Enabled(ws[i], es[i]) && ws[i + 1] == Next(ws[i], es[i])
    ensures var h, c := Device(ws[i].ledger, u), CallOn(ws[i], es[i], u);
      && h.uuid == u && Invariant(h)
      && Device(ws[i + 1].ledger, u) == if c.Some? then Step(h, TimedCall(ws[i], c.value)) else h
  {
    hide LedgerInvariant, Exclusive, TasksRight, PendingRight, Step, CallOn, Next, Enabled, Invariant, IsStart;
    Always(ws, es, i);
    assert Happens(ws, es, i);
    LedgerDevice(ws[i].ledger, u);
    DeviceAfter(ws[i], es[i], u);
  }

  /** The pending request is told of, and none is pending any more. */
  ghost predicate Told(ws: seq<World>, i: nat, u: Uuid, outcome: Outcome, responded: bool, s: Option<Status>)
    requires i + 1 < |ws| && Device(ws[i].ledger, u).pending.Some?
  {
    && Device(ws[i + 1].ledger, u).pending.None?
    && Adds(ws, i, u, [Telling(u, Device(ws[i].ledger, u).pending.value.request, outcome, responded, ws[i].now, s)])
  }

  // ---------------------------------------------------------- device callbacks

  /** A rejected load is a failed fetch of the pending request, and nothing without one. */
  lemma LoadFailureVerdict(ws: seq<World>, es: seq<Event>, i: nat)
    requires IsExecution(ws, es) && i < |es| && es[i].DeviceLoadFailed?
    ensures var u := es[i].uuid;
      if Device(ws[i].ledger, u).pending.Some? then Told(ws, i, u, FetchFailed, true, None)
      else Device(ws[i + 1].ledger, u) == Device(ws[i].ledger, u)
  {
    hide Step, Happens;
    EventStep(ws, es, i, es[i].uuid);
    LoadFailedStep(Device(ws[i].ledger, es[i].uuid), TimedCall(ws[i], LoadFailed));
  }

  lemma LoadFailedStep(h: Health, t: Timed)
    requires t.call == LoadFailed
    ensures var h' := Step(h, t);
      if h.pending.Some? then
        && h'.pending.None?
        && Records(h'.log) == Records(h.log) + [Telling(h.uuid, h.pending.value.request, FetchFailed, true, t.now, None)]
      else h' == h
  {
    hide Append;
  }

  predicate IsError(s: Status) {
    s.playerIsIdle && s.idle == Some(IdleError)
  }

  /** A status tells of the pending request if it shows its content delivered in a new
      session, or an error for its content or for none in particular; any other error is
      noted with all that the status says, and nothing else leaves a trace. */
  lemma StatusRecords(ws: seq<World>, es: seq<Event>, i: nat)
    requires IsExecution(ws, es) && i < |es| && es[i].DeviceStatus?
    ensures var u, s := es[i].uuid, es[i].status;
      var h, h' := Device(ws[i].ledger, u), Device(ws[i + 1].ledger, u);
      if h.pending.Some? && Confirms(s, h.pending.value.request) then Told(ws, i, u, Ok, true, Some(s))
      else if h.pending.Some? && IsError(s) && (s.content == None || s.content == Some(h.pending.value.request.content)) then
        Told(ws, i, u, FetchFailed, true, Some(s))
      else if IsError(s) then
        h'.pending == h.pending && Adds(ws, i, u, [Noting(u, Observed, s.content, FetchFailed, true, ws[i].now, Some(s))])
      else h' == h
  {
    hide Step, Confirms, Happens;
    EventStep(ws, es, i, es[i].uuid);
    StatusStep(Device(ws[i].ledger, es[i].uuid), TimedCall(ws[i], MediaStatus(es[i].status)));
  }

  lemma StatusStep(h: Health, t: Timed)
    requires t.call.MediaStatus?
    ensures var s, h' := t.call.status, Step(h, t);
      if h.pending.Some? && Confirms(s, h.pending.value.request) then
        && h'.pending.None?
        && Records(h'.log) == Records(h.log) + [Telling(h.uuid, h.pending.value.request, Ok, true, t.now, Some(s))]
      else if h.pending.Some? && IsError(s) && (s.content == None || s.content == Some(h.pending.value.request.content)) then
        && h'.pending.None?
        && Records(h'.log) == Records(h.log) + [Telling(h.uuid, h.pending.value.request, FetchFailed, true, t.now, Some(s))]
      else if IsError(s) then
        && h'.pending == h.pending
        && Records(h'.log) == Records(h.log) + [Noting(h.uuid, Observed, s.content, FetchFailed, true, t.now, Some(s))]
      else h' == h
  {
    hide Append;
  }

  // ------------------------------------------------------------------- errors

  /** What an error that reaches the ledger says about the request. */
  function Verdict(err: Exception, connected: bool, launchFailure: bool): Outcome {
    if err.class_ == TimeoutClass || err.cause == Some(RequestTimeoutClass) then Timeout
    else
      match err.cause
      case Some(NotConnectedClass) => Unreachable
      case Some(ConnectionClass) => Unreachable
      case Some(RequestFailedClass) => if connected || launchFailure then FetchFailed else Unreachable
      case _ => FetchFailed
  }

  /** The connection and the launch failure decide what a failed request means. */
  lemma PlayErrorVerdict(ws: seq<World>, es: seq<Event>, i: nat)
    requires IsExecution(ws, es) && i < |es| && es[i].PlayRaises?
    ensures es[i].play in ws[i].plays
    ensures var u := ws[i].plays[es[i].play].uuid;
      var h, outcome := Device(ws[i].ledger, u), Verdict(es[i].err, es[i].connected, es[i].launchFailure);
      if h.pending.Some? then Told(ws, i, u, outcome, outcome == FetchFailed, None)
      else
        && Device(ws[i + 1].ledger, u).pending.None?
        && Adds(ws, i, u, [Noting(u, Observed, None, outcome, outcome == FetchFailed, ws[i].now, None)])
  {
    hide Step;
    var e := es[i];
    assert Happens(ws, es, i);
    EventStep(ws, es, i, ws[i].plays[e.play].uuid);
    ErrorStep(Device(ws[i].ledger, ws[i].plays[e.play].uuid), TimedCall(ws[i], RequestFailed(e.err, e.connected, e.launchFailure)));
  }

  /** A probe's error is judged without a word on the connection or the launch. */
  lemma ProbeErrorVerdict(ws: seq<World>, es: seq<Event>, i: nat)
    requires IsExecution(ws, es) && i < |es| && es[i].ProbeRaises?
    ensures es[i].task in ws[i].tasks
    ensures var u := ws[i].tasks[es[i].task].uuid;
      var h, outcome := Device(ws[i].ledger, u), Verdict(es[i].err, false, false);
      if h.pending.Some? then Told(ws, i, u, outcome, outcome == FetchFailed, None)
      else
        && Device(ws[i + 1].ledger, u).pending.None?
        && Adds(ws, i, u, [Noting(u, Observed, None, outcome, outcome == FetchFailed, ws[i].now, None)])
  {
    hide Step;
    var e := es[i];
    assert Happens(ws, es, i);
    EventStep(ws, es, i, ws[i].tasks[e.task].uuid);
    ErrorStep(Device(ws[i].ledger, ws[i].tasks[e.task].uuid), TimedCall(ws[i], RequestFailed(e.err, false, false)));
  }

  lemma ErrorStep(h: Health, t: Timed)
    requires t.call.RequestFailed? && (t.call.err.class_ == TimeoutClass || t.call.err.class_ == HomeAssistantClass)
    ensures var h', outcome := Step(h, t), Verdict(t.call.err, t.call.connected, t.call.launchFailure);
      && h'.pending.None?
      && Records(h'.log) == Records(h.log) +
           if h.pending.Some? then [Telling(h.uuid, h.pending.value.request, outcome, outcome == FetchFailed, t.now, None)]
           else [Noting(h.uuid, Observed, None, outcome, outcome == FetchFailed, t.now, None)]
  {
    hide Append;
  }

  // ----------------------------------------------- timers, plays and templates

  /** The timer of the pending request makes it a timeout; any other timer does nothing. */
  lemma TimerVerdict(ws: seq<World>, es: seq<Event>, i: nat)
    requires IsExecution(ws, es) && i < |es| && es[i].TimerFires?
    ensures var u := es[i].uuid;
      if PendingIs(Device(ws[i].ledger, u), es[i].ordinal) then Told(ws, i, u, Timeout, false, None)
      else Device(ws[i + 1].ledger, u) == Device(ws[i].ledger, u)
  {
    hide Step, Invariant, Happens;
    var u, k := es[i].uuid, es[i].ordinal;
    EventStep(ws, es, i, u);
    TimerStep(Device(ws[i].ledger, u), TimedCall(ws[i], Expire(k)));
  }

  lemma TimerStep(h: Health, t: Timed)
    requires Invariant(h) && t.call.Expire?
    ensures var h' := Step(h, t);
      if PendingIs(h, t.call.ordinal) then
        && h'.pending.None?
        && Records(h'.log) == Records(h.log) + [Telling(h.uuid, h.pending.value.request, Timeout, false, t.now, None)]
      else h' == h
  {
    hide Append;
    if !PendingIs(h, t.call.ordinal) {
      hide Invariant;
      ExpireKeeps(h, t.call.ordinal, t.now, t.interval);
    }
  }

  /** A play becomes the pending request; the one before it is told of as unknown. */
  lemma PlayVerdict(ws: seq<World>, es: seq<Event>, i: nat)
    requires IsExecution(ws, es) && i < |es| && es[i].PlayBegins?
    ensures var e, u, now := es[i], es[i].uuid, ws[i].now;
      var h, h' := Device(ws[i].ledger, u), Device(ws[i + 1].ledger, u);
      && h'.pending == Some(Pending(Request(e.content, e.source, now, e.session, 4 * 30), |h.begun|, true))
      && Adds(ws, i, u, if h.pending.Some? then [Telling(u, h.pending.value.request, Unknown, false, now, None)] else [])
      && ws[i + 1].plays == ws[i].plays[ws[i].played := Play(u, now + 4 * 45)]
  {
    hide Step, Happens, On;
    var e := es[i];
    EventStep(ws, es, i, e.uuid);
    BeginTells(Device(ws[i].ledger, e.uuid), TimedCall(ws[i], Begin(e.content, e.source, e.session, DELIVERY_TIMEOUT)));
  }

  lemma BeginTells(h: Health, t: Timed)
    requires t.call.Begin?
    ensures var h' := Step(h, t);
      && h'.pending == Some(Pending(Request(t.call.content, t.call.source, t.now, t.call.session, t.call.timeout), |h.begun|, true))
      && Records(h'.log) == Records(h.log) +
           if h.pending.Some? then [Telling(h.uuid, h.pending.value.request, Unknown, false, t.now, None)] else []
  {
    hide Append;
  }

  /** A message that cannot be rendered is told of the pending announcement, if there is
      one, and otherwise noted without content. */
  lemma TemplateVerdict(ws: seq<World>, es: seq<Event>, i: nat)
    requires IsExecution(ws, es) && i < |es| && es[i].TemplateFailed?
    ensures var u := es[i].uuid;
      var h, h' := Device(ws[i].ledger, u), Device(ws[i + 1].ledger, u);
      if h.pending.Some? && h.pending.value.request.source == Announce then Told(ws, i, u, TemplateError, false, None)
      else h'.pending == h.pending && Adds(ws, i, u, [Noting(u, Announce, None, TemplateError, false, ws[i].now, None)])
  {
    hide Step, Happens;
    EventStep(ws, es, i, es[i].uuid);
    OutcomeStep(Device(ws[i].ledger, es[i].uuid), TimedCall(ws[i], RecordOutcome(TemplateError, Announce, None, false)));
  }

  lemma OutcomeStep(h: Health, t: Timed)
    requires t.call.RecordOutcome?
    ensures var h', c := Step(h, t), t.call;
      if h.pending.Some? && h.pending.value.request.source == c.source then
        && h'.pending.None?
        && Records(h'.log) == Records(h.log) + [Telling(h.uuid, h.pending.value.request, c.outcome, c.responded, t.now, None)]
      else
        && h'.pending == h.pending
        && Records(h'.log) == Records(h.log) + [Noting(h.uuid, c.source, c.about, c.outcome, c.responded, t.now, None)]
  {
    hide Append;
  }

  // ------------------------------------------------------------------- probes

  predicate Occupied(p: Option<PlayerState>) {
    match p
    case Some(Playing) => true
    case Some(Buffering) => true
    case Some(Paused) => true
    case _ => false
  }

  /** Neither the device nor a group it belongs to is playing, buffering or paused. */
  predicate Undisturbed(s: Snapshot) {
    !Occupied(s.player) && forall k :: 0 <= k < |s.groupPlayers| ==> !Occupied(s.groupPlayers[k])
  }

  /** The options allow probing groups and devices with a screen. */
  predicate Allowed(s: Snapshot, o: ProbeOptions) {
    if s.isAudioGroup then o.groups else s.castType == None || s.castType == Some(Audio) || o.video
  }

  /** The deadline that follows from all that was ever recorded has passed. */
  predicate Elapsed(h: Health, now: Time) {
    match CircuitOf(h.log)
    case None => true
    case Some(deadline) => deadline <= now
  }

  /** Which test decides, in the order in which the tests are made. */
  lemma DecisionMeans(ws: seq<World>, es: seq<Event>, i: nat)
    requires IsExecution(ws, es) && i < |es| && es[i].Decide?
    ensures var w, u, snapshot := ws[i], es[i].uuid, es[i].snapshot;
      var d := DecisionOf(w, u, snapshot);
      && (d == StillRunning <==> u in w.running)
      && (d == NotConnected <==> u !in w.running && snapshot.None?)
      && (u !in w.running && snapshot.Some? ==>
            var s, h := snapshot.value, Device(w.ledger, u);
            && (d == GroupsOff <==> s.isAudioGroup && !w.options.groups)
            && (d == VideoOff <==> !s.isAudioGroup && s.castType != None && s.castType != Some(Audio) && !w.options.video)
            && (d == CircuitOpen <==> Allowed(s, w.options) && !Elapsed(h, w.now))
            && (d == IsBusy <==> Allowed(s, w.options) && Elapsed(h, w.now) && !Undisturbed(s))
            && (d == Launch <==> Allowed(s, w.options) && Elapsed(h, w.now) && Undisturbed(s)))
  {
    hide Step, CircuitOf, Fifo, TimersExact, CountersExact, OwnRecords, Happens, Busy;
    EventStep(ws, es, i, es[i].uuid);
    if es[i].snapshot.Some? {
      BusyMeans(es[i].snapshot.value);
    }
  }

  lemma BusyMeans(s: Snapshot)
    ensures Busy(s) <==> !Undisturbed(s)
  {
    forall p ensures IsBusyState(p) <==> Occupied(p) {
    }
    assert forall k :: 0 <= k < |s.groupPlayers| ==> (IsBusyState(s.groupPlayers[k]) <==> Occupied(s.groupPlayers[k]));
  }

  /** All that speaks for probing device `u` now. */
  ghost predicate MayProbe(w: World, u: Uuid, snapshot: Option<Snapshot>) {
    && u !in w.running && snapshot.Some?
    && Allowed(snapshot.value, w.options) && Elapsed(Device(w.ledger, u), w.now) && Undisturbed(snapshot.value)
  }

  /** Main result: a cycle launches a probe of a device if and only if the device is not
      being probed, is connected and left in peace by it, the options allow it and its
      circuit's deadline has passed; the probe's request is then the pending one. */
  lemma ProbedIff(ws: seq<World>, es: seq<Event>, i: nat)
    requires IsExecution(ws, es) && i < |es| && es[i].Decide?
    ensures var w, w', e := ws[i], ws[i + 1], es[i];
      var h, h' := Device(w.ledger, e.uuid), Device(w'.ledger, e.uuid);
      && w.spawned !in w.tasks
      && (w'.tasks.Keys != w.tasks.Keys <==> MayProbe(w, e.uuid, e.snapshot))
      && if MayProbe(w, e.uuid, e.snapshot) then
           && w'.tasks.Keys == w.tasks.Keys + {w.spawned} && w'.running == w.running + {e.uuid}
           && w'.tasks[w.spawned].uuid == e.uuid && w'.tasks[w.spawned].snapshot == e.snapshot.value
           && w'.tasks[w.spawned].startedAt == w.now && w'.tasks[w.spawned].at == InExecutor(w.now + 4 * 20)
           && h'.pending == Some(Pending(Request(e.content, Probe, w.now, e.snapshot.value.session, 4 * 30), |h.begun|, true))
         else
           w'.tasks == w.tasks && w'.running == w.running && h'.pending == h.pending
  {
    hide Step, CircuitOf, Invariant, LedgerInvariant, TasksRight, PendingRight, Busy, Answers, LedgerAfter, Happens, DecisionFor;
    var w, e := ws[i], es[i];
    EventStep(ws, es, i, e.uuid);
    DecisionMeans(ws, es, i);
    Always(ws, es, i);
    if MayProbe(w, e.uuid, e.snapshot) {
      LaunchOf(w, e);
      BeginTells(Device(w.ledger, e.uuid), TimedCall(w, CallOn(w, e, e.uuid).value));
      TaskIsNew(w, e, w.spawned);
    } else {
      TasksLeft(w, e);
      SkippedProbesResolveNothing(ws, es, i);
    }
  }

  /** What a cycle records about a device: that it has no channel, that it is occupied, or
      that the request before a launched probe is unknown. */
  lemma CycleRecords(ws: seq<World>, es: seq<Event>, i: nat)
    requires IsExecution(ws, es) && i < |es| && es[i].Decide?
    ensures var w, u, snapshot, now := ws[i], es[i].uuid, es[i].snapshot, ws[i].now;
      var h := Device(w.ledger, u);
      Adds(ws, i, u,
        if u in w.running then []
        else if snapshot.None? then [Noting(u, Probe, None, Unreachable, false, now, None)]
        else if !Allowed(snapshot.value, w.options) || !Elapsed(h, now) then []
        else if !Undisturbed(snapshot.value) then [Noting(u, Probe, None, SkippedBusy, false, now, None)]
        else if h.pending.Some? then [Telling(u, h.pending.value.request, Unknown, false, now, None)]
        else [])
  {
    hide Step, CircuitOf, Invariant, Busy, Records, Happens, DecisionFor, Allowed, Elapsed, Undisturbed;
    var w, e := ws[i], es[i];
    var h := Device(w.ledger, e.uuid);
    EventStep(ws, es, i, e.uuid);
    DecisionMeans(ws, es, i);
    OpenBeforeDecide(ws, es, i);
    ProbeOwnership(ws, es, i, e.uuid);
    var t := TimedCall(w, CallOn(w, e, e.uuid).value);
    assert t.call == DecisionCall(DecisionOf(w, e.uuid, e.snapshot), e.snapshot, e.content);
    if t.call.Begin? {
      BeginTells(h, t);
    } else if t.call.RecordOutcome? {
      OutcomeStep(h, t);
    } else {
      LookStep(h, t);
    }
  }

  lemma LookStep(h: Health, t: Timed)
    requires t.call == Look
    ensures Step(h, t) == h
  {
  }

  /** What a poll makes of a task: it sleeps a quarter of a second while its device's probe
      request is pending, but gives up 35 s after its executor job has returned; when it
      need not wait it quits an app that was idle, within 20 s, if the device's last record
      is a success, and otherwise it is done. Errors and the end of the quitting end it. */
  lemma TaskVerdict(ws: seq<World>, es: seq<Event>, i: nat)
    requires IsExecution(ws, es) && i < |es|
    requires es[i].ProbeReturns? || es[i].ProbeWakes? || es[i].ProbeRaises? || es[i].QuitEnds?
    ensures es[i].task in ws[i].tasks
    ensures var w, w', k := ws[i], ws[i + 1], es[i].task;
      var t := w.tasks[k];
      var h := Device(w.ledger, t.uuid);
      var waiting := h.pending.Some? && h.pending.value.request.source == Probe;
      var giveUpAt := if t.at.Sleeping? then t.at.giveUpAt else w.now + 4 * 35;
      var polls := es[i].ProbeReturns? || es[i].ProbeWakes?;
      if polls && waiting && w.now <= giveUpAt then
        w'.tasks == w.tasks[k := t.(at := Sleeping(w.now + 1, giveUpAt))] && w'.running == w.running
      else if polls && !waiting && h.lastRecord.Some? && h.lastRecord.value.outcome == Ok && t.snapshot.appIdle then
        w'.tasks == w.tasks[k := t.(at := Quitting(w.now + 4 * 20))] && w'.running == w.running
      else
        w'.tasks == w.tasks - {k} && w'.running == w.running - {t.uuid}
  {
    hide LedgerAfter, Device;
    assert Happens(ws, es, i);
  }

  /** The options are taken over as they are stored, but for an interval below a minute. */
  lemma OptionsVerdict(ws: seq<World>, es: seq<Event>, i: nat)
    requires IsExecution(ws, es) && i < |es| && es[i].OptionsChange?
    ensures var o, o' := es[i].options, ws[i + 1].options;
      o' == ProbeOptions(o.enabled, if o.interval < 60 then 60 else o.interval, o.groups, o.video)
  {
    hide LedgerAfter;
    assert Happens(ws, es, i);
  }

  // ------------------------------------------------------------------ circuit

  /** How many timeouts in a row a log ends in, uncounted records aside. */
  function TimeoutsInARow(log: seq<Entry>): nat {
    if log == [] then 0
    else
      var r := log[|log| - 1].record;
      if r.outcome == Timeout then TimeoutsInARow(log[..|log| - 1]) + 1
      else if r.outcome == Unknown || r.outcome == SkippedBusy then TimeoutsInARow(log[..|log| - 1])
      else 0
  }

  lemma {:induction false} RowIsTrailing(log: seq<Entry>)
    ensures TimeoutsInARow(log) == TrailingTimeouts(Counted(log))
  {
    if log != [] {
      RowIsTrailing(log[..|log| - 1]);
      var before, r := Counted(log[..|log| - 1]), log[|log| - 1].record;
      if r.outcome != Unknown && r.outcome != SkippedBusy {
        assert Counted(log)[..|Counted(log)| - 1] == before;
      } else {
        assert Counted(log) == before;
      }
    }
  }

  /** What one call makes of the circuit. */
  ghost predicate CircuitMoves(h: Health, h': Health, now: Time, interval: nat) {
    var n := TimeoutsInARow(h'.log);
    if h'.log == h.log then h'.circuit == h.circuit
    else
      && |h'.log| == |h.log| + 1 && h'.log[..|h.log|] == h.log
      && var r := h'.log[|h.log|].record;
         h'.circuit ==
           if r.source != Probe then h.circuit
           else if r.outcome == Ok then None
           else if r.outcome == Timeout && n >= 2 then
             Some(now + 4 * (if interval * Pow2(n - 1) <= 3600 then interval * Pow2(n - 1) else 3600))
           else h.circuit
  }

  lemma StepCircuit(h: Health, t: Timed)
    requires Invariant(h) && t.interval.Some?
    ensures CircuitMoves(h, Step(h, t), t.now, t.interval.value)
  {
    hide Fifo, TimersExact, CountersExact, OwnRecords, Step, Counted, TrailingTimeouts, TimeoutsInARow;
    var h' := Step(h, t);
    StepKeeps(h, t);
    StepGrows(h, t);
    if h'.log == h.log {
      SilentStep(h, t);
    } else {
      StepEntry(h, t);
      RowIsTrailing(h'.log);
      assert h'.log[..|h'.log| - 1] == h.log;
    }
  }

  /** Main result: while the breaker listens, a probe that times out as the `n`-th timeout
      in a row, `n >= 2`, opens the circuit for exactly `interval * 2^(n-1)` seconds, or an
      hour if that is more; a probe's success closes it; and nothing else moves it. */
  lemma CircuitOpensFor(ws: seq<World>, es: seq<Event>, i: nat, u: Uuid)
    requires IsExecution(ws, es) && i < |es| && ws[i].ledger.listeners == SetUp
    ensures CircuitMoves(Device(ws[i].ledger, u), Device(ws[i + 1].ledger, u), ws[i].now, ws[i].options.interval)
  {
    assert |ws| == |es| + 1;
    hide *;
    EventStep(ws, es, i, u);
    var c := CallOn(ws[i], es[i], u);
    if c.Some? {
      assert SetUp[1] == BreakerListener;
      StepCircuit(Device(ws[i].ledger, u), TimedCall(ws[i], c.value));
    }
  }

  /** A step that logs nothing leaves the circuit alone. */
  lemma SilentStep(h: Health, t: Timed)
    requires Step(h, t).log == h.log
    ensures Step(h, t).circuit == h.circuit
  {
    hide Append;
  }

  lemma StepEntry(h: Health, t: Timed)
    requires |Step(h, t).log| == |h.log| + 1
    ensures Step(h, t).log[|h.log|].interval == t.interval && Step(h, t).log[|h.log|].record.resolvedAt == t.now
  {
    hide Append;
  }
}
