/** What one might expect of the protocol and does not get: each lemma says exactly when
    the expectation holds, or shows an interleaving that breaks it. */
module Limits {
  import opened Vocabulary
  import opened DeviceLedger
  import opened DeviceHistory
  import opened OkSoundness
  import opened Ledger
  import opened LedgerHistory
  import opened Protocol
  import opened ProtocolSafety
  import opened ProtocolTheorems
  import DD = DeadDevice
  import P = Projection

  // ------------------------------------------------- building interleavings

  /** Some interleaving leads from `start` to `w`, with the same options throughout. */
  ghost predicate Reached(start: World, w: World) {
    exists ws, es :: Leads(start, ws, es, w)
  }

  ghost predicate Leads(start: World, ws: seq<World>, es: seq<Event>, w: World) {
    && IsExecution(ws, es) && ws[0] == start && ws[|es|] == w
    && forall i :: 0 <= i < |ws| ==> ws[i].options == start.options
  }

  /** Nothing is under way, and nothing has happened yet to devices other than `u`. */
  ghost predicate Quiet(w: World, u: Uuid) {
    && w.ledger.listeners == SetUp && w.options.enabled
    && w.tasks == map[] && w.running == {} && w.plays == map[]
    && Others(w, u)
  }

  ghost predicate Others(w: World, u: Uuid) {
    forall v: Uuid :: v != u ==> Device(w.ledger, v) == Fresh(v)
  }

  /** A device that a cycle probes if the circuit lets it. */
  predicate Probable(s: Snapshot) {
    s.castType == Some(Audio) && !s.isAudioGroup && !Busy(s) && s.session.None?
  }

  function BeginAt(w: World, content: Content, source: Source): Timed {
    TimedCall(w, Begin(content, source, None, DELIVERY_TIMEOUT))
  }

  lemma StartIsQuiet(w: World, u: Uuid)
    requires IsStart(w) && w.options.enabled
    ensures Reached(w, w) && Quiet(w, u) && Device(w.ledger, u) == Fresh(u) && WorldInvariant(w) && w.now == 0
  {
    hide WorldInvariant;
    assert Leads(w, [w], [], w);
    StartInvariant(w);
    forall v: Uuid ensures Device(w.ledger, v) == Fresh(v) {
      FreshAgrees(w.ledger, v);
    }
  }

  lemma PathTo(start: World, w: World) returns (ws: seq<World>, es: seq<Event>)
    requires Reached(start, w)
    ensures Leads(start, ws, es, w)
  {
    ws, es :| Leads(start, ws, es, w);
  }

  /** An interleaving goes on. */
  lemma GoesOn(start: World, w: World, e: Event)
    requires Reached(start, w) && Enabled(w, e) && !e.OptionsChange?
    ensures Reached(start, Next(w, e)) && WorldInvariant(w) && WorldInvariant(Next(w, e))
  {
    hide Next, Enabled, IsStart, WorldInvariant;
    var ws, es :| Leads(start, ws, es, w);
    var ws', es' := ws + [Next(w, e)], es + [e];
    forall i | 0 <= i < |es'| ensures Happens(ws', es', i) {
      if i < |es| {
        assert Happens(ws, es, i);
      }
    }
    OptionsStay(w, e);
    assert Leads(start, ws', es', Next(w, e));
    Always(ws', es', |es|);
    Always(ws', es', |es| + 1);
  }

  lemma OptionsStay(w: World, e: Event)
    requires Enabled(w, e) && !e.OptionsChange?
    ensures Next(w, e).options == w.options
  {
    hide LedgerAfter, DecisionOf, StillWaiting, Quits, MayAdvanceTo;
  }

  /** One more event, about no device but `u`. */
  lemma Occurs(start: World, w: World, e: Event, u: Uuid)
    requires Reached(start, w) && Enabled(w, e) && Others(w, u)
    requires !e.Shutdown? && !e.OptionsChange? && (CallOf(w, e).Some? ==> CallOf(w, e).value.0 == u)
    ensures Reached(start, Next(w, e)) && WorldInvariant(Next(w, e)) && Others(Next(w, e), u)
    ensures !e.StopProbes? && !e.StopRepairs? ==> Next(w, e).ledger.listeners == w.ledger.listeners
    ensures Device(Next(w, e).ledger, u) ==
      if CallOf(w, e).Some? then Step(Device(w.ledger, u), TimedCall(w, CallOf(w, e).value.1)) else Device(w.ledger, u)
  {
    hide Next, Enabled, LedgerInvariant, Exclusive, TasksRight, PendingRight, Step, CallOf, Reached;
    GoesOn(start, w, e);
    StagesKept(w, e);
    DeviceAfter(w, e, u);
    forall v: Uuid | v != u ensures Device(Next(w, e).ledger, v) == Fresh(v) {
      DeviceAfter(w, e, v);
    }
    hide WorldInvariant;
  }

  /** What every segment of an interleaving leaves behind. */
  ghost predicate Arrives(start: World, w: World, w': World, u: Uuid, ticks: Time) {
    && Reached(start, w') && Quiet(w', u) && WorldInvariant(w')
    && w'.now == w.now + ticks && w'.options == w.options
  }

  /** A play is begun, and its executor job returns. */
  lemma PlayRun(start: World, w: World, u: Uuid, content: Content, source: Source) returns (w': World)
    requires Reached(start, w) && Quiet(w, u) && (source == PlayMedia || source == Announce)
    ensures Arrives(start, w, w', u, 0)
    ensures Device(w'.ledger, u) == Step(Device(w.ledger, u), BeginAt(w, content, source))
  {
    hide LedgerAfter, Step, Others, MayAdvanceTo, Reached, WorldInvariant;
    var e1, e2 := PlayBegins(u, content, source, None), PlayReturns(w.played);
    Occurs(start, w, e1, u);
    var w1 := Next(w, e1);
    Occurs(start, w1, e2, u);
    w' := Next(w1, e2);
    assert w'.plays == map[];
  }

  /** Time passes, but not past the timer of a pending request. */
  lemma WaitRun(start: World, w: World, u: Uuid, ticks: Time) returns (w': World)
    requires Reached(start, w) && Quiet(w, u)
    requires forall k :: k in Device(w.ledger, u).armed ==> w.now + ticks <= Device(w.ledger, u).armed[k]
    ensures Arrives(start, w, w', u, ticks)
    ensures Device(w'.ledger, u) == Device(w.ledger, u)
  {
    hide LedgerAfter, Step, Reached, WorldInvariant;
    MayWait(w, u, ticks);
    hide MayAdvanceTo, Others;
    Occurs(start, w, Advance(ticks), u);
    w' := Next(w, Advance(ticks));
  }

  lemma MayWait(w: World, u: Uuid, ticks: Time)
    requires Others(w, u) && w.plays == map[] && (forall i :: i in w.tasks ==> w.now + ticks <= Deadline(w.tasks[i].at))
    requires forall k :: k in Device(w.ledger, u).armed ==> w.now + ticks <= Device(w.ledger, u).armed[k]
    ensures MayAdvanceTo(w, w.now + ticks)
  {
    forall v, k | v in w.ledger.devices && k in w.ledger.devices[v].armed ensures w.now + ticks <= w.ledger.devices[v].armed[k] {
      assert Device(w.ledger, v) == w.ledger.devices[v];
    }
  }

  /** The timer of a request fires. */
  lemma ExpireRun(start: World, w: World, u: Uuid, k: nat) returns (w': World)
    requires Reached(start, w) && Quiet(w, u) && MayFire(Device(w.ledger, u), k, w.now)
    ensures Arrives(start, w, w', u, 0)
    ensures Device(w'.ledger, u) == Step(Device(w.ledger, u), TimedCall(w, Expire(k)))
  {
    hide LedgerAfter, Step, Others, MayFire, Reached, WorldInvariant;
    Occurs(start, w, TimerFires(u, k), u);
    w' := Next(w, TimerFires(u, k));
  }

  /** A status of device `u` arrives. */
  lemma StatusRun(start: World, w: World, u: Uuid, status: Status) returns (w': World)
    requires Reached(start, w) && Quiet(w, u)
    ensures Arrives(start, w, w', u, 0)
    ensures Device(w'.ledger, u) == Step(Device(w.ledger, u), TimedCall(w, MediaStatus(status)))
  {
    hide LedgerAfter, Step, Others, Reached, WorldInvariant;
    Occurs(start, w, DeviceStatus(u, status), u);
    w' := Next(w, DeviceStatus(u, status));
  }

  predicate MayProbe(h: Health, now: Time) {
    h.circuit.None? || h.circuit.value <= now
  }

  /** From a quiet state the probe of device `u` has been launched. */
  ghost predicate Launching(w: World, w': World, u: Uuid, s: Snapshot) {
    && w'.ledger.listeners == SetUp && w'.options == w.options && w'.options.enabled && w'.now == w.now
    && w'.plays == map[] && Others(w', u) && w'.running == {u} && w'.tasks.Keys == {w.spawned}
    && var t := w'.tasks[w.spawned];
       && t.uuid == u && t.snapshot == s && t.at == InExecutor(w.now + PROBE_WATCHDOG)
  }

  lemma LaunchRun(start: World, w: World, u: Uuid, s: Snapshot) returns (w': World)
    requires Reached(start, w) && Quiet(w, u) && Probable(s) && MayProbe(Device(w.ledger, u), w.now)
    ensures Reached(start, w') && WorldInvariant(w') && Launching(w, w', u, s)
    ensures Enabled(w, Decide(u, Some(s), "clip")) && w' == Next(w, Decide(u, Some(s), "clip"))
    ensures Device(w'.ledger, u) == Step(Device(w.ledger, u), BeginAt(w, "clip", Probe))
  {
    hide LedgerAfter, Step, Others, Busy, Device, Reached, WorldInvariant;
    var e := Decide(u, Some(s), "clip");
    assert DecisionOf(w, u, Some(s)) == Launch;
    Occurs(start, w, e, u);
    w' := Next(w, e);
  }

  /** The exception of an expired watchdog. */
  const WatchdogError := Exception(TimeoutClass, None)

  /** A probe is launched, and its watchdog expires 20 s later. */
  lemma ProbeTimesOut(start: World, w: World, u: Uuid, s: Snapshot) returns (w': World)
    requires Reached(start, w) && WorldInvariant(w) && Quiet(w, u) && Probable(s) && MayProbe(Device(w.ledger, u), w.now)
    requires Device(w.ledger, u).pending.None?
    ensures Arrives(start, w, w', u, PROBE_WATCHDOG)
    ensures Device(w'.ledger, u) ==
      Step(Step(Device(w.ledger, u), BeginAt(w, "clip", Probe)), TimedCall(w', RequestFailed(WatchdogError, false, false)))
  {
    hide LedgerAfter, Step, Busy, Reached, LedgerInvariant, Exclusive, TasksRight, PendingRight;
    var w1 := LaunchRun(start, w, u, s);
    LedgerDevice(w.ledger, u);
    ProbeArmed(Device(w.ledger, u), BeginAt(w, "clip", Probe));
    hide WorldInvariant;
    var e2, e3 := Advance(PROBE_WATCHDOG), ProbeRaises(w.spawned, WatchdogError);
    MayWait(w1, u, PROBE_WATCHDOG);
    hide MayAdvanceTo, Others;
    Occurs(start, w1, e2, u);
    var w2 := Next(w1, e2);
    Occurs(start, w2, e3, u);
    w' := Next(w2, e3);
  }

  lemma ProbeArmed(h: Health, t: Timed)
    requires Invariant(h) && h.pending.None? && t.call.Begin?
    ensures Step(h, t).armed == map[|h.begun| := t.now + t.call.timeout]
  {
    hide LogExact, Fifo;
  }

  // ------------------------------------------------------- single steps

  lemma NothingAnswered()
    ensures Answers([]) == [] && Counted([]) == []
  {
  }

  lemma BeginIdleStep(h: Health, t: Timed)
    requires t.call.Begin? && h.pending.None?
    ensures Step(h, t).log == h.log && PendsAs(Step(h, t), |h.begun|, RequestOf(t)) && Step(h, t).pending.value.cancelable
    ensures Step(h, t) == h.(pending := Step(h, t).pending, armed := Step(h, t).armed, begun := h.begun + [RequestOf(t)])
  {
  }

  /** What becomes of a pending request that times out. */
  ghost predicate TimesOut(h: Health, h': Health) {
    && h.pending.Some? && h'.pending.None? && h'.begun == h.begun && h'.timeouts == h.timeouts + 1
    && |h'.log| == |h.log| + 1
    && var r := h'.log[|h.log|].record;
       && r.outcome == Timeout && r.source == h.pending.value.request.source
       && Answers(h'.log) == Answers(h.log) + [r] && Counted(h'.log) == Counted(h.log) + [r]
  }

  lemma ExpireStep(h: Health, t: Timed)
    requires t.call.Expire? && PendingIs(h, t.call.ordinal)
    ensures TimesOut(h, Step(h, t))
    ensures h.pending.value.request.source != Probe ==> Step(h, t).circuit == h.circuit
  {
    var f := Fired(h, t.call.ordinal);
    AppendReadings(Detach(f), ResolutionRecord(f, Timeout, false, None, None, t.now), t.interval);
  }

  lemma WatchdogStep(h: Health, t: Timed)
    requires t.call == RequestFailed(WatchdogError, false, false) && h.pending.Some? && t.interval.Some?
    ensures TimesOut(h, Step(h, t))
    ensures Step(h, t).circuit ==
      if h.pending.value.request.source == Probe && h.timeouts + 1 >= CIRCUIT_BREAKER_TIMEOUTS then
        Some(t.now + 4 * Doubled(t.interval.value, h.timeouts + 1))
      else h.circuit
  {
    AppendReadings(Detach(h), ResolutionRecord(h, Timeout, false, None, None, t.now), t.interval);
  }

  lemma ConfirmedStep(h: Health, t: Timed)
    requires h.pending.Some? && t.call.MediaStatus? && Confirms(t.call.status, h.pending.value.request)
    ensures var h' := Step(h, t);
      && h'.pending.None? && h'.lastRecord.Some? && h'.lastRecord.value.outcome == Ok
      && |h'.log| == |h.log| + 1 && h'.log[|h.log|].record == h'.lastRecord.value
      && |Answers(h'.log)| == |Answers(h.log)| + 1 && Answers(h'.log)[..|Answers(h.log)|] == Answers(h.log)
      && Answers(h'.log)[|Answers(h.log)|].outcome == Ok
  {
    AppendReadings(Detach(h), ResolutionRecord(h, Ok, true, Some(t.call.status), None, t.now), t.interval);
  }

  // ------------------------------------------------------- template failures

  /** A message that cannot be rendered was never sent, yet its record answers the
      pending request exactly if that request is an earlier announcement. */
  lemma TemplateFailureAnswersAnnouncement(h: Health, t: Timed)
    requires Fifo(h) && h.pending.Some? && t.call == RecordOutcome(TemplateError, Announce, None, false)
    ensures var h' := Step(h, t);
      && (h'.pending.None? <==> PendingFrom(h, Announce))
      && (|Answers(h'.log)| > |Answers(h.log)| <==> PendingFrom(h, Announce))
      && h'.lastRecord.Some? && h'.lastRecord.value.outcome == TemplateError
      && h'.lastRecord.value.content == if PendingFrom(h, Announce) then Some(h.pending.value.request.content) else None
  {
    AppendReadings(Detach(h), ResolutionRecord(h, TemplateError, false, None, None, t.now), t.interval);
    AppendReadings(h, PlainRecord(h, TemplateError, Announce, None, false, t.now), t.interval);
  }

  /** An announcement, and another whose message cannot be rendered while the device has
      not answered yet: the first is recorded as the template error. */
  lemma AnnouncementRun(start: World, u: Uuid, content: Content) returns (ws: seq<World>, es: seq<Event>)
    requires IsStart(start) && start.options.enabled
    ensures IsExecution(ws, es) && ws[0] == start
    ensures var h := Device(ws[|es|].ledger, u);
      && h.pending.None? && |h.begun| == 1 && h.begun[0].content == content
      && |Answers(h.log)| == 1 && Answers(h.log)[0].outcome == TemplateError && Answers(h.log)[0].content == Some(content)
  {
    hide LedgerAfter, Step, Others, WorldInvariant, IsStart, Answers, Fifo, IsExecution;
    StartIsQuiet(start, u);
    var w1 := PlayRun(start, start, u, content, Announce);
    var e := TemplateFailed(u);
    Occurs(start, w1, e, u);
    AnnouncementLost(Fresh(u), BeginAt(start, content, Announce), TimedCall(w1, CallOf(w1, e).value.1));
    ws, es := PathTo(start, Next(w1, e));
  }

  lemma AnnouncementLost(h: Health, t: Timed, f: Timed)
    requires h == Fresh(h.uuid) && t.call.Begin? && t.call.source == Announce
    requires f.call == RecordOutcome(TemplateError, Announce, None, false)
    ensures var h' := Step(Step(h, t), f);
      && h'.pending.None? && h'.begun == [RequestOf(t)]
      && |Answers(h'.log)| == 1 && Answers(h'.log)[0].outcome == TemplateError && Answers(h'.log)[0].content == Some(t.call.content)
  {
    BeginIdleStep(h, t);
    var h1 := Step(h, t);
    hide Step;
    AppendReadings(Detach(h1), ResolutionRecord(h1, TemplateError, false, None, None, f.now), f.interval);
    TemplateStep(h1, f);
  }

  lemma TemplateStep(h: Health, f: Timed)
    requires f.call == RecordOutcome(TemplateError, Announce, None, false) && PendingFrom(h, Announce)
    ensures Step(h, f) == Append(Detach(h), ResolutionRecord(h, TemplateError, false, None, None, f.now), f.interval)
  {
  }

  // ------------------------------------------------------------- the circuit

  /** A probe that times out opens the circuit exactly if the record that counted last was
      a timeout too, of whatever source. */
  lemma ProbeTimeoutOpensIff(h: Health, t: Timed)
    requires Invariant(h) && PendingFrom(h, Probe) && t.interval.Some?
    requires t.call == Expire(h.pending.value.ordinal)
    ensures var counted := Counted(h.log);
      Step(h, t).circuit ==
        if counted != [] && counted[|counted| - 1].outcome == Timeout then
          Some(t.now + 4 * Doubled(t.interval.value, h.timeouts + 1))
        else h.circuit
  {
    hide Fifo, CircuitOf, OwnRecords, TimersExact;
    if h.timeouts + 1 >= CIRCUIT_BREAKER_TIMEOUTS {
      BackoffIsDoubled(t.interval.value, h.timeouts + 1);
    }
    hide Backoff, Doubled;
    assert TimeoutsAtEnd(Counted(h.log), h.timeouts);
  }

  /** So one timeout of a user's request and one of a probe open the circuit: two probe
      timeouts in a row are not needed. */
  lemma OneProbeTimeoutCanOpen(start: World, u: Uuid, s: Snapshot) returns (ws: seq<World>, es: seq<Event>)
    requires IsStart(start) && start.options.enabled && Probable(s)
    ensures IsExecution(ws, es) && ws[0] == start && Device(ws[|es|].ledger, u).circuit.Some?
    ensures var answers := Answers(Device(ws[|es|].ledger, u).log);
      |answers| == 2 && answers[0].source == PlayMedia && answers[1].source == Probe
  {
    hide LedgerAfter, Step, Others, WorldInvariant, IsStart, Answers, Counted, Reached, Busy, IsExecution, Invariant;
    StartIsQuiet(start, u);
    var t0 := BeginAt(start, "song", PlayMedia);
    var w1 := PlayRun(start, start, u, "song", PlayMedia);
    BeginIdleStep(Fresh(u), t0);
    FreshKeeps(u);
    ProbeArmed(Fresh(u), t0);
    var w2 := WaitRun(start, w1, u, DELIVERY_TIMEOUT);
    var w3 := ExpireRun(start, w2, u, 0);
    ExpireStep(Device(w2.ledger, u), TimedCall(w2, Expire(0)));
    var w4 := ProbeTimesOut(start, w3, u, s);
    var h3, t3 := Device(w3.ledger, u), BeginAt(w3, "clip", Probe);
    BeginIdleStep(h3, t3);
    AttachedInterval(w4);
    WatchdogStep(Step(h3, t3), TimedCall(w4, RequestFailed(WatchdogError, false, false)));
    NothingAnswered();
    ws, es := PathTo(start, w4);
  }

  lemma AttachedInterval(w: World)
    requires w.ledger.listeners == SetUp
    ensures BreakerInterval(w.ledger, w.options.interval) == Some(w.options.interval)
  {
    assert SetUp[1] == BreakerListener;
  }

  /** A success clears the timeouts but closes an open circuit only if it is a probe's. */
  lemma SuccessClosesCircuitIffProbe(h: Health, t: Timed)
    requires h.pending.Some? && h.circuit.Some? && t.interval.Some?
    requires t.call.MediaStatus? && Confirms(t.call.status, h.pending.value.request)
    ensures Step(h, t).timeouts == 0 && Step(h, t).failures == 0
    ensures Step(h, t).circuit == if h.pending.value.request.source == Probe then None else h.circuit
  {
  }

  /** Two probes time out, and then a user's request is confirmed: the counters are
      cleared, and the circuit is still open. */
  lemma UserSuccessRun(start: World, u: Uuid, s: Snapshot) returns (ws: seq<World>, es: seq<Event>)
    requires IsStart(start) && start.options.enabled && Probable(s)
    ensures IsExecution(ws, es) && ws[0] == start
    ensures var h := Device(ws[|es|].ledger, u);
      && h.lastOutcome == Ok && h.timeouts == 0 && h.failures == 0
      && h.circuit.Some? && h.circuit.value > ws[|es|].now
  {
    hide LedgerAfter, Step, Others, WorldInvariant, IsStart, Reached, Busy, IsExecution, Confirms, TimesOut;
    StartIsQuiet(start, u);
    var w1 := ProbeTimesOut(start, start, u, s);
    ProbeTimeout(Device(start.ledger, u), BeginAt(start, "clip", Probe), start, w1);
    MinimumInterval(start);
    TimerOfNothing(w1, u);
    var w2 := WaitRun(start, w1, u, w1.options.interval * SECOND - PROBE_WATCHDOG);
    var w3 := ProbeTimesOut(start, w2, u, s);
    ProbeTimeout(Device(w2.ledger, u), BeginAt(w2, "clip", Probe), w2, w3);
    var w4 := PlayRun(start, w3, u, "song", PlayMedia);
    var h3, t3 := Device(w3.ledger, u), BeginAt(w3, "song", PlayMedia);
    BeginIdleStep(h3, t3);
    var status := Status(Some("song"), Some(Playing), None, None, false);
    var w5 := StatusRun(start, w4, u, status);
    AttachedInterval(w4);
    SongConfirmed(Device(w4.ledger, u), TimedCall(w4, MediaStatus(status)));
    BackoffIsLong(w3.options.interval, 2);
    ws, es := PathTo(start, w5);
  }

  lemma MinimumInterval(w: World)
    requires WorldInvariant(w)
    ensures w.options.interval >= MIN_PROBE_INTERVAL
  {
  }

  lemma BackoffIsLong(interval: nat, n: nat)
    requires interval >= MIN_PROBE_INTERVAL && n >= 2
    ensures Doubled(interval, n) >= MIN_PROBE_INTERVAL
  {
    Pow2Monotone(0, n - 1);
    DD.MulMonotone(MIN_PROBE_INTERVAL, interval, 1, Pow2(n - 1));
  }

  lemma TimerOfNothing(w: World, u: Uuid)
    requires WorldInvariant(w) && Device(w.ledger, u).pending.None?
    ensures Device(w.ledger, u).armed == map[]
  {
    LedgerDevice(w.ledger, u);
  }

  /** A probe that is launched and times out, from the device's point of view. */
  lemma ProbeTimeout(h: Health, t: Timed, w: World, w': World)
    requires h.pending.None? && t.call.Begin? && t.call.source == Probe && w'.ledger.listeners == SetUp
    ensures var h' := Step(Step(h, t), TimedCall(w', RequestFailed(WatchdogError, false, false)));
      && h'.pending.None? && h'.timeouts == h.timeouts + 1
      && h'.circuit == if h.timeouts + 1 >= CIRCUIT_BREAKER_TIMEOUTS then
                         Some(w'.now + 4 * Doubled(w'.options.interval, h.timeouts + 1))
                       else h.circuit
  {
    hide Step, Answers, Counted;
    BeginIdleStep(h, t);
    AttachedInterval(w');
    WatchdogStep(Step(h, t), TimedCall(w', RequestFailed(WatchdogError, false, false)));
  }

  lemma SongConfirmed(h: Health, t: Timed)
    requires h.pending.Some? && h.circuit.Some? && t.interval.Some?
    requires t.call == MediaStatus(Status(Some("song"), Some(Playing), None, None, false))
    requires h.pending.value.request.content == "song" && h.pending.value.request.session.None?
    requires h.pending.value.request.source == PlayMedia
    ensures var h' := Step(h, t);
      h'.lastOutcome == Ok && h'.timeouts == 0 && h'.failures == 0 && h'.circuit == h.circuit
  {
  }

  // ------------------------------------------------------------ dead devices

  /** A request of user or probe takes the place of the pending one. */
  lemma SupersedingStep(h: Health, t: Timed)
    requires t.call.Begin? && DD.Dead(h) && h.circuit.None?
    ensures var h' := Step(h, t);
      && DD.Dead(h') && h'.circuit.None? && h'.begun == h.begun + [RequestOf(t)]
      && PendingFrom(h', t.call.source)
      && h'.pending.value.request == RequestOf(t) && h'.pending.value.cancelable
      && (h.pending.Some? ==> h'.lastRecord.Some? && h'.lastRecord.value.outcome == Unknown)
  {
  }

  /** A minute of a device whose probes are always superseded: `n` probes have been
      launched, and the request of a user has been pending for `since` ticks. */
  ghost predicate Harried(w: World, u: Uuid, n: nat, since: Time) {
    var h := Device(w.ledger, u);
    && DD.Dead(h) && h.circuit.None?
    && DD.LaunchesBy(h.begun, w.now) >= n
    && (h.pending.Some? ==> PendingFrom(h, PlayMedia))
    && (forall k :: k in h.armed ==> h.armed[k] + since == w.now + DELIVERY_TIMEOUT)
  }

  lemma ArmedOnce(h: Health, at: Time)
    requires Invariant(h) && h.pending.Some? && h.pending.value.request.requestedAt == at
    requires h.pending.value.request.timeout == DELIVERY_TIMEOUT
    ensures forall k :: k in h.armed ==> h.armed[k] == at + DELIVERY_TIMEOUT
  {
    hide LogExact, Fifo;
  }

  lemma {:induction false} LaterLaunches(begun: seq<Request>, now: Time, later: Time)
    requires now <= later
    ensures DD.LaunchesBy(begun, now) <= DD.LaunchesBy(begun, later)
  {
    if begun != [] {
      LaterLaunches(begun[..|begun| - 1], now, later);
    }
  }

  lemma OneMoreRequest(begun: seq<Request>, q: Request, now: Time)
    ensures DD.LaunchesBy(begun + [q], now) ==
      DD.LaunchesBy(begun, now) + if q.source == Probe && q.requestedAt <= now then 1 else 0
  {
    assert (begun + [q])[..|begun|] == begun;
  }

  /** A user's request supersedes the pending one. */
  lemma PlayAgain(start: World, w: World, u: Uuid, n: nat, since: Time) returns (w': World)
    requires Reached(start, w) && Quiet(w, u) && Harried(w, u, n, since)
    ensures Arrives(start, w, w', u, 0) && Harried(w', u, n, 0)
  {
    hide LedgerAfter, Step, Others, Reached, DD.Dead, LedgerInvariant, Exclusive, TasksRight, PendingRight, Invariant;
    w' := PlayRun(start, w, u, "song", PlayMedia);
    var h, t := Device(w.ledger, u), BeginAt(w, "song", PlayMedia);
    SupersedingStep(h, t);
    OneMoreRequest(h.begun, RequestOf(t), w.now);
    LedgerDevice(w'.ledger, u);
    ArmedOnce(Device(w'.ledger, u), w.now);
  }

  lemma KeepsWaiting(start: World, w: World, u: Uuid, n: nat, ticks: Time) returns (w': World)
    requires Reached(start, w) && Quiet(w, u) && Harried(w, u, n, 0) && ticks <= DELIVERY_TIMEOUT
    ensures Arrives(start, w, w', u, ticks) && Harried(w', u, n, ticks)
  {
    hide Reached, DD.Dead, WorldInvariant, Others;
    w' := WaitRun(start, w, u, ticks);
    LaterLaunches(Device(w.ledger, u).begun, w.now, w'.now);
  }

  /** A probe is launched and superseded at once; its executor job then returns. */
  lemma SupersededRun(start: World, w: World, u: Uuid, s: Snapshot) returns (w1: World, w': World)
    requires Reached(start, w) && Quiet(w, u) && Probable(s) && MayProbe(Device(w.ledger, u), w.now)
    requires DD.Dead(Device(w.ledger, u)) && Device(w.ledger, u).circuit.None?
    ensures Arrives(start, w, w', u, 0) && w1.now == w.now
    ensures Device(w1.ledger, u) == Step(Device(w.ledger, u), BeginAt(w, "clip", Probe))
    ensures Device(w'.ledger, u) == Step(Device(w1.ledger, u), BeginAt(w1, "song", PlayMedia))
  {
    hide LedgerAfter, Step, Others, Reached, DD.Dead, WorldInvariant, Busy, MayAdvanceTo;
    w1 := LaunchRun(start, w, u, s);
    SupersedingStep(Device(w.ledger, u), BeginAt(w, "clip", Probe));
    SupersedingStep(Device(w1.ledger, u), BeginAt(w1, "song", PlayMedia));
    var e2, e3, e4 := PlayBegins(u, "song", PlayMedia, None), PlayReturns(w1.played), ProbeReturns(w.spawned);
    Occurs(start, w1, e2, u);
    var w2 := Next(w1, e2);
    Occurs(start, w2, e3, u);
    var w3 := Next(w2, e3);
    PollEnds(w3, w.spawned, u);
    Occurs(start, w3, e4, u);
    w' := Next(w3, e4);
    assert w'.tasks == map[] && w'.running == {};
  }

  lemma ProbeSuperseded(start: World, w: World, u: Uuid, s: Snapshot, n: nat, since: Time) returns (w': World)
    requires Reached(start, w) && Quiet(w, u) && Harried(w, u, n, since) && Probable(s)
    ensures Arrives(start, w, w', u, 0) && Harried(w', u, n + 1, 0)
  {
    hide Step, Others, Reached, DD.Dead, LedgerInvariant, Exclusive, TasksRight, PendingRight, Invariant, Busy, Quiet, DD.LaunchesBy;
    var w1: World;
    w1, w' := SupersededRun(start, w, u, s);
    var t, t1 := BeginAt(w, "clip", Probe), BeginAt(w1, "song", PlayMedia);
    SupersedingStep(Device(w.ledger, u), t);
    SupersedingStep(Device(w1.ledger, u), t1);
    OneMoreRequest(Device(w.ledger, u).begun, RequestOf(t), w.now);
    OneMoreRequest(Device(w1.ledger, u).begun, RequestOf(t1), w.now);
    LedgerDevice(w'.ledger, u);
    ArmedOnce(Device(w'.ledger, u), w.now);
  }

  /** A probe whose request another one has superseded is finished at its next poll. */
  lemma PollEnds(w: World, i: nat, u: Uuid)
    requires i in w.tasks && w.tasks[i].uuid == u && w.tasks[i].at.InExecutor?
    requires var h := Device(w.ledger, u);
      !PendingFrom(h, Probe) && h.lastRecord.Some? && h.lastRecord.value.outcome == Unknown
    ensures Enabled(w, ProbeReturns(i)) && Next(w, ProbeReturns(i)) == Finished(w, i)
  {
  }

  /** The superseded probes have to be excepted from the bound on the probes of a dead
      device: if every minute a probe is superseded by a user's request, and that by others
      every twenty seconds, there are as many probes as minutes, and nothing counts. */
  lemma {:induction false} HarriedFor(start: World, u: Uuid, s: Snapshot, n: nat) returns (w: World)
    requires IsStart(start) && start.options.enabled && Probable(s)
    ensures Reached(start, w) && Quiet(w, u) && Harried(w, u, n, 20 * SECOND)
    ensures w.now == MIN_PROBE_INTERVAL * SECOND * n && w.options == start.options
  {
    hide Reached, Others, WorldInvariant, Harried, IsStart, Probable;
    if n == 0 {
      StartIsQuiet(start, u);
      StartIsHarried(start, u);
      w := start;
    } else {
      var w0 := HarriedFor(start, u, s, n - 1);
      var w1 := ProbeSuperseded(start, w0, u, s, n - 1, 20 * SECOND);
      var w2 := KeepsWaiting(start, w1, u, n, 20 * SECOND);
      var w3 := PlayAgain(start, w2, u, n, 20 * SECOND);
      var w4 := KeepsWaiting(start, w3, u, n, 20 * SECOND);
      var w5 := PlayAgain(start, w4, u, n, 20 * SECOND);
      w := KeepsWaiting(start, w5, u, n, 20 * SECOND);
    }
  }

  lemma StartIsHarried(w: World, u: Uuid)
    requires Device(w.ledger, u) == Fresh(u)
    ensures Harried(w, u, 0, 20 * SECOND)
  {
  }

  /** Main result of this section: an interleaving of `n` minutes with `n` probes. */
  lemma SupersededProbesAreUnbounded(start: World, u: Uuid, s: Snapshot, n: nat) returns (ws: seq<World>, es: seq<Event>)
    requires IsStart(start) && start.options.enabled && start.options.interval == MIN_PROBE_INTERVAL && Probable(s)
    ensures IsExecution(ws, es) && ws[0] == start && P.FixedInterval(ws, |es|, start.options.interval)
    ensures var w := ws[|es|];
      && w.now == MIN_PROBE_INTERVAL * SECOND * n && w.ledger.listeners == SetUp
      && DD.Dead(Device(w.ledger, u)) && DD.LaunchesBy(Device(w.ledger, u).begun, w.now) >= n
  {
    hide Reached, DD.Dead, Happens, IsStart, Probable;
    var w := HarriedFor(start, u, s, n);
    ws, es := PathTo(start, w);
  }

  // ---------------------------------------------------------- quitting the app

  /** The probe's own request was superseded by a newer one. */
  ghost predicate WasSuperseded(h: Health, t: Task) {
    var answers := Answers(h.log);
    t.ordinal < |answers| && answers[t.ordinal].source == Probe && answers[t.ordinal].outcome == Unknown
  }

  /** The device's last record decides whether a probe quits the app, not the probe's own:
      if a user's request supersedes the probe of an idle device and any request succeeds
      thereafter, and nothing more is recorded until the probe stops waiting, then it
      quits the app, whatever else happens in between. */
  lemma ForeignSuccessQuitsApp(ws: seq<World>, es: seq<Event>, k: nat, m: nat, j: nat, i: nat)
    requires IsExecution(ws, es) && k < m < j < |es|
    requires i in ws[k].tasks && ws[k].tasks[i].snapshot.appIdle && i in ws[j].tasks
    requires es[k].PlayBegins? && es[k].uuid == ws[k].tasks[i].uuid && PendingFrom(Device(ws[k].ledger, es[k].uuid), Probe)
    requires es[m].DeviceStatus? && es[m].uuid == es[k].uuid && Device(ws[m].ledger, es[m].uuid).pending.Some?
    requires Confirms(es[m].status, Device(ws[m].ledger, es[m].uuid).pending.value.request)
    requires Device(ws[j].ledger, es[m].uuid).log == Device(ws[m + 1].ledger, es[m].uuid).log
    requires es[j] == ProbeReturns(i) || es[j] == ProbeWakes(i)
    ensures i in ws[j + 1].tasks && ws[j + 1].tasks[i].at.Quitting?
    ensures WasSuperseded(Device(ws[j].ledger, es[k].uuid), ws[j].tasks[i])
  {
    hide Happens, Answers, Confirms, StillWaiting;
    TaskStays(ws, es, k, j, i);
    SupersededAt(ws, es, k, i);
    AnswersStay(ws, es, k + 1, j, es[k].uuid);
    SuccessAt(ws, es, m, j);
    AnsweredNotWaiting(ws, es, j, i);
    var own := P.IdleRestoration(ws, es, j, i);
  }

  lemma SupersededAt(ws: seq<World>, es: seq<Event>, k: nat, i: nat)
    requires IsExecution(ws, es) && k < |es| && i in ws[k].tasks
    requires es[k].PlayBegins? && es[k].uuid == ws[k].tasks[i].uuid && PendingFrom(Device(ws[k].ledger, es[k].uuid), Probe)
    ensures WasSuperseded(Device(ws[k + 1].ledger, es[k].uuid), ws[k].tasks[i])
  {
    hide LedgerInvariant, Exclusive, TasksRight, PendingRight, Step, Answers, Next, Enabled, LogExact, TimersExact;
    var w, e, u := ws[k], es[k], es[k].uuid;
    Always(ws, es, k);
    assert Happens(ws, es, k);
    WaiterOwns(w, i);
    LedgerDevice(w.ledger, u);
    DeviceAfter(w, e, u);
    assert Fifo(Device(w.ledger, u));
    SupersededAnswer(Device(w.ledger, u), TimedCall(w, CallOn(w, e, u).value));
  }

  /** A newer request answers the pending one as superseded. */
  lemma SupersededAnswer(h: Health, t: Timed)
    requires h.pending.Some? && t.call.Begin?
    ensures var a, a' := Answers(h.log), Answers(Step(h, t).log);
      |a'| == |a| + 1 && a'[|a|].outcome == Unknown && a'[|a|].source == h.pending.value.request.source
  {
    AppendReadings(Detach(h), ResolutionRecord(h, Unknown, false, None, None, t.now), t.interval);
  }

  lemma SuccessAt(ws: seq<World>, es: seq<Event>, m: nat, j: nat)
    requires IsExecution(ws, es) && m < j < |es| && es[m].DeviceStatus?
    requires Device(ws[m].ledger, es[m].uuid).pending.Some?
    requires Confirms(es[m].status, Device(ws[m].ledger, es[m].uuid).pending.value.request)
    requires Device(ws[j].ledger, es[m].uuid).log == Device(ws[m + 1].ledger, es[m].uuid).log
    ensures P.LastIsOk(Device(ws[j].ledger, es[m].uuid))
  {
    hide LedgerInvariant, Exclusive, TasksRight, PendingRight, Step, Answers, Next, Enabled, Fifo, TimersExact, Confirms;
    var w, e, u := ws[m], es[m], es[m].uuid;
    Always(ws, es, m);
    Always(ws, es, j);
    assert Happens(ws, es, m);
    DeviceAfter(w, e, u);
    ConfirmedStep(Device(w.ledger, u), TimedCall(w, CallOn(w, e, u).value));
    LedgerDevice(ws[j].ledger, u);
    assert CountersExact(Device(ws[j].ledger, u));
  }

  /** A probe whose request has been answered is not waiting any more. */
  lemma AnsweredNotWaiting(ws: seq<World>, es: seq<Event>, j: nat, i: nat)
    requires IsExecution(ws, es) && j < |ws| && i in ws[j].tasks
    requires WasSuperseded(Device(ws[j].ledger, ws[j].tasks[i].uuid), ws[j].tasks[i])
    ensures !StillWaiting(ws[j], i)
  {
    hide LedgerInvariant, Exclusive, TasksRight, PendingRight, Answers, LogExact, TimersExact, Happens;
    Always(ws, es, j);
    LedgerDevice(ws[j].ledger, ws[j].tasks[i].uuid);
    assert Fifo(Device(ws[j].ledger, ws[j].tasks[i].uuid));
    if StillWaiting(ws[j], i) {
      WaiterOwns(ws[j], i);
      assert false;
    }
  }

  /** What a device has logged stays logged. */
  lemma {:induction false} LogsStay(ws: seq<World>, es: seq<Event>, k: nat, j: nat, u: Uuid)
    requires IsExecution(ws, es) && k <= j < |ws|
    ensures Device(ws[k].ledger, u).log <= Device(ws[j].ledger, u).log
    decreases j
  {
    if k < j {
      hide LedgerInvariant, Exclusive, TasksRight, PendingRight, Step, Next, Enabled, CallOn;
      LogsStay(ws, es, k, j - 1, u);
      Always(ws, es, j - 1);
      assert Happens(ws, es, j - 1);
      var w, e := ws[j - 1], es[j - 1];
      DeviceAfter(w, e, u);
      if CallOn(w, e, u).Some? {
        StepGrows(Device(w.ledger, u), TimedCall(w, CallOn(w, e, u).value));
      }
    }
  }

  lemma {:induction false} AnswersPrefix(a: seq<Entry>, b: seq<Entry>)
    requires a <= b
    ensures Answers(a) <= Answers(b)
    decreases |b|
  {
    if a != b {
      AnswersPrefix(a, b[..|b| - 1]);
    }
  }

  lemma AnswersStay(ws: seq<World>, es: seq<Event>, k: nat, j: nat, u: Uuid)
    requires IsExecution(ws, es) && k <= j < |ws|
    ensures Answers(Device(ws[k].ledger, u).log) <= Answers(Device(ws[j].ledger, u).log)
  {
    hide Happens, Answers;
    LogsStay(ws, es, k, j, u);
    AnswersPrefix(Device(ws[k].ledger, u).log, Device(ws[j].ledger, u).log);
  }

  /** Tasks are numbered in the order of their launch, and numbers are never used again. */
  lemma {:induction false} TaskStays(ws: seq<World>, es: seq<Event>, k: nat, j: nat, i: nat)
    requires IsExecution(ws, es) && k <= j < |ws| && i in ws[k].tasks
    ensures i < ws[j].spawned
    ensures i in ws[j].tasks ==> ws[j].tasks[i] == ws[k].tasks[i].(at := ws[j].tasks[i].at)
    decreases j
  {
    hide LedgerInvariant, TasksRight, PendingRight, Next, Enabled;
    Always(ws, es, j);
    if k < j {
      TaskStays(ws, es, k, j - 1, i);
      Always(ws, es, j - 1);
      assert Happens(ws, es, j - 1);
      var w, e := ws[j - 1], es[j - 1];
      NumbersGrow(w, e);
      if i in ws[j].tasks {
        if i in w.tasks {
          TaskKept(w, e, i);
        } else {
          TaskIsNew(w, e, i);
        }
      }
    }
  }

  lemma NumbersGrow(w: World, e: Event)
    requires Enabled(w, e)
    ensures w.spawned <= Next(w, e).spawned
  {
    hide LedgerAfter, DecisionOf, StillWaiting, Quits, MayAdvanceTo;
  }

  const SongPlays := Status(Some("song"), Some(Playing), None, None, false)
  const ClipPlays := Status(Some("clip"), Some(Playing), None, None, false)
  const ClipFails := Status(Some("clip"), Some(Idle), Some(IdleError), None, true)

  /** Such an interleaving: a probe, a play, the play's success, and the probe's poll. */
  lemma QuitRun(start: World, u: Uuid, s: Snapshot) returns (ws: seq<World>, es: seq<Event>)
    requires IsStart(start) && start.options.enabled && Probable(s) && s.appIdle
    ensures IsExecution(ws, es) && ws[0] == start && |es| == 4 && start.spawned in ws[4].tasks
    ensures ws[4].tasks[start.spawned].at.Quitting?
    ensures start.spawned in ws[1].tasks && WasSuperseded(Device(ws[4].ledger, u), ws[1].tasks[start.spawned])
  {
    hide LedgerAfter, Step, Others, WorldInvariant, IsStart, Reached, Busy, Answers, Quits, MayAdvanceTo, WasSuperseded;
    StartIsQuiet(start, u);
    var w1 := LaunchRun(start, start, u, s);
    var i := start.spawned;
    var e0, e1, e2, e3 := Decide(u, Some(s), "clip"), PlayBegins(u, "song", PlayMedia, None), DeviceStatus(u, SongPlays), ProbeReturns(i);
    Occurs(start, w1, e1, u);
    var w2 := Next(w1, e1);
    Occurs(start, w2, e2, u);
    var w3 := Next(w2, e2);
    var w4 := Next(w3, e3);
    SongSucceeds(Fresh(u), BeginAt(start, "clip", Probe), BeginAt(w1, "song", PlayMedia), TimedCall(w2, MediaStatus(SongPlays)));
    FourEvents(start, w1, w2, w3, w4, e0, e1, e2, e3);
    ws, es := [start, w1, w2, w3, w4], [e0, e1, e2, e3];
    ForeignSuccessQuitsApp(ws, es, 1, 2, 3, i);
    LogUntouched(w3, e3, u);
    TaskStays(ws, es, 1, 3, i);
  }

  lemma FourEvents(w0: World, w1: World, w2: World, w3: World, w4: World, e0: Event, e1: Event, e2: Event, e3: Event)
    requires IsStart(w0) && Enabled(w0, e0) && w1 == Next(w0, e0) && Enabled(w1, e1) && w2 == Next(w1, e1)
    requires Enabled(w2, e2) && w3 == Next(w2, e2) && Enabled(w3, e3) && w4 == Next(w3, e3)
    ensures IsExecution([w0, w1, w2, w3, w4], [e0, e1, e2, e3])
  {
    hide Enabled, Next, IsStart;
    var ws, es := [w0, w1, w2, w3, w4], [e0, e1, e2, e3];
    assert Happens(ws, es, 0) && Happens(ws, es, 1) && Happens(ws, es, 2) && Happens(ws, es, 3);
  }

  lemma SongSucceeds(h: Health, probe: Timed, play: Timed, status: Timed)
    requires h.pending.None? && probe.call.Begin? && probe.call.source == Probe
    requires play.call.Begin? && play.call.content == "song" && play.call.session.None? && status.call == MediaStatus(SongPlays)
    ensures var h1 := Step(h, probe);
      var h2 := Step(h1, play);
      && PendingFrom(h1, Probe) && h2.pending.Some? && Confirms(SongPlays, h2.pending.value.request)
  {
  }

  lemma LogUntouched(w: World, e: Event, u: Uuid)
    requires Enabled(w, e) && e.ProbeReturns?
    ensures Next(w, e).ledger == w.ledger
  {
    hide StillWaiting, Quits, MayAdvanceTo;
  }

  /** And the other way round: a probe of an idle device succeeds, but before its executor
      job returns the device reports an error, and nothing is quit. */
  lemma NoQuitRun(start: World, u: Uuid, s: Snapshot) returns (ws: seq<World>, es: seq<Event>, own: Record)
    requires IsStart(start) && start.options.enabled && Probable(s) && s.appIdle
    ensures IsExecution(ws, es) && ws[0] == start && |es| == 4 && start.spawned !in ws[4].tasks
    ensures start.spawned in ws[3].tasks && es[3] == ProbeReturns(start.spawned)
    ensures P.IsOwnAnswer(Device(ws[3].ledger, u), ws[3].tasks[start.spawned], own) && own.outcome == Ok
  {
    hide LedgerAfter, Step, Others, WorldInvariant, IsStart, Reached, Busy, Answers, Quits, MayAdvanceTo, P.IsOwnAnswer;
    StartIsQuiet(start, u);
    var w1 := LaunchRun(start, start, u, s);
    var i := start.spawned;
    var e0, e1, e2, e3 := Decide(u, Some(s), "clip"), DeviceStatus(u, ClipPlays), DeviceStatus(u, ClipFails), ProbeReturns(i);
    Occurs(start, w1, e1, u);
    var w2 := Next(w1, e1);
    Occurs(start, w2, e2, u);
    var w3 := Next(w2, e2);
    var w4 := Next(w3, e3);
    FourEvents(start, w1, w2, w3, w4, e0, e1, e2, e3);
    ws, es := [start, w1, w2, w3, w4], [e0, e1, e2, e3];
    var t0, t1, t2 := BeginAt(start, "clip", Probe), TimedCall(w1, MediaStatus(ClipPlays)), TimedCall(w2, MediaStatus(ClipFails));
    ClipFailsLater(Fresh(u), t0, t1, t2);
    own := P.IdleRestoration(ws, es, 3, i);
    OwnIsFirst(Device(w3.ledger, u), w3.tasks[i], own);
  }

  lemma ClipFailsLater(h: Health, probe: Timed, played: Timed, failed: Timed)
    requires h == Fresh(h.uuid) && probe.call == Begin("clip", Probe, None, DELIVERY_TIMEOUT)
    requires played.call == MediaStatus(ClipPlays) && failed.call == MediaStatus(ClipFails)
    ensures var h3 := Step(Step(Step(h, probe), played), failed);
      && h3.pending.None? && !P.LastIsOk(h3) && |Answers(h3.log)| == 1 && Answers(h3.log)[0].outcome == Ok
  {
    BeginIdleStep(h, probe);
    var h1 := Step(h, probe);
    ConfirmedStep(h1, played);
    var h2 := Step(h1, played);
    FailedIdleStep(h2, failed);
    hide Step;
  }

  lemma FailedIdleStep(h: Health, t: Timed)
    requires h.pending.None? && t.call == MediaStatus(ClipFails)
    ensures var h' := Step(h, t);
      h'.pending.None? && !P.LastIsOk(h') && Answers(h'.log) == Answers(h.log)
  {
    AppendReadings(Detach(h), ResolutionRecord(h, FetchFailed, true, Some(ClipFails), Some("clip"), t.now), t.interval);
  }

  lemma OwnIsFirst(h: Health, t: Task, own: Record)
    requires P.IsOwnAnswer(h, t, own) && |Answers(h.log)| == 1
    ensures own == Answers(h.log)[0]
  {
    hide Answers;
  }

  // ------------------------------------------------------- after the shutdown

  /** The entry is unloaded. */
  lemma UnloadRun(start: World, w: World, u: Uuid) returns (w': World)
    requires Reached(start, w) && w.ledger.listeners == SetUp && Others(w, u)
    ensures Reached(start, w') && WorldInvariant(w') && w'.closed && Others(w', u)
    ensures w' == w.(ledger := w'.ledger, closed := true)
    ensures Device(w'.ledger, u) == Cancelled(Device(w.ledger, u))
  {
    hide Step, Others, Reached, MayAdvanceTo, Closed, LedgerInvariant, Exclusive, TasksRight, PendingRight;
    Occurs(start, w, StopProbes, u);
    var w1 := Next(w, StopProbes);
    Occurs(start, w1, StopRepairs, u);
    var w2 := Next(w1, StopRepairs);
    GoesOn(start, w2, Shutdown);
    w' := Next(w2, Shutdown);
    assert w'.ledger == Closed(w2.ledger);
    ClosedDevices(w, w1, w2, w', u);
  }

  lemma ClosedDevices(w: World, w1: World, w2: World, w': World, u: Uuid)
    requires Others(w2, u) && w'.ledger == Closed(w2.ledger)
    requires w1.ledger == w.ledger.(listeners := [RepairListener]) && w2.ledger == w1.ledger.(listeners := [])
    ensures Others(w', u)
    ensures Device(w'.ledger, u) == Cancelled(Device(w.ledger, u))
  {
    var l' := w'.ledger;
    forall v: Uuid ensures Device(l', v) == Cancelled(Device(w2.ledger, v)) {
      assert Cancelled(Fresh(v)) == Fresh(v);
    }
    forall v: Uuid | v != u ensures Device(l', v) == Fresh(v) {
      assert Device(w2.ledger, v) == Fresh(v);
    }
  }

  /** A play that was under way when the entry was unloaded begins its request, and its
      timer, after the shutdown. */
  lemma LatePlayRun(start: World, u: Uuid, content: Content) returns (ws: seq<World>, es: seq<Event>)
    requires IsStart(start) && start.options.enabled
    ensures IsExecution(ws, es) && ws[0] == start && ws[|es|].closed
    ensures Device(ws[|es|].ledger, u).armed == map[0 := DELIVERY_TIMEOUT]
  {
    hide Step, Others, Reached, MayAdvanceTo, Closed, LedgerInvariant, Exclusive, TasksRight, PendingRight, LedgerAfter;
    StartIsQuiet(start, u);
    var w := UnloadRun(start, start, u);
    var e := PlayBegins(u, content, PlayMedia, None);
    Occurs(start, w, e, u);
    CancelledFresh(u);
    FreshKeeps(u);
    ProbeArmed(Fresh(u), BeginAt(w, content, PlayMedia));
    ws, es := PathTo(start, Next(w, e));
  }

  lemma CancelledFresh(u: Uuid)
    ensures Cancelled(Fresh(u)) == Fresh(u)
  {
  }

  /** After the shutdown: a probe of device `u` polls a request whose timer is gone. */
  ghost predicate Stranded(w: World, u: Uuid, giveUpAt: Time) {
    && w.closed && w.plays == map[] && w.running == {u} && w.tasks.Keys == {0}
    && w.tasks[0].uuid == u && w.tasks[0].at == Sleeping(w.now + POLL_PERIOD, giveUpAt)
    && Others(w, u) && Device(w.ledger, u).armed == map[] && PendingFrom(Device(w.ledger, u), Probe)
  }

  ghost predicate Orphaned(w: World, u: Uuid) {
    PendingFrom(Device(w.ledger, u), Probe) && u !in w.running
  }

  /** A probe that is stranded gives up in the end, and its request stays pending. */
  lemma {:induction false} StrandedGivesUp(start: World, w: World, u: Uuid, giveUpAt: Time) returns (w': World)
    requires Reached(start, w) && Stranded(w, u, giveUpAt)
    ensures Reached(start, w') && Orphaned(w', u)
    decreases if giveUpAt >= w.now then giveUpAt - w.now + 1 else 0
  {
    hide Next, Enabled, Stranded, Orphaned, WorldInvariant, Reached;
    PollOnce(w, u, giveUpAt);
    GoesOn(start, w, Advance(POLL_PERIOD));
    var w1 := Next(w, Advance(POLL_PERIOD));
    GoesOn(start, w1, ProbeWakes(0));
    w' := Next(w1, ProbeWakes(0));
    if !Orphaned(w', u) {
      w' := StrandedGivesUp(start, w', u, giveUpAt);
    }
  }

  lemma PollOnce(w: World, u: Uuid, giveUpAt: Time)
    requires Stranded(w, u, giveUpAt)
    ensures Enabled(w, Advance(POLL_PERIOD))
    ensures var w1 := Next(w, Advance(POLL_PERIOD));
      && Enabled(w1, ProbeWakes(0))
      && var w2 := Next(w1, ProbeWakes(0));
      && w2.now == w.now + POLL_PERIOD
      && if w2.now > giveUpAt then Orphaned(w2, u) else Stranded(w2, u, giveUpAt)
  {
    MayWait(w, u, POLL_PERIOD);
    hide Device, MayAdvanceTo;
  }

  /** So after a shutdown a pending probe request may belong to no running probe: the
      shutdown has cancelled the timer that would have resolved it. */
  lemma ShutdownOrphansProbe(start: World, u: Uuid, s: Snapshot) returns (ws: seq<World>, es: seq<Event>)
    requires IsStart(start) && start.options.enabled && Probable(s)
    ensures IsExecution(ws, es) && ws[0] == start && Orphaned(ws[|es|], u)
  {
    hide Step, Others, Reached, MayAdvanceTo, LedgerInvariant, Exclusive, TasksRight, PendingRight, LedgerAfter, Busy, Orphaned, Quits;
    StartIsQuiet(start, u);
    var w1 := LaunchRun(start, start, u, s);
    FreshKeeps(u);
    BeginIdleStep(Fresh(u), BeginAt(start, "clip", Probe));
    ProbeArmed(Fresh(u), BeginAt(start, "clip", Probe));
    Occurs(start, w1, ProbeReturns(0), u);
    var w2 := Next(w1, ProbeReturns(0));
    var w3 := UnloadRun(start, w2, u);
    CancelStrands(Device(w2.ledger, u));
    var w4 := StrandedGivesUp(start, w3, u, DELIVERY_TIMEOUT + GIVE_UP_MARGIN);
    ws, es := PathTo(start, w4);
  }

  lemma CancelStrands(h: Health)
    requires PendingFrom(h, Probe) && h.pending.value.ordinal == 0 && h.pending.value.cancelable && h.armed.Keys == {0}
    ensures PendingFrom(Cancelled(h), Probe) && Cancelled(h).armed == map[]
  {
    assert Cancelled(h).armed.Keys == {};
  }
}
