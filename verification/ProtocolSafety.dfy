/** What holds in every state of every interleaving: probe exclusion and ownership, the
    real-time bounds, and the ledger's own invariant. */
module ProtocolSafety {
  import opened Vocabulary
  import opened DeviceLedger
  import opened DeviceHistory
  import opened OkSoundness
  import opened Ledger
  import opened LedgerHistory
  import opened Protocol
  import Repairs

  // -------------------------------------------------------------- invariants

  /** At most one live task per device, and it is there exactly while the device's id is
      in the running set. */
  ghost predicate Exclusive(w: World) {
    && (forall i, j :: i in w.tasks && j in w.tasks && w.tasks[i].uuid == w.tasks[j].uuid ==> i == j)
    && (forall i :: i in w.tasks ==> w.tasks[i].uuid in w.running && i < w.spawned)
    && (forall u :: u in w.running ==> exists i :: i in w.tasks && w.tasks[i].uuid == u)
  }

  ghost predicate Owns(w: World, i: nat, h: Health) {
    && i in w.tasks && w.tasks[i].uuid == h.uuid && !w.tasks[i].at.Quitting?
    && PendingIs(h, w.tasks[i].ordinal) && h.pending.value.request.requestedAt == w.tasks[i].startedAt
  }

  /** A pending probe request belongs to the live task of its device. */
  ghost predicate Owned(w: World, u: Uuid) {
    PendingFrom(Device(w.ledger, u), Probe) ==> exists i :: Owns(w, i, Device(w.ledger, u))
  }

  /** A request whose timer has not been cancelled is pending no longer than its timeout. */
  ghost predicate Timely(h: Health, now: Time) {
    h.pending.Some? && h.pending.value.cancelable ==>
      var q := h.pending.value.request;
      q.timeout == 4 * 30 && now <= q.requestedAt + 4 * 30
  }

  /** A pending request has its timer. */
  predicate HasTimer(h: Health) {
    h.pending.Some? ==> h.pending.value.cancelable
  }

  /** When a waiting task gives up at the latest. */
  const GIVE_UP_AFTER: Time := PROBE_WATCHDOG + DELIVERY_TIMEOUT + GIVE_UP_MARGIN

  /** How long a task can have been running at each of its awaits; the bounds that rest
      on the request's own timer hold until the shutdown cancels it. */
  ghost predicate OnTime(t: Task, now: Time, closed: bool) {
    && t.startedAt <= now <= Deadline(t.at)
    && match t.at
       case InExecutor(deadline) => deadline == t.startedAt + PROBE_WATCHDOG
       case Sleeping(wakeAt, giveUpAt) =>
         && t.startedAt + DELIVERY_TIMEOUT + GIVE_UP_MARGIN <= giveUpAt <= t.startedAt + GIVE_UP_AFTER
         && wakeAt <= giveUpAt + POLL_PERIOD
         && (!closed ==> wakeAt <= t.startedAt + DELIVERY_TIMEOUT + POLL_PERIOD)
       case Quitting(deadline) =>
         && deadline <= t.startedAt + GIVE_UP_AFTER + POLL_PERIOD + PROBE_WATCHDOG
         && (!closed ==> deadline <= t.startedAt + DELIVERY_TIMEOUT + POLL_PERIOD + PROBE_WATCHDOG)
  }

  /** The request a task began is the `ordinal`-th of its device, and every request
      before it was answered by the time the task was launched. */
  ghost predicate Marked(t: Task, h: Health) {
    && t.ordinal < |h.begun| && h.begun[t.ordinal].source == Probe
    && t.mark <= |h.log| && |Answers(h.log[..t.mark])| == t.ordinal
  }

  ghost predicate TasksRight(w: World) {
    forall i :: i in w.tasks ==>
      OnTime(w.tasks[i], w.now, w.closed) && Marked(w.tasks[i], Device(w.ledger, w.tasks[i].uuid))
  }

  /** The stages of the unload. */
  predicate StagesRight(w: World) {
    if w.closed then w.ledger.listeners == [] else Hears(w.ledger) || w.ledger.listeners == []
  }

  /** A pending probe request has its task, or has lost it after the shutdown. */
  ghost predicate OwnedOrLost(w: World, u: Uuid) {
    Owned(w, u) || (w.closed && u !in w.running)
  }

  ghost predicate PendingRight(w: World) {
    forall u: Uuid ::
      OwnedOrLost(w, u) && Timely(Device(w.ledger, u), w.now) && (!w.closed ==> HasTimer(Device(w.ledger, u)))
  }

  ghost predicate WorldInvariant(w: World) {
    && LedgerInvariant(w.ledger)
    && Exclusive(w)
    && TasksRight(w)
    && StagesRight(w)
    && PendingRight(w)
    && w.options.interval >= MIN_PROBE_INTERVAL
  }

  // ------------------------------------------------- devices across one event

  /** The call an event makes on device `v`, if any. */
  function CallOn(w: World, e: Event, v: Uuid): Option<Call> {
    if e.Shutdown? then Some(CancelTimer)
    else if CallOf(w, e).Some? && CallOf(w, e).value.0 == v then Some(CallOf(w, e).value.1)
    else None
  }

  function TimedCall(w: World, c: Call): Timed {
    Timed(c, w.now, BreakerInterval(w.ledger, w.options.interval))
  }

  /** Every event is at most one ledger call on each device. */
  lemma DeviceAfter(w: World, e: Event, v: Uuid)
    requires LedgerInvariant(w.ledger) && Enabled(w, e)
    ensures Device(Next(w, e).ledger, v) ==
      match CallOn(w, e, v)
      case None => Device(w.ledger, v)
      case Some(c) => Step(Device(w.ledger, v), TimedCall(w, c))
  {
    hide Apply, Invariant, LogsAgree, IssuesAgree, Notify, Push, BoundedLog, Enabled, Control;
    if e.StopProbes? || e.StopRepairs? {
    } else if e.Shutdown? {
      AppliesCancel(Device(w.ledger, v), TimedCall(w, CancelTimer));
    } else if CallOf(w, e).Some? {
      var (u, c) := CallOf(w, e).value;
      EmissionIsLogged(Device(w.ledger, u), c, w.now, BreakerInterval(w.ledger, w.options.interval));
    }
  }

  lemma AppliesCancel(h: Health, t: Timed)
    requires t.call == CancelTimer
    ensures Step(h, t) == Cancelled(h)
    ensures h == Fresh(h.uuid) ==> Cancelled(h) == h
  {
  }

  lemma CloseKeeps(l: Ledger)
    requires LedgerInvariant(l)
    ensures LedgerInvariant(Closed(l))
  {
    hide Invariant;
    var l' := Closed(l);
    forall u | u in l'.devices ensures l'.devices[u].uuid == u && Invariant(l'.devices[u]) {
      CancelKeeps(l.devices[u]);
    }
    forall v: Uuid ensures Records(Device(l', v).log) == About(l'.history, v) {
      assert Records(Device(l, v).log) == About(l.history, v);
      assert Device(l', v).log == Device(l, v).log;
    }
  }

  /** Detaching a listener changes no device. */
  lemma DetachKeeps(l: Ledger, listeners: seq<Listener>)
    requires LedgerInvariant(l) && (Hears(l.(listeners := listeners)) ==> Hears(l))
    ensures LedgerInvariant(l.(listeners := listeners))
    ensures forall u: Uuid :: Device(l.(listeners := listeners), u) == Device(l, u)
  {
    hide Invariant, IssuesAgree;
    var l' := l.(listeners := listeners);
    assert forall u: Uuid :: Device(l', u) == Device(l, u);
    forall u: Uuid ensures Records(Device(l', u).log) == About(l'.history, u) {
      assert Records(Device(l, u).log) == About(l.history, u);
    }
    if Hears(l') {
      forall u: Uuid ensures IssuesAgree(l'.repairs, Device(l', u)) {
        assert IssuesAgree(l.repairs, Device(l, u));
      }
    }
  }

  lemma LedgerKeeps(w: World, e: Event)
    requires LedgerInvariant(w.ledger) && Enabled(w, e)
    ensures LedgerInvariant(Next(w, e).ledger)
  {
    hide LedgerInvariant, On, Closed, Control;
    if e.StopProbes? {
      DetachKeeps(w.ledger, [RepairListener]);
    } else if e.StopRepairs? {
      DetachKeeps(w.ledger, []);
    } else if e.Shutdown? {
      CloseKeeps(w.ledger);
    } else if CallOf(w, e).Some? {
      var (u, c) := CallOf(w, e).value;
      OnKeeps(w.ledger, u, c, w.now, w.options.interval);
    }
  }

  // ------------------------------------------------------- one call, one device

  /** A request that survives a call is untouched by it. */
  lemma StepPendingSame(h: Health, t: Timed)
    requires !t.call.Begin? && !t.call.CancelTimer?
    ensures Step(h, t).pending.Some? ==> Step(h, t).pending == h.pending
  {
    hide Append;
  }

  lemma StepBegunGrows(h: Health, t: Timed)
    ensures h.begun <= Step(h, t).begun
  {
    hide Append;
  }

  lemma FailureDetaches(h: Health, t: Timed)
    requires t.call.RequestFailed?
    ensures Step(h, t).pending.None?
  {
    hide Append;
  }

  /** Every call keeps requests timely, and every call but the shutdown's keeps them
      behind their timers. */
  lemma StepTimely(h: Health, t: Timed)
    requires Timely(h, t.now)
    requires t.call.Begin? ==> t.call.timeout == DELIVERY_TIMEOUT
    ensures Timely(Step(h, t), t.now)
    ensures HasTimer(h) && !t.call.CancelTimer? ==> HasTimer(Step(h, t))
  {
    if t.call.Begin? {
      StepBegin(h, t);
    } else if t.call.CancelTimer? {
      AppliesCancel(h, t);
    } else {
      StepPendingSame(h, t);
    }
    hide Step;
  }

  lemma StepMarked(task: Task, h: Health, t: Timed)
    requires Marked(task, h)
    ensures Marked(task, Step(h, t))
  {
    hide Step, Answers;
    StepGrows(h, t);
    StepBegunGrows(h, t);
    assert Step(h, t).log[..task.mark] == h.log[..task.mark];
  }

  /** A freshly launched task is marked by the request it has begun. */
  lemma LaunchMarked(h: Health, t: Timed, s: Snapshot)
    requires Invariant(h) && t.call.Begin? && t.call.source == Probe
    ensures var h' := Step(h, t);
      Marked(Task(h.uuid, s, h'.pending.value.ordinal, |h'.log|, t.now, InExecutor(t.now + PROBE_WATCHDOG)), h')
  {
    hide Step, Answers, LogExact;
    StepBegin(h, t);
    StepKeeps(h, t);
    assert Step(h, t).log[..|Step(h, t).log|] == Step(h, t).log;
  }

  // ------------------------------------------------------------ the invariants

  /** The calls that events make are those the ledger's callers make. */
  lemma CallsAreCallers(w: World, e: Event, v: Uuid)
    ensures CallOn(w, e, v).Some? ==>
      var c := CallOn(w, e, v).value;
      CallerCall(c) && (c.Begin? ==> c.timeout == DELIVERY_TIMEOUT) && (c.CancelTimer? ==> e.Shutdown?)
  {
  }

  lemma TimelyKept(w: World, e: Event, v: Uuid)
    requires WorldInvariant(w) && Enabled(w, e)
    ensures Timely(Device(Next(w, e).ledger, v), Next(w, e).now)
    ensures !Next(w, e).closed ==> HasTimer(Device(Next(w, e).ledger, v))
  {
    hide LedgerAfter, Step, LedgerInvariant, OwnedOrLost, Exclusive, TasksRight, Timely, HasTimer, StagesRight;
    DeviceAfter(w, e, v);
    CallsAreCallers(w, e, v);
    ClosesOnce(w, e);
    assert Timely(Device(w.ledger, v), w.now);
    if e.Advance? {
      TimerBounds(w, v, e.ticks);
    } else if CallOn(w, e, v).Some? {
      StepTimely(Device(w.ledger, v), TimedCall(w, CallOn(w, e, v).value));
    }
  }

  lemma ClosesOnce(w: World, e: Event)
    requires Enabled(w, e)
    ensures Next(w, e).closed == (w.closed || e.Shutdown?)
    ensures Next(w, e).now == if e.Advance? then w.now + e.ticks else w.now
  {
    hide LedgerAfter, DecisionOf, StillWaiting, Quits, MayAdvanceTo;
  }

  /** Time never passes a pending request's timer. */
  lemma TimerBounds(w: World, v: Uuid, ticks: Time)
    requires LedgerInvariant(w.ledger) && Timely(Device(w.ledger, v), w.now) && MayAdvanceTo(w, w.now + ticks)
    ensures Timely(Device(w.ledger, v), w.now + ticks)
  {
    hide CountersExact, CircuitOf, Fifo, BoundedLog, LogsAgree, IssuesAgree;
    var h := Device(w.ledger, v);
    if h.pending.Some? && h.pending.value.cancelable {
      assert Invariant(h);
      assert h.pending.value.ordinal in h.armed;
    }
  }

  lemma MarksKept(w: World, e: Event, t: Task)
    requires LedgerInvariant(w.ledger) && Enabled(w, e) && Marked(t, Device(w.ledger, t.uuid))
    ensures Marked(t, Device(Next(w, e).ledger, t.uuid))
  {
    hide Step, LedgerAfter, Control, LedgerInvariant, Marked, CallOf, Enabled;
    DeviceAfter(w, e, t.uuid);
    if CallOn(w, e, t.uuid).Some? {
      StepMarked(t, Device(w.ledger, t.uuid), TimedCall(w, CallOn(w, e, t.uuid).value));
    }
  }

  lemma LaunchOf(w: World, e: Event)
    requires WorldInvariant(w) && Enabled(w, e) && e.Decide? && DecisionOf(w, e.uuid, e.snapshot) == Launch
    ensures var w' := Next(w, e);
      && e.snapshot.Some? && e.uuid !in w.running && w.spawned !in w.tasks
      && w'.tasks.Keys == w.tasks.Keys + {w.spawned}
      && (forall i :: i in w.tasks ==> w'.tasks[i] == w.tasks[i])
      && w'.running == w.running + {e.uuid} && w'.spawned == w.spawned + 1
      && w'.now == w.now && w'.closed == w.closed
      && var t := w'.tasks[w.spawned];
         && t.uuid == e.uuid && t.at.InExecutor? && OnTime(t, w.now, w.closed)
         && Marked(t, Device(w'.ledger, e.uuid)) && Owns(w', w.spawned, Device(w'.ledger, e.uuid))
  {
    hide Step, LedgerInvariant, Marked, Answers, Invariant, TasksRight, PendingRight;
    var u := e.uuid;
    DeviceAfter(w, e, u);
    var t := TimedCall(w, CallOn(w, e, u).value);
    LedgerDevice(w.ledger, u);
    StepBegin(Device(w.ledger, u), t);
    StepKeeps(Device(w.ledger, u), t);
    LaunchMarked(Device(w.ledger, u), t, e.snapshot.value);
    assert Device(LedgerAfter(w, e), u) == Step(Device(w.ledger, u), t);
  }

  lemma LedgerDevice(l: Ledger, u: Uuid)
    requires LedgerInvariant(l)
    ensures Invariant(Device(l, u)) && Device(l, u).uuid == u
  {
    hide Invariant, LogsAgree, IssuesAgree, BoundedLog;
    FreshKeeps(u);
  }

  lemma FinishedExclusive(w: World, i: nat)
    requires Exclusive(w) && i in w.tasks
    ensures Exclusive(Finished(w, i))
  {
    var w' := Finished(w, i);
    forall u | u in w'.running ensures exists j :: j in w'.tasks && w'.tasks[j].uuid == u {
      var j :| j in w.tasks && w.tasks[j].uuid == u;
      assert j in w'.tasks;
    }
  }

  lemma SuspendExclusive(w: World, i: nat, s: Suspended)
    requires Exclusive(w) && i in w.tasks
    ensures Exclusive(Suspend(w, i, s))
  {
    var w' := Suspend(w, i, s);
    forall u | u in w'.running ensures exists j :: j in w'.tasks && w'.tasks[j].uuid == u {
      var j :| j in w.tasks && w.tasks[j].uuid == u;
      assert j in w'.tasks;
    }
  }

  lemma PolledExclusive(w: World, i: nat, giveUpAt: Time)
    requires Exclusive(w) && i in w.tasks
    ensures Exclusive(Polled(w, i, giveUpAt))
  {
    hide Exclusive, Finished, Suspend;
    FinishedExclusive(w, i);
    SuspendExclusive(w, i, Sleeping(w.now + POLL_PERIOD, giveUpAt));
    SuspendExclusive(w, i, Quitting(w.now + PROBE_WATCHDOG));
  }

  /** The events that neither start, move nor end a probe task. */
  predicate LeavesTasks(w: World, e: Event) {
    !e.ProbeReturns? && !e.ProbeRaises? && !e.ProbeWakes? && !e.QuitEnds? &&
    !(e.Decide? && DecisionOf(w, e.uuid, e.snapshot) == Launch)
  }

  lemma TasksLeft(w: World, e: Event)
    requires Enabled(w, e) && LeavesTasks(w, e)
    ensures var w' := Next(w, e);
      && w'.tasks == w.tasks && w'.running == w.running && w'.spawned == w.spawned
      && (!e.Advance? ==> w'.now == w.now) && (!e.Shutdown? ==> w'.closed == w.closed)
  {
    hide LedgerAfter, DecisionOf, MayAdvanceTo;
  }

  lemma ExclusiveKept(w: World, e: Event)
    requires WorldInvariant(w) && Enabled(w, e)
    ensures Exclusive(Next(w, e))
  {
    hide LedgerAfter, LedgerInvariant, TasksRight, PendingRight, Finished, Polled, DecisionOf, CallOf;
    var w' := Next(w, e);
    match e
    case ProbeReturns(i) => PolledExclusive(w, i, w.now + DELIVERY_TIMEOUT + GIVE_UP_MARGIN); ExclusiveFrame(Control(w, e), w');
    case ProbeWakes(i) => PolledExclusive(w, i, w.tasks[i].at.giveUpAt); ExclusiveFrame(Control(w, e), w');
    case ProbeRaises(i, _) => FinishedExclusive(w, i); ExclusiveFrame(Control(w, e), w');
    case QuitEnds(i) => FinishedExclusive(w, i); ExclusiveFrame(Control(w, e), w');
    case Decide(u, snapshot, _) =>
      if DecisionOf(w, u, snapshot) == Launch {
        LaunchOf(w, e);
        LaunchExclusive(w, w', u);
      } else {
        TasksLeft(w, e);
        ExclusiveFrame(w, w');
      }
    case _ =>
      TasksLeft(w, e);
      ExclusiveFrame(w, w');
  }

  lemma ExclusiveFrame(w: World, w': World)
    requires Exclusive(w) && w'.tasks == w.tasks && w'.running == w.running && w'.spawned == w.spawned
    ensures Exclusive(w')
  {
    forall u | u in w'.running ensures exists j :: j in w'.tasks && w'.tasks[j].uuid == u {
      var j :| j in w.tasks && w.tasks[j].uuid == u;
    }
  }

  lemma LaunchExclusive(w: World, w': World, u: Uuid)
    requires Exclusive(w) && u !in w.running && w.spawned !in w.tasks
    requires w'.tasks.Keys == w.tasks.Keys + {w.spawned}
    requires forall i :: i in w.tasks ==> w'.tasks[i] == w.tasks[i]
    requires w'.tasks[w.spawned].uuid == u && w'.running == w.running + {u} && w'.spawned == w.spawned + 1
    ensures Exclusive(w')
  {
    forall v | v in w'.running ensures exists j :: j in w'.tasks && w'.tasks[j].uuid == v {
      if v == u {
        assert w.spawned in w'.tasks;
      } else {
        var j :| j in w.tasks && w.tasks[j].uuid == v;
        assert j in w'.tasks;
      }
    }
  }

  // ------------------------------------------------------------- give-up never

  /** The task of a device whose probe request is pending is the one that began it. */
  lemma WaiterOwns(w: World, i: nat)
    requires WorldInvariant(w) && i in w.tasks && StillWaiting(w, i)
    ensures !w.tasks[i].at.Quitting? && Owns(w, i, Device(w.ledger, w.tasks[i].uuid))
  {
    hide LedgerInvariant, TasksRight, Timely;
    var u := w.tasks[i].uuid;
    assert OwnedOrLost(w, u);
    var j :| Owns(w, j, Device(w.ledger, u));
    LedgerDevice(w.ledger, u);
    assert i == j;
  }

  /** A sleeping probe whose request is still pending is far from its own deadline: the
      request's timer is due first. */
  lemma NeverGivesUp(w: World, i: nat)
    requires WorldInvariant(w) && !w.closed && i in w.tasks && StillWaiting(w, i)
    ensures !w.tasks[i].at.Quitting? && Owns(w, i, Device(w.ledger, w.tasks[i].uuid))
    ensures w.now <= w.tasks[i].startedAt + DELIVERY_TIMEOUT
    ensures w.tasks[i].at.Sleeping? ==> !GivesUp(w, i)
  {
    hide LedgerInvariant, Marked, Exclusive;
    WaiterOwns(w, i);
    var u := w.tasks[i].uuid;
    assert Timely(Device(w.ledger, u), w.now) && HasTimer(Device(w.ledger, u));
    assert OnTime(w.tasks[i], w.now, w.closed);
  }

  lemma TasksRightKept(w: World, e: Event)
    requires WorldInvariant(w) && Enabled(w, e)
    ensures TasksRight(Next(w, e))
  {
    hide LedgerInvariant, LedgerAfter, Marked, Exclusive, PendingRight, DecisionOf, CallOf, Quits, StillWaiting;
    var w' := Next(w, e);
    forall i | i in w'.tasks
      ensures OnTime(w'.tasks[i], w'.now, w'.closed) && Marked(w'.tasks[i], Device(w'.ledger, w'.tasks[i].uuid))
    {
      if i in w.tasks {
        MarksKept(w, e, w.tasks[i]);
        TaskKept(w, e, i);
        MarkedFrame(w.tasks[i], w'.tasks[i], Device(w'.ledger, w.tasks[i].uuid));
      } else {
        LaunchOf(w, e);
      }
    }
  }

  /** How an event that is not a launch can move a task that it does not end. */
  lemma TaskMoves(w: World, e: Event, i: nat)
    requires Enabled(w, e) && i in w.tasks && i in Next(w, e).tasks
    requires !(e.Decide? && DecisionOf(w, e.uuid, e.snapshot) == Launch)
    ensures var t, t' := w.tasks[i], Next(w, e).tasks[i];
      || (t' == t && (e.Advance? ==> Next(w, e).now <= Deadline(t.at)))
      || (t' == t.(at := Quitting(w.now + PROBE_WATCHDOG)) && !StillWaiting(w, i) && !e.Advance? && !t.at.Quitting?)
      || (StillWaiting(w, i) && !e.Advance? &&
          ((e == ProbeReturns(i) && t.at.InExecutor? &&
            t' == t.(at := Sleeping(w.now + POLL_PERIOD, w.now + DELIVERY_TIMEOUT + GIVE_UP_MARGIN))) ||
           (e == ProbeWakes(i) && t.at.Sleeping? && w.now <= t.at.giveUpAt && t' == t.(at := Sleeping(w.now + POLL_PERIOD, t.at.giveUpAt)))))
    ensures Next(w, e).now == if e.Advance? then w.now + e.ticks else w.now
    ensures w.closed ==> Next(w, e).closed
  {
    hide LedgerAfter, CallOf, Quits, StillWaiting, DecisionOf;
  }

  /** A task that lives on keeps its identity and its time bounds. */
  lemma TaskKept(w: World, e: Event, i: nat)
    requires WorldInvariant(w) && Enabled(w, e) && i in w.tasks && i in Next(w, e).tasks
    ensures var t, t' := w.tasks[i], Next(w, e).tasks[i];
      && t' == t.(at := t'.at)
      && OnTime(t', Next(w, e).now, Next(w, e).closed)
  {
    hide LedgerInvariant, LedgerAfter, Exclusive, PendingRight, CallOf, Quits, StillWaiting, Marked, Enabled, Control;
    assert OnTime(w.tasks[i], w.now, w.closed);
    if e.Decide? && DecisionOf(w, e.uuid, e.snapshot) == Launch {
      LaunchOf(w, e);
    } else {
      TaskMoves(w, e, i);
      if !w.closed && StillWaiting(w, i) {
        NeverGivesUp(w, i);
      }
    }
  }

  lemma MarkedFrame(t: Task, t': Task, h: Health)
    requires Marked(t, h) && t' == t.(at := t'.at)
    ensures Marked(t', h)
  {
  }

  /** The poll in which a probe of device `u` gives up waiting. */
  predicate Abandons(w: World, e: Event, u: Uuid) {
    e.ProbeWakes? && e.task in w.tasks && w.tasks[e.task].at.Sleeping? && w.tasks[e.task].uuid == u && GivesUp(w, e.task)
  }

  /** The task that owns a pending probe request lives on until the request is resolved
      or it gives up. */
  lemma OwnerStays(w: World, e: Event, j: nat)
    requires WorldInvariant(w) && Enabled(w, e)
    requires j in w.tasks && StillWaiting(w, j) && !(e.ProbeRaises? && e.task == j) && !Abandons(w, e, w.tasks[j].uuid)
    ensures j in Next(w, e).tasks && !Next(w, e).tasks[j].at.Quitting?
    ensures Next(w, e).tasks[j] == w.tasks[j].(at := Next(w, e).tasks[j].at)
  {
    hide LedgerInvariant, LedgerAfter, Exclusive, PendingRight, StagesRight, CallOf, Quits, StillWaiting, TasksRight, DecisionOf;
    WaiterOwns(w, j);
    if e.Decide? && DecisionOf(w, e.uuid, e.snapshot) == Launch {
      LaunchOf(w, e);
    }
  }

  /** What an event that does not launch a probe of device `v` leaves of its pending
      probe request was there before. */
  lemma PendingProbeKept(w: World, e: Event, v: Uuid)
    requires WorldInvariant(w) && Enabled(w, e) && PendingFrom(Device(Next(w, e).ledger, v), Probe)
    requires !(CallOn(w, e, v).Some? && CallOn(w, e, v).value.Begin?)
    ensures PendingFrom(Device(w.ledger, v), Probe)
    ensures var p, p' := Device(w.ledger, v).pending.value, Device(Next(w, e).ledger, v).pending.value;
      p'.request == p.request && p'.ordinal == p.ordinal
    ensures !(e.ProbeRaises? && e.task in w.tasks && w.tasks[e.task].uuid == v)
  {
    hide LedgerInvariant, LedgerAfter, Control, Step, Exclusive, TasksRight, PendingRight, StagesRight, Enabled, DecisionOf;
    DeviceAfter(w, e, v);
    var c := CallOn(w, e, v);
    if c.Some? {
      var t := TimedCall(w, c.value);
      if c.value.CancelTimer? {
        AppliesCancel(Device(w.ledger, v), t);
      } else {
        StepPendingSame(Device(w.ledger, v), t);
      }
      if c.value.RequestFailed? {
        FailureDetaches(Device(w.ledger, v), t);
      }
    }
  }

  /** A launch gives the pending request its owner. */
  lemma LaunchOwns(w: World, e: Event, v: Uuid)
    requires WorldInvariant(w) && Enabled(w, e) && CallOn(w, e, v).Some? && CallOn(w, e, v).value.Begin?
    ensures Owned(Next(w, e), v)
  {
    hide LedgerInvariant, LedgerAfter, Control, Step, Exclusive, TasksRight, PendingRight, StagesRight, Enabled, DecisionOf;
    DeviceAfter(w, e, v);
    StepBegin(Device(w.ledger, v), TimedCall(w, CallOn(w, e, v).value));
    BeginsOf(w, e, v);
    if CallOn(w, e, v).value.source == Probe {
      LaunchOf(w, e);
    }
  }

  /** Exactly the poll in which the owner gives up costs a pending request its owner. */
  lemma OwnershipLostIff(w: World, e: Event, v: Uuid)
    requires WorldInvariant(w) && Enabled(w, e) && Owned(w, v)
    ensures !Owned(Next(w, e), v) <==> Abandons(w, e, v)
    ensures Abandons(w, e, v) ==> w.closed && v !in Next(w, e).running
  {
    hide LedgerInvariant, LedgerAfter, Step, Exclusive, TasksRight, PendingRight, StagesRight, DecisionOf, Control, Enabled;
    if Abandons(w, e, v) {
      AbandonedIsLost(w, e, v);
    } else if CallOn(w, e, v).Some? && CallOn(w, e, v).value.Begin? {
      LaunchOwns(w, e, v);
    } else if PendingFrom(Device(Next(w, e).ledger, v), Probe) {
      PendingProbeKept(w, e, v);
      var j :| Owns(w, j, Device(w.ledger, v));
      LedgerDevice(w.ledger, v);
      LedgerKeeps(w, e);
      LedgerDevice(Next(w, e).ledger, v);
      OwnerStays(w, e, j);
      assert Owns(Next(w, e), j, Device(Next(w, e).ledger, v));
    }
  }

  lemma AbandonedIsLost(w: World, e: Event, v: Uuid)
    requires WorldInvariant(w) && Enabled(w, e) && Abandons(w, e, v)
    ensures w.closed && v !in Next(w, e).running && Next(w, e).ledger == w.ledger
    ensures PendingFrom(Device(w.ledger, v), Probe) && !Owned(Next(w, e), v)
  {
    hide LedgerInvariant, TasksRight, PendingRight, StagesRight;
    if !w.closed {
      NeverGivesUp(w, e.task);
    }
    ExclusiveKept(w, e);
    var w' := Next(w, e);
    LedgerDevice(w.ledger, v);
    assert w'.running == w.running - {v};
  }

  /** What is lost stays lost: after the shutdown no probe is launched. */
  lemma LostStays(w: World, e: Event, v: Uuid)
    requires StagesRight(w) && Enabled(w, e) && w.closed && v !in w.running
    ensures Next(w, e).closed && v !in Next(w, e).running
  {
    hide LedgerAfter, StillWaiting, Quits, MayAdvanceTo;
  }

  lemma OwnedKept(w: World, e: Event, v: Uuid)
    requires WorldInvariant(w) && Enabled(w, e)
    ensures OwnedOrLost(Next(w, e), v)
  {
    hide LedgerInvariant, Exclusive, TasksRight, Next, Enabled, Abandons, Timely, HasTimer;
    assert OwnedOrLost(w, v);
    ClosesOnce(w, e);
    if Owned(w, v) {
      OwnershipLostIff(w, e, v);
    } else {
      LostStays(w, e, v);
    }
  }

  /** Only the coordinator begins probe requests. */
  lemma BeginsOf(w: World, e: Event, v: Uuid)
    requires Enabled(w, e)
    ensures var c := CallOn(w, e, v);
      c.Some? && c.value.Begin? ==>
        if c.value.source == Probe then e.Decide? && e.uuid == v && DecisionOf(w, v, e.snapshot) == Launch
        else e.PlayBegins? && e.uuid == v
  {
    hide DecisionOf, MayAdvanceTo, MayFire;
  }

  // ------------------------------------------------------------------- always

  lemma WorldKeeps(w: World, e: Event)
    requires WorldInvariant(w) && Enabled(w, e)
    ensures WorldInvariant(Next(w, e))
  {
    LedgerKeeps(w, e);
    ExclusiveKept(w, e);
    TasksRightKept(w, e);
    OptionsKept(w, e);
    StagesKept(w, e);
    var w' := Next(w, e);
    forall v: Uuid
      ensures OwnedOrLost(w', v) && Timely(Device(w'.ledger, v), w'.now) && (!w'.closed ==> HasTimer(Device(w'.ledger, v)))
    {
      OwnedKept(w, e, v);
      TimelyKept(w, e, v);
    }
    hide LedgerInvariant, Exclusive, TasksRight, OwnedOrLost, Timely, HasTimer, StagesRight, Next, Enabled;
  }

  lemma OptionsKept(w: World, e: Event)
    requires Enabled(w, e) && w.options.interval >= MIN_PROBE_INTERVAL
    ensures Next(w, e).options.interval >= MIN_PROBE_INTERVAL
  {
    hide LedgerAfter, DecisionOf, StillWaiting, Quits, MayAdvanceTo;
  }

  /** Only the unload detaches listeners. */
  lemma StagesKept(w: World, e: Event)
    requires Enabled(w, e) && StagesRight(w)
    ensures StagesRight(Next(w, e))
    ensures !e.StopProbes? && !e.StopRepairs? ==> Next(w, e).ledger.listeners == w.ledger.listeners
  {
    hide CallOf, Apply, DecisionOf, StillWaiting, Quits, MayAdvanceTo, Notify, Push;
  }

  lemma FreshAgrees(l: Ledger, u: Uuid)
    requires IsNew(l)
    ensures Device(l, u) == Fresh(u) && Invariant(Fresh(u))
    ensures Records(Device(l, u).log) == About(l.history, u) && IssuesAgree(l.repairs, Device(l, u))
  {
    FreshKeeps(u);
    hide Invariant;
  }

  lemma NewInvariant(l: Ledger)
    requires IsNew(l)
    ensures LedgerInvariant(l)
  {
    forall u: Uuid
      ensures Device(l, u) == Fresh(u) && Invariant(Fresh(u))
      ensures Records(Device(l, u).log) == About(l.history, u) && IssuesAgree(l.repairs, Device(l, u))
    {
      FreshAgrees(l, u);
    }
    forall u | u in l.devices ensures l.devices[u].uuid == u && Invariant(l.devices[u]) {
      assert l.devices[u] == Fresh(u);
    }
    hide Invariant, Records, About, IssuesAgree, Repairs.IsNew;
  }

  lemma StartInvariant(w: World)
    requires IsStart(w)
    ensures WorldInvariant(w)
  {
    hide LedgerInvariant, Repairs.IsNew;
    NewInvariant(w.ledger);
    forall u: Uuid ensures Device(w.ledger, u) == Fresh(u) {
      FreshAgrees(w.ledger, u);
    }
  }

  lemma {:induction false} Always(ws: seq<World>, es: seq<Event>, i: nat)
    requires IsExecution(ws, es) && i < |ws|
    ensures WorldInvariant(ws[i])
  {
    hide WorldInvariant, Enabled, Next;
    if i > 0 {
      Always(ws, es, i - 1);
      assert Happens(ws, es, i - 1);
      WorldKeeps(ws[i - 1], es[i - 1]);
    } else {
      StartInvariant(ws[0]);
    }
  }
}
