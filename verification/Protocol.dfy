/** The protocol around the ledger: the event loop's clock, the probe coordinator and
    its background tasks, and the user's play requests.

    Everything between two awaits of the source is one event here, so a run of events is
    one interleaving of the probe tasks, the user requests, the device callbacks, the
    option changes and the timers. A probe cycle is one `Decide` event per device. The
    unload is three events: the coordinator and then the repair manager stop listening,
    and then the ledger cancels its timers. */
module Protocol {
  import opened Vocabulary
  import opened DeviceLedger
  import opened Ledger

  datatype CastType = Audio | Group | Video

  /** What the entity knows about a device at the moment a probe is due. */
  datatype Snapshot = Snapshot(
    castType: Option<CastType>,
    isAudioGroup: bool,
    appIdle: bool,
    player: Option<PlayerState>,
    groupPlayers: seq<Option<PlayerState>>,
    session: Option<int>)

  predicate IsBusyState(p: Option<PlayerState>) {
    p == Some(Playing) || p == Some(Buffering) || p == Some(Paused)
  }

  predicate Busy(s: Snapshot) {
    IsBusyState(s.player) || exists i :: 0 <= i < |s.groupPlayers| && IsBusyState(s.groupPlayers[i])
  }

  datatype ProbeOptions = ProbeOptions(enabled: bool, interval: nat, groups: bool, video: bool)

  /** The stored options with the floor of the interval applied. */
  function WithFloor(o: ProbeOptions): ProbeOptions {
    o.(interval := Max(o.interval, MIN_PROBE_INTERVAL))
  }

  /** Where a probe task is suspended, and until when at the latest. */
  datatype Suspended =
    | InExecutor(deadline: Time)
    | Sleeping(wakeAt: Time, giveUpAt: Time)
    | Quitting(deadline: Time)

  /** A background probe task. `ordinal` numbers the request it began, `mark` is the
      length of the device's log right after that. */
  datatype Task = Task(uuid: Uuid, snapshot: Snapshot, ordinal: nat, mark: nat, startedAt: Time, at: Suspended)

  /** A user's play request waiting for the executor behind its watchdog. */
  datatype Play = Play(uuid: Uuid, deadline: Time)

  datatype World = World(
    now: Time,
    ledger: Ledger,
    options: ProbeOptions,
    running: set<Uuid>,
    tasks: map<nat, Task>,
    spawned: nat,
    plays: map<nat, Play>,
    played: nat,
    closed: bool)

  /** A new entry, whatever options, stamps and issues it finds. */
  function Start(l: Ledger, stored: ProbeOptions): World {
    World(0, l, WithFloor(stored), {}, map[], 0, map[], 0, false)
  }

  ghost predicate IsStart(w: World) {
    IsNew(w.ledger) && w == Start(w.ledger, w.options)
  }

  datatype Event =
    | Advance(ticks: Time)
    | PlayBegins(uuid: Uuid, content: Content, source: Source, session: Option<int>)
    | PlayReturns(play: nat)
    | PlayRaises(play: nat, err: Exception, connected: bool, launchFailure: bool)
    | DeviceStatus(uuid: Uuid, status: Status)
    | DeviceLoadFailed(uuid: Uuid)
    | TemplateFailed(uuid: Uuid)
    | TimerFires(uuid: Uuid, ordinal: nat)
    | Decide(uuid: Uuid, snapshot: Option<Snapshot>, content: Content)
    | ProbeReturns(task: nat)
    | ProbeRaises(task: nat, err: Exception)
    | ProbeWakes(task: nat)
    | QuitEnds(task: nat)
    | OptionsChange(options: ProbeOptions)
    | StopProbes
    | StopRepairs
    | Shutdown

  // ---------------------------------------------------------------- decisions

  datatype Decision =
    | StillRunning
    | NotConnected
    | GroupsOff
    | VideoOff
    | CircuitOpen
    | IsBusy
    | Launch

  /** `_decide`, without the record it may write. */
  function DecisionFor(running: bool, snapshot: Option<Snapshot>, o: ProbeOptions, circuit: Option<Time>, now: Time): Decision {
    if running then StillRunning
    else if snapshot.None? then NotConnected
    else
      var s := snapshot.value;
      if s.isAudioGroup && !o.groups then GroupsOff
      else if !s.isAudioGroup && s.castType != Some(Audio) && s.castType != None && !o.video then VideoOff
      else if circuit.Some? && circuit.value > now then CircuitOpen
      else if Busy(s) then IsBusy
      else Launch
  }

  function DecisionOf(w: World, u: Uuid, snapshot: Option<Snapshot>): Decision {
    DecisionFor(u in w.running, snapshot, w.options, Device(w.ledger, u).circuit, w.now)
  }

  /** The ledger call a decision makes. */
  function DecisionCall(d: Decision, snapshot: Option<Snapshot>, content: Content): Call {
    match d
    case NotConnected => RecordOutcome(Unreachable, Probe, None, false)
    case IsBusy => RecordOutcome(SkippedBusy, Probe, None, false)
    case Launch => Begin(content, Probe, if snapshot.Some? then snapshot.value.session else None, DELIVERY_TIMEOUT)
    case _ => Look
  }

  // ------------------------------------------------------------ enabled events

  function Deadline(s: Suspended): Time {
    match s
    case InExecutor(deadline) => deadline
    case Sleeping(wakeAt, _) => wakeAt
    case Quitting(deadline) => deadline
  }

  /** Time passes no further than the next thing that is due: an armed timer, a
      watchdog, a sleeping probe. */
  ghost predicate MayAdvanceTo(w: World, t: Time) {
    && (forall u, k :: u in w.ledger.devices && k in w.ledger.devices[u].armed ==> t <= w.ledger.devices[u].armed[k])
    && (forall i :: i in w.tasks ==> t <= Deadline(w.tasks[i].at))
    && (forall p :: p in w.plays ==> t <= w.plays[p].deadline)
  }

  predicate RaisedByPlay(err: Exception, connected: bool, launchFailure: bool) {
    err.class_ == HomeAssistantClass || (err.class_ == TimeoutClass && !connected && !launchFailure)
  }

  /** A timer fires once it is due; a timer that is no longer armed may still fire at
      any time, for any request ever begun. */
  predicate MayFire(h: Health, k: nat, now: Time) {
    k < |h.begun| && (k in h.armed ==> h.armed[k] <= now)
  }

  ghost predicate Enabled(w: World, e: Event) {
    match e
    case Advance(ticks) => MayAdvanceTo(w, w.now + ticks)
    case PlayBegins(_, _, source, _) => source == PlayMedia || source == Announce
    case PlayReturns(p) => p in w.plays
    case PlayRaises(p, err, connected, launchFailure) => p in w.plays && RaisedByPlay(err, connected, launchFailure)
    case DeviceStatus(_, _) => true
    case DeviceLoadFailed(_) => true
    case TemplateFailed(_) => true
    case TimerFires(u, k) => MayFire(Device(w.ledger, u), k, w.now)
    case Decide(_, _, _) => w.ledger.listeners == SetUp && w.options.enabled
    case ProbeReturns(i) => i in w.tasks && w.tasks[i].at.InExecutor?
    case ProbeRaises(i, err) =>
      i in w.tasks && w.tasks[i].at.InExecutor? && (err.class_ == TimeoutClass || err.class_ == HomeAssistantClass)
    case ProbeWakes(i) => i in w.tasks && w.tasks[i].at.Sleeping? && w.tasks[i].at.wakeAt <= w.now
    case QuitEnds(i) => i in w.tasks && w.tasks[i].at.Quitting?
    case OptionsChange(_) => !w.closed
    case StopProbes => w.ledger.listeners == SetUp
    case StopRepairs => w.ledger.listeners == [RepairListener]
    case Shutdown => w.ledger.listeners == [] && !w.closed
  }

  // ------------------------------------------------------------------- effects

  /** The device a call of this event is about, and the call. */
  function CallOf(w: World, e: Event): Option<(Uuid, Call)> {
    match e
    case PlayBegins(u, content, source, session) => Some((u, Begin(content, source, session, DELIVERY_TIMEOUT)))
    case PlayRaises(p, err, connected, launchFailure) =>
      if p in w.plays then Some((w.plays[p].uuid, RequestFailed(err, connected, launchFailure))) else None
    case DeviceStatus(u, status) => Some((u, MediaStatus(status)))
    case DeviceLoadFailed(u) => Some((u, LoadFailed))
    case TemplateFailed(u) => Some((u, RecordOutcome(TemplateError, Announce, None, false)))
    case TimerFires(u, k) => Some((u, Expire(k)))
    case Decide(u, snapshot, content) => Some((u, DecisionCall(DecisionOf(w, u, snapshot), snapshot, content)))
    case ProbeRaises(i, err) =>
      if i in w.tasks then Some((w.tasks[i].uuid, RequestFailed(err, false, false))) else None
    case _ => None
  }

  function LedgerAfter(w: World, e: Event): Ledger {
    if e.Shutdown? then Closed(w.ledger)
    else if e.StopProbes? then w.ledger.(listeners := [RepairListener])
    else if e.StopRepairs? then w.ledger.(listeners := [])
    else
      match CallOf(w, e)
      case None => w.ledger
      case Some((u, c)) => On(w.ledger, u, c, w.now, w.options.interval)
  }

  /** The `finally` block of a probe task. */
  function Finished(w: World, i: nat): World
    requires i in w.tasks
  {
    w.(running := w.running - {w.tasks[i].uuid}, tasks := w.tasks - {i})
  }

  function Suspend(w: World, i: nat, s: Suspended): World
    requires i in w.tasks
  {
    w.(tasks := w.tasks[i := w.tasks[i].(at := s)])
  }

  /** A probe that has stopped waiting quits the app if the device's last record is a
      success and the app was idle when the probe was launched. */
  predicate Quits(h: Health, s: Snapshot) {
    h.lastRecord.Some? && h.lastRecord.value.outcome == Ok && s.appIdle
  }

  predicate StillWaiting(w: World, i: nat)
    requires i in w.tasks
  {
    PendingFrom(Device(w.ledger, w.tasks[i].uuid), Probe)
  }

  function Concluded(w: World, i: nat): World
    requires i in w.tasks
  {
    if Quits(Device(w.ledger, w.tasks[i].uuid), w.tasks[i].snapshot) then
      Suspend(w, i, Quitting(w.now + PROBE_WATCHDOG))
    else Finished(w, i)
  }

  predicate GivesUp(w: World, i: nat)
    requires i in w.tasks && w.tasks[i].at.Sleeping?
  {
    StillWaiting(w, i) && w.now > w.tasks[i].at.giveUpAt
  }

  /** One turn of the waiting loop. */
  function Polled(w: World, i: nat, giveUpAt: Time): World
    requires i in w.tasks
  {
    if !StillWaiting(w, i) then Concluded(w, i)
    else if w.now > giveUpAt then Finished(w, i)
    else Suspend(w, i, Sleeping(w.now + POLL_PERIOD, giveUpAt))
  }

  /** A launched probe runs up to its first await, which is the executor job. */
  function Launched(w: World, u: Uuid, s: Snapshot, after: Ledger): World {
    var h := Device(after, u);
    var ordinal := if h.pending.Some? then h.pending.value.ordinal else 0;
    w.(running := w.running + {u},
       tasks := w.tasks[w.spawned := Task(u, s, ordinal, |h.log|, w.now, InExecutor(w.now + PROBE_WATCHDOG))],
       spawned := w.spawned + 1)
  }

  /** The coordinator, the tasks and the clock after an event. */
  function Control(w: World, e: Event): World
    requires Enabled(w, e)
  {
    match e
    case Advance(ticks) => w.(now := w.now + ticks)
    case PlayBegins(u, _, _, _) =>
      w.(plays := w.plays[w.played := Play(u, w.now + REQUEST_WATCHDOG)], played := w.played + 1)
    case PlayReturns(p) => w.(plays := w.plays - {p})
    case PlayRaises(p, _, _, _) => w.(plays := w.plays - {p})
    case Decide(u, snapshot, content) =>
      if DecisionOf(w, u, snapshot) == Launch && snapshot.Some? then
        Launched(w, u, snapshot.value, LedgerAfter(w, e))
      else w
    case ProbeReturns(i) => Polled(w, i, w.now + DELIVERY_TIMEOUT + GIVE_UP_MARGIN)
    case ProbeRaises(i, _) => Finished(w, i)
    case ProbeWakes(i) => Polled(w, i, w.tasks[i].at.giveUpAt)
    case QuitEnds(i) => Finished(w, i)
    case OptionsChange(options) => w.(options := WithFloor(options))
    case Shutdown => w.(closed := true)
    case _ => w
  }

  function Next(w: World, e: Event): World
    requires Enabled(w, e)
  {
    Control(w, e).(ledger := LedgerAfter(w, e))
  }

  // -------------------------------------------------------------------- runs

  ghost predicate Happens(ws: seq<World>, es: seq<Event>, i: nat)
    requires i < |es| < |ws|
  {
    Enabled(ws[i], es[i]) && ws[i + 1] == Next(ws[i], es[i])
  }

  /** One interleaving, from the set-up entry on. */
  ghost predicate IsExecution(ws: seq<World>, es: seq<Event>) {
    && |ws| == |es| + 1
    && IsStart(ws[0])
    && forall i :: 0 <= i < |es| ==> Happens(ws, es, i)
  }
}
