/** The delivery state of one device, and what every call of the ledger does to it.

    A `Health` is the abstract value of a `DeviceHealth` object together with the
    event-loop timers armed for it and two histories the program does not keep:
    every record ever appended (`log`) and every request ever begun (`begun`). */
module DeviceLedger {
  import opened Vocabulary

  /** The unresolved request. `ordinal` is its position in `begun`, so it names the
      request object; `cancelable` says that its cancel handle is still set. */
  datatype Pending = Pending(request: Request, ordinal: nat, cancelable: bool)

  /** A logged record, with the probe interval in force if the circuit breaker was
      listening when it was appended. */
  datatype Entry = Entry(record: Record, interval: Option<nat>)

  datatype Health = Health(
    uuid: Uuid,
    lastOutcome: Outcome,
    lastRecord: Option<Record>,
    lastSuccess: Option<Time>,
    failures: nat,
    timeouts: nat,
    circuit: Option<Time>,
    pending: Option<Pending>,
    armed: map<nat, Time>,
    log: seq<Entry>,
    begun: seq<Request>)

  /** The state after a call, and the record the call appended, if any. */
  datatype Effect = Effect(health: Health, emitted: Option<Record>)

  function Fresh(u: Uuid): Health {
    Health(u, Unknown, None, None, 0, 0, None, None, map[], [], [])
  }

  predicate PendingFrom(h: Health, source: Source) {
    h.pending.Some? && h.pending.value.request.source == source
  }

  predicate PendingIs(h: Health, ordinal: nat) {
    h.pending.Some? && h.pending.value.ordinal == ordinal
  }

  // ---------------------------------------------------------------- appending

  function Backoff(interval: nat, timeouts: nat): nat
    requires timeouts >= CIRCUIT_BREAKER_TIMEOUTS
  {
    Min(interval * Pow2(timeouts - CIRCUIT_BREAKER_TIMEOUTS + 1), CIRCUIT_BREAKER_MAX_BACKOFF)
  }

  /** The circuit breaker's reaction to a record (`_async_on_record`). */
  function OnBreaker(h: Health, r: Record, interval: nat): Health {
    if r.source != Probe then h
    else if r.outcome == Ok then h.(circuit := None)
    else if r.outcome == Timeout && h.timeouts >= CIRCUIT_BREAKER_TIMEOUTS then
      h.(circuit := Some(r.resolvedAt + Backoff(interval, h.timeouts) * SECOND))
    else h
  }

  /** The counters after a record (`_append`, before the listeners run). */
  function Count(h: Health, r: Record, interval: Option<nat>): Health {
    h.(lastRecord := Some(r),
       lastOutcome := if IsCounted(r.outcome) then r.outcome else h.lastOutcome,
       lastSuccess := if r.outcome == Ok then Some(r.resolvedAt) else h.lastSuccess,
       failures :=
         if r.outcome == Ok then 0
         else if IsFailure(r.outcome) then h.failures + 1
         else h.failures,
       timeouts :=
         if r.outcome == Ok then 0
         else if r.outcome == Timeout then h.timeouts + 1
         else if IsFailure(r.outcome) then 0
         else h.timeouts,
       log := h.log + [Entry(r, interval)])
  }

  /** A record is logged; the pending request, the timers and the requests are untouched. */
  function Append(h: Health, r: Record, interval: Option<nat>): (h': Health)
    ensures h'.log == h.log + [Entry(r, interval)] && h'.lastRecord == Some(r)
    ensures h'.uuid == h.uuid && h'.pending == h.pending && h'.armed == h.armed && h'.begun == h.begun
  {
    var counted := Count(h, r, interval);
    match interval
    case None => counted
    case Some(i) => OnBreaker(counted, r, i)
  }

  /** The record `_resolve` writes: it carries the pending request's own content id,
      source and time, or is a mere observation when nothing is pending. */
  function ResolutionRecord(h: Health, outcome: Outcome, responded: bool, observed: Option<Status>,
                            unsolicited: Option<Content>, now: Time): Record
  {
    var player := if observed.Some? then observed.value.player else None;
    var idle := if observed.Some? then observed.value.idle else None;
    var session := if observed.Some? then observed.value.session else None;
    match h.pending
    case Some(p) =>
      Record(h.uuid, p.request.source, outcome, Some(p.request.content), responded,
             Some(p.request.requestedAt), now, Some(now - p.request.requestedAt), player, idle, session)
    case None =>
      Record(h.uuid, Observed, outcome, unsolicited, responded, None, now, None, player, idle, session)
  }

  /** Forget the pending request and cancel its timer. */
  function Detach(h: Health): Health {
    h.(pending := None,
       armed := if h.pending.Some? && h.pending.value.cancelable then h.armed - {h.pending.value.ordinal}
                else h.armed)
  }

  function Resolve(h: Health, outcome: Outcome, responded: bool, observed: Option<Status>,
                   unsolicited: Option<Content>, now: Time, interval: Option<nat>): (e: Effect)
    ensures e.health.uuid == h.uuid && e.health.pending.None? && e.health.begun == h.begun
  {
    var r := ResolutionRecord(h, outcome, responded, observed, unsolicited, now);
    Effect(Append(Detach(h), r, interval), Some(r))
  }

  // -------------------------------------------------------------------- calls

  /** The calls a device's state answers to. `Look` is `device()` alone, which only
      makes sure that the device has a state. */
  datatype Call =
    | Begin(content: Content, source: Source, session: Option<int>, timeout: Time)
    | MediaStatus(status: Status)
    | LoadFailed
    | RequestFailed(err: Exception, connected: bool, launchFailure: bool)
    | RecordOutcome(outcome: Outcome, source: Source, about: Option<Content>, responded: bool)
    | Expire(ordinal: nat)
    | CancelTimer
    | Look

  /** An unresolved request is superseded by a newer one, as neither success nor failure. */
  function Superseded(h: Health, now: Time, interval: Option<nat>): (e: Effect)
    ensures e.health.uuid == h.uuid && e.health.pending.None? && e.health.begun == h.begun
  {
    if h.pending.Some? then Resolve(h, Unknown, false, None, None, now, interval) else Effect(h, None)
  }

  function BeginRequest(h: Health, content: Content, source: Source, session: Option<int>,
                        timeout: Time, now: Time, interval: Option<nat>): Effect
  {
    var prior := Superseded(h, now, interval);
    var request := Request(content, source, now, session, timeout);
    var ordinal := |prior.health.begun|;
    Effect(prior.health.(pending := Some(Pending(request, ordinal, true)),
                         armed := prior.health.armed[ordinal := now + timeout],
                         begun := prior.health.begun + [request]),
           prior.emitted)
  }

  function ObservationRecord(h: Health, status: Status, now: Time): Record {
    Record(h.uuid, Observed, FetchFailed, status.content, true, None, now, None,
           status.player, status.idle, status.session)
  }

  function OnMediaStatus(h: Health, status: Status, now: Time, interval: Option<nat>): Effect {
    if status.playerIsIdle && status.idle == Some(IdleError) then
      if h.pending.Some? && status.content != None && status.content != Some(h.pending.value.request.content) then
        var r := ObservationRecord(h, status, now);
        Effect(Append(h, r, interval), Some(r))
      else
        Resolve(h, FetchFailed, true, Some(status), if h.pending.None? then status.content else None, now, interval)
    else if h.pending.None? then Effect(h, None)
    else if status.content != Some(h.pending.value.request.content) then Effect(h, None)
    else if status.player != Some(Buffering) && status.player != Some(Playing) then Effect(h, None)
    else if h.pending.value.request.session.Some? && status.session == h.pending.value.request.session then
      Effect(h, None)
    else Resolve(h, Ok, true, Some(status), None, now, interval)
  }

  /** The outcome and `responded` flag an exception is classified as. */
  function Classify(err: Exception, connected: bool, launchFailure: bool): (Outcome, bool) {
    var cause := if IsChromecastError(err.class_) then Some(err.class_) else err.cause;
    if err.class_ == TimeoutClass then (Timeout, false)
    else if cause == Some(RequestTimeoutClass) then (Timeout, false)
    else if cause == Some(RequestFailedClass) && (connected || launchFailure) then (FetchFailed, true)
    else if cause == Some(NotConnectedClass) || cause == Some(ConnectionClass) || cause == Some(RequestFailedClass) then
      (Unreachable, false)
    else (FetchFailed, true)
  }

  function PlainRecord(h: Health, outcome: Outcome, source: Source, content: Option<Content>,
                       responded: bool, now: Time): Record
  {
    Record(h.uuid, source, outcome, content, responded, None, now, None, None, None, None)
  }

  function OnRecordOutcome(h: Health, outcome: Outcome, source: Source, content: Option<Content>,
                           responded: bool, now: Time, interval: Option<nat>): Effect
  {
    if PendingFrom(h, source) then Resolve(h, outcome, responded, None, None, now, interval)
    else
      var r := PlainRecord(h, outcome, source, content, responded, now);
      Effect(Append(h, r, interval), Some(r))
  }

  /** A timer has left the event loop; the request it belongs to loses its handle. */
  function Fired(h: Health, ordinal: nat): Health {
    h.(armed := h.armed - {ordinal},
       pending := if PendingIs(h, ordinal) then Some(h.pending.value.(cancelable := false)) else h.pending)
  }

  /** `_expire`, called for the request numbered `ordinal`, possibly long after that
      request was resolved: only the request that is still pending is timed out. */
  function OnExpire(h: Health, ordinal: nat, now: Time, interval: Option<nat>): Effect {
    if PendingIs(h, ordinal) then Resolve(Fired(h, ordinal), Timeout, false, None, None, now, interval)
    else Effect(Fired(h, ordinal), None)
  }

  /** What `async_shutdown` does to one device. */
  function Cancelled(h: Health): Health {
    if h.pending.Some? && h.pending.value.cancelable then
      h.(armed := h.armed - {h.pending.value.ordinal}, pending := Some(h.pending.value.(cancelable := false)))
    else h
  }

  function Apply(h: Health, c: Call, now: Time, interval: Option<nat>): Effect {
    match c
    case Begin(content, source, session, timeout) => BeginRequest(h, content, source, session, timeout, now, interval)
    case MediaStatus(status) => OnMediaStatus(h, status, now, interval)
    case LoadFailed =>
      if h.pending.None? then Effect(h, None) else Resolve(h, FetchFailed, true, None, None, now, interval)
    case RequestFailed(err, connected, launchFailure) =>
      var (outcome, responded) := Classify(err, connected, launchFailure);
      Resolve(h, outcome, responded, None, None, now, interval)
    case RecordOutcome(outcome, source, about, responded) =>
      OnRecordOutcome(h, outcome, source, about, responded, now, interval)
    case Expire(ordinal) => OnExpire(h, ordinal, now, interval)
    case CancelTimer => Effect(Cancelled(h), None)
    case Look => Effect(h, None)
  }
}
