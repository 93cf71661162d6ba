/** What the incremental state of one device means over its whole history, for every
    sequence of ledger calls at any times, late firings of cancelled timers included. */
module DeviceHistory {
  import opened Vocabulary
  import opened DeviceLedger

  /** One call, when it was made, and the breaker's interval if the breaker was attached. */
  datatype Timed = Timed(call: Call, now: Time, interval: Option<nat>)

  function Step(h: Health, t: Timed): Health {
    Apply(h, t.call, t.now, t.interval).health
  }

  /** The `i`-th call of a run takes its `i`-th state to the next one. */
  ghost predicate Follows(hs: seq<Health>, calls: seq<Timed>, i: nat)
    requires i < |calls| < |hs|
  {
    hs[i + 1] == Step(hs[i], calls[i])
  }

  /** A run of one device: any calls, in any order, from the state of a new device. */
  ghost predicate IsRun(u: Uuid, hs: seq<Health>, calls: seq<Timed>) {
    && |hs| == |calls| + 1
    && hs[0] == Fresh(u)
    && forall i :: 0 <= i < |calls| ==> Follows(hs, calls, i)
  }

  /** The request a `Begin` call makes. */
  function RequestOf(t: Timed): Request
    requires t.call.Begin?
  {
    Request(t.call.content, t.call.source, t.now, t.call.session, t.call.timeout)
  }

  /** The requests that some calls begin, in order. */
  function RequestsOf(calls: seq<Timed>): seq<Request> {
    if calls == [] then []
    else
      var last := calls[|calls| - 1];
      RequestsOf(calls[..|calls| - 1]) + if last.call.Begin? then [RequestOf(last)] else []
  }

  // ------------------------------------------------- readings of the full log

  /** The records that answer a request: those with a `requestedAt`. */
  function Answers(log: seq<Entry>): seq<Record> {
    if log == [] then []
    else
      var r := log[|log| - 1].record;
      Answers(log[..|log| - 1]) + if r.requestedAt.Some? then [r] else []
  }

  /** The log without `Unknown` and `SkippedBusy`. */
  function Counted(log: seq<Entry>): seq<Record> {
    if log == [] then []
    else
      var r := log[|log| - 1].record;
      Counted(log[..|log| - 1]) + if r.outcome == Unknown || r.outcome == SkippedBusy then [] else [r]
  }

  /** `s` ends in exactly `n` timeouts. */
  ghost predicate TimeoutsAtEnd(s: seq<Record>, n: nat) {
    && n <= |s|
    && (forall i :: |s| - n <= i < |s| ==> s[i].outcome == Timeout)
    && (n < |s| ==> s[|s| - n - 1].outcome != Timeout)
  }

  /** Exactly the last `n` records of `s` came after the last success. */
  ghost predicate SinceLastOk(s: seq<Record>, n: nat) {
    && n <= |s|
    && (forall i :: |s| - n <= i < |s| ==> s[i].outcome != Ok)
    && (n < |s| ==> s[|s| - n - 1].outcome == Ok)
  }

  /** The number of trailing timeouts, defined without reference to any counter. */
  function TrailingTimeouts(s: seq<Record>): nat {
    if s == [] || s[|s| - 1].outcome != Timeout then 0 else 1 + TrailingTimeouts(s[..|s| - 1])
  }

  /** The seconds a device is left alone after `n` timeouts in a row: the interval doubled
      with each timeout after the first, and never more than an hour. */
  function Doubled(interval: nat, n: nat): nat
    requires n >= 1
  {
    var seconds := interval * Pow2(n - 1);
    if seconds <= 3600 then seconds else 3600
  }

  /** The circuit deadline as a fold over the log: a probe's success closes the circuit,
      a probe's timeout that ends a run of two or more timeouts of any source opens it
      for the time that goes with that run, and nothing else touches it. */
  function CircuitOf(log: seq<Entry>): Option<Time> {
    if log == [] then None
    else
      var e := log[|log| - 1];
      var n := TrailingTimeouts(Counted(log));
      if e.interval.None? || e.record.source != Probe then CircuitOf(log[..|log| - 1])
      else if e.record.outcome == Ok then None
      else if e.record.outcome == Timeout && n >= 2 then
        Some(e.record.resolvedAt + 4 * Doubled(e.interval.value, n))
      else CircuitOf(log[..|log| - 1])
  }

  function LastOkTime(log: seq<Entry>): Option<Time> {
    if log == [] then None
    else if log[|log| - 1].record.outcome == Ok then Some(log[|log| - 1].record.resolvedAt)
    else LastOkTime(log[..|log| - 1])
  }

  // ----------------------------------------------------------- the invariants

  ghost predicate Answer(r: Record, q: Request) {
    r.content == Some(q.content) && r.source == q.source && r.requestedAt == Some(q.requestedAt) &&
    r.elapsed == Some(r.resolvedAt - q.requestedAt)
  }

  /** Exactly-once, first-in first-out accounting: the requests begun are the requests
      answered, in the same order, followed by the pending one if there is one. */
  ghost predicate Fifo(h: Health) {
    var answers := Answers(h.log);
    && |h.begun| == |answers| + (if h.pending.Some? then 1 else 0)
    && (forall k :: 0 <= k < |answers| ==> Answer(answers[k], h.begun[k]))
    && (h.pending.Some? ==> h.pending.value.ordinal == |answers| && h.pending.value.request == h.begun[|answers|])
  }

  /** The running fields are readings of the log. */
  ghost predicate CountersExact(h: Health) {
    var counted := Counted(h.log);
    && SinceLastOk(counted, h.failures)
    && TimeoutsAtEnd(counted, h.timeouts)
    && h.timeouts <= h.failures
    && h.lastOutcome == (if counted == [] then Unknown else counted[|counted| - 1].outcome)
    && h.lastRecord == (if h.log == [] then None else Some(h.log[|h.log| - 1].record))
    && h.lastSuccess == LastOkTime(h.log)
  }

  /** A timer is armed for the pending request, due `timeout` after it was begun, and
      for no other; after a shutdown not even for that one. */
  ghost predicate TimersExact(h: Health) {
    match h.pending
    case None => h.armed == map[]
    case Some(p) => h.armed == if p.cancelable then map[p.ordinal := p.request.requestedAt + p.request.timeout] else map[]
  }

  ghost predicate OwnRecords(h: Health) {
    forall i :: 0 <= i < |h.log| ==> h.log[i].record.uuid == h.uuid
  }

  /** The fields that depend on the log alone. */
  ghost predicate LogExact(h: Health) {
    CountersExact(h) && h.circuit == CircuitOf(h.log) && OwnRecords(h)
  }

  ghost predicate Invariant(h: Health) {
    Fifo(h) && TimersExact(h) && LogExact(h)
  }

  lemma {:induction false} TrailingTimeoutsCounts(s: seq<Record>, n: nat)
    requires TimeoutsAtEnd(s, n)
    ensures TrailingTimeouts(s) == n
  {
    if n > 0 {
      TrailingTimeoutsCounts(s[..|s| - 1], n - 1);
    }
  }

  // --------------------------------------------------- one append keeps them

  /** Appending a record extends every reading of the log by that record. */
  lemma AppendReadings(h: Health, r: Record, interval: Option<nat>)
    ensures var h' := Append(h, r, interval);
      && h'.log == h.log + [Entry(r, interval)]
      && Answers(h'.log) == Answers(h.log) + (if r.requestedAt.Some? then [r] else [])
      && Counted(h'.log) == Counted(h.log) + (if IsCounted(r.outcome) then [r] else [])
      && h'.pending == h.pending && h'.armed == h.armed && h'.begun == h.begun && h'.uuid == h.uuid
  {
    var log' := h.log + [Entry(r, interval)];
    assert log'[..|log'| - 1] == h.log;
  }

  lemma ExtendRuns(s: seq<Record>, r: Record, failures: nat, timeouts: nat)
    requires SinceLastOk(s, failures) && TimeoutsAtEnd(s, timeouts)
    ensures SinceLastOk(s + [r], if r.outcome == Ok then 0 else failures + 1)
    ensures TimeoutsAtEnd(s + [r], if r.outcome == Timeout then timeouts + 1 else 0)
  {
  }

  lemma AppendCounters(h: Health, r: Record, interval: Option<nat>)
    requires CountersExact(h)
    ensures CountersExact(Append(h, r, interval))
  {
    hide Append, Answers, Counted, SinceLastOk, TimeoutsAtEnd;
    AppendReadings(h, r, interval);
    AppendFields(h, r, interval);
    ExtendRuns(Counted(h.log), r, h.failures, h.timeouts);
    var h' := Append(h, r, interval);
    assert h'.log[..|h'.log| - 1] == h.log;
    assert Counted(h.log) + [] == Counted(h.log);
  }

  /** The breaker has no say in the counters. */
  lemma AppendFields(h: Health, r: Record, interval: Option<nat>)
    ensures var h', counted := Append(h, r, interval), Count(h, r, interval);
      && h'.failures == counted.failures && h'.timeouts == counted.timeouts && h'.lastOutcome == counted.lastOutcome
      && h'.lastRecord == counted.lastRecord && h'.lastSuccess == counted.lastSuccess
  {
  }

  lemma AppendCircuit(h: Health, r: Record, interval: Option<nat>)
    requires CountersExact(h) && h.circuit == CircuitOf(h.log)
    ensures Append(h, r, interval).circuit == CircuitOf(Append(h, r, interval).log)
  {
    hide Answers, Counted, TrailingTimeouts, SinceLastOk, Count, Doubled;
    var h' := Append(h, r, interval);
    AppendCounters(h, r, interval);
    assert h'.log[..|h'.log| - 1] == h.log;
    TrailingTimeoutsCounts(Counted(h'.log), h'.timeouts);
    AppendBreaks(h, r, interval);
  }

  /** What the breaker sees of a record is the counters after it. */
  lemma AppendBreaks(h: Health, r: Record, interval: Option<nat>)
    ensures var h' := Append(h, r, interval);
      h'.circuit ==
        if interval.None? || r.source != Probe then h.circuit
        else if r.outcome == Ok then None
        else if r.outcome == Timeout && h'.timeouts >= CIRCUIT_BREAKER_TIMEOUTS then
          Some(r.resolvedAt + 4 * Doubled(interval.value, h'.timeouts))
        else h.circuit
  {
    if interval.Some? && Append(h, r, interval).timeouts >= CIRCUIT_BREAKER_TIMEOUTS {
      BackoffIsDoubled(interval.value, Append(h, r, interval).timeouts);
    }
    hide Backoff, Doubled;
  }

  lemma BackoffIsDoubled(interval: nat, n: nat)
    requires n >= CIRCUIT_BREAKER_TIMEOUTS
    ensures Backoff(interval, n) == Doubled(interval, n)
  {
    hide Pow2;
  }

  lemma AppendLog(h: Health, r: Record, interval: Option<nat>)
    requires LogExact(h) && r.uuid == h.uuid
    ensures LogExact(Append(h, r, interval))
  {
    AppendCounters(h, r, interval);
    AppendCircuit(h, r, interval);
    AppendReadings(h, r, interval);
  }

  /** A record that answers nothing leaves the accounting alone. */
  lemma NoteFifo(h: Health, r: Record, interval: Option<nat>)
    requires Fifo(h) && r.requestedAt.None?
    ensures Fifo(Append(h, r, interval))
  {
    AppendReadings(h, r, interval);
  }

  /** The record of a resolution answers the pending request, if there is one. */
  lemma ResolveFifo(h: Health, r: Record, interval: Option<nat>)
    requires Fifo(h)
    requires match h.pending
             case Some(p) => Answer(r, p.request)
             case None => r.requestedAt.None?
    ensures Fifo(Append(Detach(h), r, interval))
  {
    AppendReadings(Detach(h), r, interval);
  }

  lemma DetachLog(h: Health)
    requires LogExact(h)
    ensures LogExact(Detach(h))
  {
  }

  lemma DetachTimers(h: Health)
    requires TimersExact(h)
    ensures Detach(h).armed == map[] && Detach(h).pending.None? && Detach(h).uuid == h.uuid
  {
  }

  lemma ResolutionAnswers(h: Health, outcome: Outcome, responded: bool, observed: Option<Status>,
                          unsolicited: Option<Content>, now: Time)
    ensures var r := ResolutionRecord(h, outcome, responded, observed, unsolicited, now);
      && r.uuid == h.uuid
      && match h.pending
         case Some(p) => Answer(r, p.request)
         case None => r.requestedAt.None?
  {
  }

  /** Answering or observing keeps the invariant, whatever the outcome. */
  lemma ResolveKeeps(h: Health, outcome: Outcome, responded: bool, observed: Option<Status>,
                     unsolicited: Option<Content>, now: Time, interval: Option<nat>)
    requires Invariant(h)
    ensures var h' := Resolve(h, outcome, responded, observed, unsolicited, now, interval).health;
            Invariant(h') && h'.pending.None? && h'.uuid == h.uuid
  {
    hide LogExact, Fifo, Append, Detach, ResolutionRecord, Answer, Answers, Counted;
    var r := ResolutionRecord(h, outcome, responded, observed, unsolicited, now);
    ResolutionAnswers(h, outcome, responded, observed, unsolicited, now);
    ResolveFifo(h, r, interval);
    DetachTimers(h);
    DetachLog(h);
    AppendLog(Detach(h), r, interval);
    AppendReadings(Detach(h), r, interval);
  }

  /** Logging a record that answers nothing keeps the invariant. */
  lemma NoteKeeps(h: Health, r: Record, interval: Option<nat>)
    requires Invariant(h) && r.requestedAt.None? && r.uuid == h.uuid
    ensures Invariant(Append(h, r, interval)) && Append(h, r, interval).uuid == h.uuid
  {
    NoteFifo(h, r, interval);
    AppendLog(h, r, interval);
    AppendReadings(h, r, interval);
  }

  lemma BeginKeeps(h: Health, content: Content, source: Source, session: Option<int>, timeout: Time,
                   now: Time, interval: Option<nat>)
    requires Invariant(h)
    ensures Invariant(BeginRequest(h, content, source, session, timeout, now, interval).health)
    ensures BeginRequest(h, content, source, session, timeout, now, interval).health.uuid == h.uuid
  {
    if h.pending.Some? {
      ResolveKeeps(h, Unknown, false, None, None, now, interval);
      BeginIdle(Resolve(h, Unknown, false, None, None, now, interval).health, content, source, session, timeout, now, interval);
    } else {
      BeginIdle(h, content, source, session, timeout, now, interval);
    }
  }

  lemma BeginIdle(h: Health, content: Content, source: Source, session: Option<int>, timeout: Time,
                  now: Time, interval: Option<nat>)
    requires Invariant(h) && h.pending.None?
    ensures Invariant(BeginRequest(h, content, source, session, timeout, now, interval).health)
  {
    var h' := BeginRequest(h, content, source, session, timeout, now, interval).health;
    assert LogExact(h');
    assert TimersExact(h');
  }

  lemma ExpireKeeps(h: Health, ordinal: nat, now: Time, interval: Option<nat>)
    requires Invariant(h)
    ensures Invariant(OnExpire(h, ordinal, now, interval).health) && OnExpire(h, ordinal, now, interval).health.uuid == h.uuid
    ensures !PendingIs(h, ordinal) ==> OnExpire(h, ordinal, now, interval) == Effect(h, None)
  {
    var f := Fired(h, ordinal);
    if PendingIs(h, ordinal) {
      assert f.armed == map[];
      assert LogExact(f);
      assert Fifo(f);
      ResolveKeeps(f, Timeout, false, None, None, now, interval);
    } else {
      assert f.armed == h.armed;
    }
  }

  lemma CancelKeeps(h: Health)
    requires Invariant(h)
    ensures Invariant(Cancelled(h)) && Cancelled(h).uuid == h.uuid && Cancelled(h).armed == map[]
  {
    if h.pending.Some? && h.pending.value.cancelable {
      assert Cancelled(h).armed == map[];
    }
  }

  /** Every call of the ledger, at any time, keeps the invariant. */
  lemma StepKeeps(h: Health, t: Timed)
    requires Invariant(h)
    ensures Invariant(Step(h, t)) && Step(h, t).uuid == h.uuid
  {
    hide Invariant, Resolve, Append, BeginRequest, OnExpire;
    var now, interval := t.now, t.interval;
    match t.call
    case Begin(content, source, session, timeout) => BeginKeeps(h, content, source, session, timeout, now, interval);
    case MediaStatus(status) =>
      NoteKeeps(h, ObservationRecord(h, status, now), interval);
      ResolveKeeps(h, FetchFailed, true, Some(status), if h.pending.None? then status.content else None, now, interval);
      ResolveKeeps(h, Ok, true, Some(status), None, now, interval);
    case LoadFailed => ResolveKeeps(h, FetchFailed, true, None, None, now, interval);
    case RequestFailed(err, connected, launchFailure) =>
      var (outcome, responded) := Classify(err, connected, launchFailure);
      ResolveKeeps(h, outcome, responded, None, None, now, interval);
    case RecordOutcome(outcome, source, about, responded) =>
      ResolveKeeps(h, outcome, responded, None, None, now, interval);
      NoteKeeps(h, PlainRecord(h, outcome, source, about, responded, now), interval);
    case Expire(ordinal) => ExpireKeeps(h, ordinal, now, interval);
    case CancelTimer => CancelKeeps(h);
    case Look =>
  }

  /** Every state of every run satisfies the invariant. */
  lemma {:induction false} RunKeeps(u: Uuid, hs: seq<Health>, calls: seq<Timed>, i: nat)
    requires IsRun(u, hs, calls) && i < |hs|
    ensures Invariant(hs[i]) && hs[i].uuid == u
  {
    if i > 0 {
      RunKeeps(u, hs, calls, i - 1);
      hide Invariant, Step;
      assert Follows(hs, calls, i - 1);
      StepKeeps(hs[i - 1], calls[i - 1]);
    } else {
      FreshKeeps(u);
    }
  }

  lemma FreshKeeps(u: Uuid)
    ensures Invariant(Fresh(u))
  {
  }

  // ------------------------------------------------------------- main results

  lemma StepBegun(h: Health, t: Timed)
    ensures Step(h, t).begun == h.begun + if t.call.Begin? then [RequestOf(t)] else []
  {
    hide Append;
  }

  lemma {:induction false} BegunByCalls(u: Uuid, hs: seq<Health>, calls: seq<Timed>, i: nat)
    requires IsRun(u, hs, calls) && i < |hs|
    ensures hs[i].begun == RequestsOf(calls[..i])
  {
    if i > 0 {
      hide Step;
      BegunByCalls(u, hs, calls, i - 1);
      assert Follows(hs, calls, i - 1);
      StepBegun(hs[i - 1], calls[i - 1]);
      assert calls[..i][..i - 1] == calls[..i - 1];
    }
  }

  /** No begun request is lost, duplicated or reordered: the requests that the calls have
      begun are those answered, in order, and the pending one. */
  lemma FifoAccounting(u: Uuid, hs: seq<Health>, calls: seq<Timed>, i: nat)
    requires IsRun(u, hs, calls) && i < |hs|
    ensures hs[i].begun == RequestsOf(calls[..i]) && Fifo(hs[i])
  {
    RunKeeps(u, hs, calls, i);
    BegunByCalls(u, hs, calls, i);
  }

  /** The incremental counters are exact readings of the full history. */
  lemma CountersRefineHistory(u: Uuid, hs: seq<Health>, calls: seq<Timed>, i: nat)
    requires IsRun(u, hs, calls) && i < |hs|
    ensures CountersExact(hs[i])
  {
    RunKeeps(u, hs, calls, i);
  }

  /** The circuit deadline is the fold of the full history. */
  lemma CircuitRefinesHistory(u: Uuid, hs: seq<Health>, calls: seq<Timed>, i: nat)
    requires IsRun(u, hs, calls) && i < |hs|
    ensures hs[i].circuit == CircuitOf(hs[i].log)
  {
    RunKeeps(u, hs, calls, i);
  }

  /** Armed timers are the pending requests' timers, one each. */
  lemma TimersMatchPending(u: Uuid, hs: seq<Health>, calls: seq<Timed>, i: nat)
    requires IsRun(u, hs, calls) && i < |hs|
    ensures TimersExact(hs[i])
  {
    RunKeeps(u, hs, calls, i);
  }
}
