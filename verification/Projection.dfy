/** Seen from one device, every interleaving of the protocol is a run of that device, so
    whatever holds of runs holds of interleavings. */
module Projection {
  import opened Vocabulary
  import opened DeviceLedger
  import opened DeviceHistory
  import opened OkSoundness
  import opened Ledger
  import opened LedgerHistory
  import opened Protocol
  import opened ProtocolSafety
  import opened ProtocolTheorems
  import DeadDevice

  /** Call `k` of the run is what event `at[k]` did to device `u`. */
  ghost predicate Projects(ws: seq<World>, es: seq<Event>, i: nat, u: Uuid,
                           hs: seq<Health>, calls: seq<Timed>, at: seq<nat>)
    requires |ws| == |es| + 1 && i < |ws|
  {
    && |hs| == |calls| + 1 && IsRun(u, hs, calls) && hs[|calls|] == Device(ws[i].ledger, u)
    && |at| == |calls|
    && (forall k :: 0 <= k < |at| ==> Caused(ws, es, i, u, hs[k], calls[k], at[k]))
    && (forall j, k :: 0 <= j < k < |at| ==> at[j] < at[k])
  }

  ghost predicate Caused(ws: seq<World>, es: seq<Event>, i: nat, u: Uuid, h: Health, t: Timed, n: nat)
    requires |ws| == |es| + 1 && i < |ws|
  {
    && n < i && h == Device(ws[n].ledger, u)
    && CallOn(ws[n], es[n], u) == Some(t.call) && t == TimedCall(ws[n], t.call)
  }

  lemma {:induction false} DeviceRun(ws: seq<World>, es: seq<Event>, i: nat, u: Uuid)
    returns (hs: seq<Health>, calls: seq<Timed>, at: seq<nat>)
    requires IsExecution(ws, es) && i < |ws|
    ensures Projects(ws, es, i, u, hs, calls, at)
  {
    hide Step, Next, Enabled, LedgerInvariant, Exclusive, TasksRight, PendingRight, CallOn;
    if i == 0 {
      hs, calls, at := [Fresh(u)], [], [];
    } else {
      hs, calls, at := DeviceRun(ws, es, i - 1, u);
      assert Happens(ws, es, i - 1);
      Always(ws, es, i - 1);
      DeviceAfter(ws[i - 1], es[i - 1], u);
      var c := CallOn(ws[i - 1], es[i - 1], u);
      if c.Some? {
        ghost var t := TimedCall(ws[i - 1], c.value);
        Extend(ws, es, i, u, hs, calls, at, t);
        hs, calls, at := hs + [Step(hs[|calls|], t)], calls + [t], at + [i - 1];
      } else {
        Rest(ws, es, i, u, hs, calls, at);
      }
    }
  }

  lemma Extend(ws: seq<World>, es: seq<Event>, i: nat, u: Uuid,
               hs: seq<Health>, calls: seq<Timed>, at: seq<nat>, t: Timed)
    requires |ws| == |es| + 1 && 0 < i < |ws| && Projects(ws, es, i - 1, u, hs, calls, at)
    requires Device(ws[i].ledger, u) == Step(Device(ws[i - 1].ledger, u), t)
    requires CallOn(ws[i - 1], es[i - 1], u) == Some(t.call) && t == TimedCall(ws[i - 1], t.call)
    ensures Projects(ws, es, i, u, hs + [Step(hs[|calls|], t)], calls + [t], at + [i - 1])
  {
    hide Step, CallOn;
    var hs', calls', at' := hs + [Step(hs[|calls|], t)], calls + [t], at + [i - 1];
    forall k | 0 <= k < |calls'| ensures Follows(hs', calls', k) {
      if k < |calls| {
        assert Follows(hs, calls, k);
      }
    }
    forall k | 0 <= k < |at'| ensures Caused(ws, es, i, u, hs'[k], calls'[k], at'[k]) {
      if k < |at| {
        assert Caused(ws, es, i - 1, u, hs[k], calls[k], at[k]);
      }
    }
  }

  lemma Rest(ws: seq<World>, es: seq<Event>, i: nat, u: Uuid, hs: seq<Health>, calls: seq<Timed>, at: seq<nat>)
    requires |ws| == |es| + 1 && 0 < i < |ws| && Projects(ws, es, i - 1, u, hs, calls, at)
    requires Device(ws[i].ledger, u) == Device(ws[i - 1].ledger, u)
    ensures Projects(ws, es, i, u, hs, calls, at)
  {
    hide Step, CallOn, IsRun;
    forall k | 0 <= k < |at| ensures Caused(ws, es, i, u, hs[k], calls[k], at[k]) {
      assert Caused(ws, es, i - 1, u, hs[k], calls[k], at[k]);
    }
  }

  // ------------------------------------------------- evidence for a success

  /** Event `b` began request `q` on device `u`: a user's play or a probe's launch. */
  ghost predicate BeginsAt(ws: seq<World>, es: seq<Event>, b: nat, u: Uuid, q: Request)
    requires b < |es| < |ws|
  {
    && (es[b].PlayBegins? || (es[b].Decide? && DecisionOf(ws[b], u, es[b].snapshot) == Launch))
    && es[b].uuid == u && q.requestedAt == ws[b].now
    && CallOn(ws[b], es[b], u) == Some(Begin(q.content, q.source, q.session, q.timeout))
  }

  /** Record `r` reports request `q`, which event `b` began, and event `j`, a status of
      the device that confirms `q`, caused it. */
  ghost predicate Evidence(ws: seq<World>, es: seq<Event>, u: Uuid, r: Record, q: Request, b: nat, j: nat)
    requires |ws| == |es| + 1
  {
    && b < j < |es|
    && BeginsAt(ws, es, b, u, q) && Answer(r, q)
    && es[j].DeviceStatus? && es[j].uuid == u && Confirms(es[j].status, q) && r.resolvedAt == ws[j].now
    && PendsAs(Device(ws[j].ledger, u), |Device(ws[b].ledger, u).begun|, q)
    && Device(ws[j + 1].ledger, u).log == Device(ws[j].ledger, u).log + [Entry(r, BreakerInterval(ws[j].ledger, ws[j].options.interval))]
  }

  lemma ProjectedCallers(ws: seq<World>, es: seq<Event>, i: nat, u: Uuid, hs: seq<Health>, calls: seq<Timed>, at: seq<nat>)
    requires |ws| == |es| + 1 && i < |ws| && Projects(ws, es, i, u, hs, calls, at)
    ensures CallersOnly(calls)
  {
    hide CallOn, IsRun, CallerCall;
    forall k | 0 <= k < |calls| ensures CallerCall(calls[k].call) {
      assert Caused(ws, es, i, u, hs[k], calls[k], at[k]);
      CallsAreCallers(ws[at[k]], es[at[k]], u);
    }
  }

  lemma StatusOf(w: World, e: Event, u: Uuid)
    ensures CallOn(w, e, u).Some? && CallOn(w, e, u).value.MediaStatus? ==>
      e.DeviceStatus? && e.uuid == u && e.status == CallOn(w, e, u).value.status
  {
    hide DecisionOf;
  }

  /** Main result: no interleaving ever reports a success without evidence. */
  lemma EveryOkHasEvidence(ws: seq<World>, es: seq<Event>, i: nat, u: Uuid, m: nat)
    requires IsExecution(ws, es) && i < |ws|
    requires m < |Device(ws[i].ledger, u).log| && Device(ws[i].ledger, u).log[m].record.outcome == Ok
    ensures exists q: Request, b: nat, j: nat :: j < i && Evidence(ws, es, u, Device(ws[i].ledger, u).log[m].record, q, b, j)
  {
    hide Happens, Step, CallOn, Confirms;
    var hs, calls, at := DeviceRun(ws, es, i, u);
    ProjectedCallers(ws, es, i, u, hs, calls, at);
    OkIsCaused(u, hs, calls, |calls|, m);
    var r := hs[|calls|].log[m].record;
    var b: nat, j: nat :| j < |calls| && CausedBy(hs, calls, r, b, j);
    EvidenceOf(ws, es, i, u, hs, calls, at, r, b, j);
  }

  lemma EvidenceOf(ws: seq<World>, es: seq<Event>, i: nat, u: Uuid, hs: seq<Health>, calls: seq<Timed>, at: seq<nat>,
                   r: Record, b: nat, j: nat)
    requires IsExecution(ws, es) && i < |ws| && Projects(ws, es, i, u, hs, calls, at)
    requires j < |calls| && CausedBy(hs, calls, r, b, j)
    ensures at[j] < i && Evidence(ws, es, u, r, RequestOf(calls[b]), at[b], at[j])
  {
    hide CallOn, Confirms, Step, WorldInvariant, Enabled, Next, DecisionOf;
    assert Caused(ws, es, i, u, hs[b], calls[b], at[b]);
    assert Caused(ws, es, i, u, hs[j], calls[j], at[j]);
    assert Happens(ws, es, at[b]) && Happens(ws, es, at[j]);
    Always(ws, es, at[j]);
    WorldLedger(ws[at[j]]);
    DeviceAfter(ws[at[j]], es[at[j]], u);
    BeginsOf(ws[at[b]], es[at[b]], u);
    StatusOf(ws[at[j]], es[at[j]], u);
    assert PendsAs(hs[j], |hs[b].begun|, RequestOf(calls[b]));
    assert Follows(hs, calls, j);
  }

  lemma WorldLedger(w: World)
    requires WorldInvariant(w)
    ensures LedgerInvariant(w.ledger)
  {
  }

  /** In every interleaving `responded` means that the device answered. */
  lemma RespondedAlways(ws: seq<World>, es: seq<Event>, i: nat, u: Uuid, m: nat)
    requires IsExecution(ws, es) && i < |ws| && m < |Device(ws[i].ledger, u).log|
    ensures RespondedRight(Device(ws[i].ledger, u).log[m].record)
  {
    hide Happens, Step, CallOn;
    var hs, calls, at := DeviceRun(ws, es, i, u);
    ProjectedCallers(ws, es, i, u, hs, calls, at);
    RespondedMeansAnswered(u, hs, calls, |calls|, m);
  }

  // ------------------------------------------------------------- dead devices

  /** The options leave the interval alone. It may be any that is at least 60 s. */
  ghost predicate FixedInterval(ws: seq<World>, i: nat, interval: nat)
    requires i < |ws|
  {
    forall n :: 0 <= n <= i ==> ws[n].options.interval == interval
  }

  lemma {:induction false} TimePasses(ws: seq<World>, es: seq<Event>, m: nat, n: nat)
    requires IsExecution(ws, es) && m <= n < |ws|
    ensures ws[m].now <= ws[n].now
    ensures ws[n].ledger.listeners == SetUp ==> ws[m].ledger.listeners == SetUp
    decreases n - m
  {
    if m < n {
      hide Next, Enabled, IsStart, StagesRight;
      assert Happens(ws, es, n - 1);
      StagesAlways(ws, es, n - 1);
      ClosesOnce(ws[n - 1], es[n - 1]);
      if ws[n].ledger.listeners == SetUp {
        AttachesNone(ws[n - 1], es[n - 1]);
      }
      TimePasses(ws, es, m, n - 1);
    }
  }

  lemma StagesAlways(ws: seq<World>, es: seq<Event>, i: nat)
    requires IsExecution(ws, es) && i < |ws|
    ensures StagesRight(ws[i])
  {
    hide LedgerInvariant, Exclusive, TasksRight, PendingRight, Happens, IsStart;
    Always(ws, es, i);
  }

  /** While the breaker listens, no unload has begun. */
  lemma AttachesNone(w: World, e: Event)
    requires Enabled(w, e) && StagesRight(w) && Next(w, e).ledger.listeners == SetUp
    ensures w.ledger.listeners == SetUp && !w.closed && !e.StopProbes? && !e.StopRepairs? && e != Shutdown
  {
    hide CallOf, Apply, Control, Notify, Push, MayAdvanceTo;
    StagesKept(w, e);
  }

  lemma EventPaced(ws: seq<World>, es: seq<Event>, n: nat, u: Uuid, interval: nat)
    requires IsExecution(ws, es) && n < |es| && ws[n + 1].ledger.listeners == SetUp && ws[n].options.interval == interval
    requires CallOn(ws[n], es[n], u).Some?
    ensures DeadDevice.Paced(Device(ws[n].ledger, u), TimedCall(ws[n], CallOn(ws[n], es[n], u).value), interval)
  {
    hide LedgerInvariant, Exclusive, TasksRight, PendingRight, Next;
    Always(ws, es, n);
    assert Happens(ws, es, n);
    AttachesNone(ws[n], es[n]);
    CallsAreCallers(ws[n], es[n], u);
    BeginsOf(ws[n], es[n], u);
    ProbeOwnership(ws, es, n, u);
    assert SetUp[1] == BreakerListener;
  }

  lemma ProjectedPaced(ws: seq<World>, es: seq<Event>, i: nat, u: Uuid, hs: seq<Health>, calls: seq<Timed>, at: seq<nat>, interval: nat)
    requires IsExecution(ws, es) && i < |ws| && ws[i].ledger.listeners == SetUp && FixedInterval(ws, i, interval)
    requires Projects(ws, es, i, u, hs, calls, at)
    ensures DeadDevice.PacedRun(hs, calls, interval)
  {
    hide CallOn, IsRun, Next, Enabled, DeadDevice.Paced;
    forall k | 0 <= k < |calls| ensures DeadDevice.Paced(hs[k], calls[k], interval) {
      assert Caused(ws, es, i, u, hs[k], calls[k], at[k]);
      TimePasses(ws, es, at[k] + 1, i);
      EventPaced(ws, es, at[k], u, interval);
    }
    forall j, k | 0 <= j < k < |calls| ensures calls[j].now <= calls[k].now {
      assert Caused(ws, es, i, u, hs[j], calls[j], at[j]) && Caused(ws, es, i, u, hs[k], calls[k], at[k]);
      TimePasses(ws, es, at[j], at[k]);
    }
  }

  /** In every interleaving with a fixed interval, whichever the options give: a dead device that has timed out
      `n >= 2` times is left alone for `min(interval * 2^(n-1), 3600)` s. */
  lemma DeadDeviceBackoff(ws: seq<World>, es: seq<Event>, i: nat, u: Uuid, interval: nat, k: nat)
    requires IsExecution(ws, es) && i < |ws| && ws[i].ledger.listeners == SetUp && FixedInterval(ws, i, interval)
    requires DeadDevice.Dead(Device(ws[i].ledger, u))
    requires k < |Device(ws[i].ledger, u).begun| && Device(ws[i].ledger, u).begun[k].source == Probe
    ensures k <= |Answers(Device(ws[i].ledger, u).log)|
    ensures var h := Device(ws[i].ledger, u);
      var timeouts := DeadDevice.TimeoutsBefore(h, k);
      var n := |timeouts|;
      n >= 2 ==>
        h.begun[k].requestedAt >=
          timeouts[n - 1].resolvedAt + Min(interval * Pow2(n - 1), 3600) * 4
  {
    hide Happens, Answers, DeadDevice.Dead, DeadDevice.PacedRun, DeadDevice.TimeoutsBefore, IsRun;
    var hs, calls, at := DeviceRun(ws, es, i, u);
    ProjectedPaced(ws, es, i, u, hs, calls, at, interval);
    DeadDevice.LaunchAfterBackoff(u, hs, calls, interval, |calls|, k);
  }

  /** ... and it is probed at most seven times plus once an hour, not counting the probes
      that were superseded. */
  lemma DeadDeviceLaunches(ws: seq<World>, es: seq<Event>, i: nat, u: Uuid, interval: nat, now: Time)
    requires IsExecution(ws, es) && i < |ws| && ws[i].ledger.listeners == SetUp && FixedInterval(ws, i, interval)
    requires DeadDevice.Dead(Device(ws[i].ledger, u))
    ensures var h := Device(ws[i].ledger, u);
      DeadDevice.LaunchesBy(h.begun, now) <=
        7 + now / (3600 * 4) + DeadDevice.SupersededProbes(Answers(h.log))
  {
    hide Happens, Answers, DeadDevice.Dead, DeadDevice.PacedRun, IsRun, DeadDevice.LaunchesBy;
    hide LedgerInvariant, Exclusive, TasksRight, PendingRight;
    Always(ws, es, i);
    var hs, calls, at := DeviceRun(ws, es, i, u);
    ProjectedPaced(ws, es, i, u, hs, calls, at, interval);
    DeadDevice.LaunchCountBound(u, hs, calls, interval, |calls|, now);
  }

  // --------------------------------------------------------- idle restoration

  /** The record that answers the request a task began. */
  ghost predicate IsOwnAnswer(h: Health, t: Task, own: Record) {
    t.ordinal < |Answers(h.log)| && own == Answers(h.log)[t.ordinal] && own.source == Probe
  }

  /** A probe that stops waiting has its own record, whatever else has been logged. */
  lemma OwnAnswer(w: World, task: nat) returns (own: Record)
    requires WorldInvariant(w) && task in w.tasks && !StillWaiting(w, task)
    ensures IsOwnAnswer(Device(w.ledger, w.tasks[task].uuid), w.tasks[task], own)
    ensures var h, t := Device(w.ledger, w.tasks[task].uuid), w.tasks[task];
      |h.log| == t.mark + 1 ==> h.lastRecord == Some(own)
  {
    hide LedgerInvariant, Exclusive, PendingRight, CircuitOf, Counted, Answers, TimersExact, OwnRecords;
    var t := w.tasks[task];
    var h := Device(w.ledger, t.uuid);
    LedgerDevice(w.ledger, t.uuid);
    assert Marked(t, h);
    assert Fifo(h);
    own := Answers(h.log)[t.ordinal];
    assert Answer(own, h.begun[t.ordinal]);
    if |h.log| == t.mark + 1 {
      LastAnswer(h.log, t.ordinal);
      assert CountersExact(h);
    }
  }

  lemma LastAnswer(log: seq<Entry>, n: nat)
    requires log != [] && |Answers(log[..|log| - 1])| == n < |Answers(log)|
    ensures Answers(log)[n] == log[|log| - 1].record
  {
  }

  predicate LastIsOk(h: Health) {
    h.lastRecord.Some? && h.lastRecord.value.outcome == Ok
  }

  /** Event `i` is a poll in which a probe finds that it need not wait any more. */
  ghost predicate StopsWaiting(ws: seq<World>, es: seq<Event>, i: nat, task: nat)
    requires i < |es| < |ws|
  {
    && task in ws[i].tasks && !StillWaiting(ws[i], task)
    && (es[i] == ProbeReturns(task) || es[i] == ProbeWakes(task))
  }

  /** Main result: the device's last record decides whether a probe quits the app. For an
      app that was idle at the launch, that is what the probe's own record says if and
      only if both records are successes or neither is; and they are the same record when
      nothing else was logged since the launch. */
  lemma IdleRestoration(ws: seq<World>, es: seq<Event>, i: nat, task: nat) returns (own: Record)
    requires IsExecution(ws, es) && i < |es| && StopsWaiting(ws, es, i, task)
    ensures var h, t := Device(ws[i].ledger, ws[i].tasks[task].uuid), ws[i].tasks[task];
      var quits := task in ws[i + 1].tasks;
      && IsOwnAnswer(h, t, own)
      && (quits <==> LastIsOk(h) && t.snapshot.appIdle)
      && (quits ==> ws[i + 1].tasks[task].at.Quitting?)
      && (t.snapshot.appIdle ==> ((quits <==> own.outcome == Ok) <==> (LastIsOk(h) <==> own.outcome == Ok)))
      && (|h.log| == t.mark + 1 ==> (quits <==> own.outcome == Ok && t.snapshot.appIdle))
  {
    hide LedgerInvariant, Exclusive, TasksRight, PendingRight, Answers, StillWaiting, LedgerAfter, IsOwnAnswer;
    Always(ws, es, i);
    assert Happens(ws, es, i);
    own := OwnAnswer(ws[i], task);
  }

  /** A probe whose play request raised is finished at once and quits nothing. */
  lemma RaisedProbeQuitsNothing(ws: seq<World>, es: seq<Event>, i: nat, task: nat)
    requires IsExecution(ws, es) && i < |es| && task in ws[i].tasks && es[i].ProbeRaises? && es[i].task == task
    ensures task !in ws[i + 1].tasks && ws[i].tasks[task].uuid !in ws[i + 1].running
  {
    hide LedgerAfter;
    assert Happens(ws, es, i);
  }
}
