/** The promises of the protocol, for every interleaving. */
module ProtocolTheorems {
  import opened Vocabulary
  import opened DeviceLedger
  import opened DeviceHistory
  import opened OkSoundness
  import opened Ledger
  import opened LedgerHistory
  import opened Protocol
  import opened ProtocolSafety
  import opened Repairs

  // ---------------------------------------------------- exclusion, ownership

  /** At most one live probe task per device, present exactly while it is marked running. */
  lemma ProbeExclusion(ws: seq<World>, es: seq<Event>, i: nat)
    requires IsExecution(ws, es) && i < |ws|
    ensures Exclusive(ws[i])
  {
    hide Exclusive, LedgerInvariant, TasksRight, PendingRight;
    Always(ws, es, i);
  }

  /** At event `k` the probe that began request `ordinal` of device `u` gave up waiting. */
  ghost predicate AbandonedAt(ws: seq<World>, es: seq<Event>, k: nat, u: Uuid, ordinal: nat)
    requires k < |es| < |ws|
  {
    Abandons(ws[k], es[k], u) && ws[k].tasks[es[k].task].ordinal == ordinal
  }

  ghost predicate Abandoned(ws: seq<World>, es: seq<Event>, i: nat, u: Uuid, ordinal: nat)
    requires |ws| == |es| + 1 && i < |ws|
  {
    exists k :: 0 <= k < i && AbandonedAt(ws, es, k, u, ordinal)
  }

  /** A pending probe request means that its device is marked running, unless its probe has
      given up waiting, which happens only after the shutdown: then and only then the
      request is pending for a device that is not running. */
  lemma ProbeOwnership(ws: seq<World>, es: seq<Event>, i: nat, u: Uuid)
    requires IsExecution(ws, es) && i < |ws|
    ensures var h := Device(ws[i].ledger, u);
      PendingFrom(h, Probe) ==> (u !in ws[i].running <==> Abandoned(ws, es, i, u, h.pending.value.ordinal))
    ensures !ws[i].closed && PendingFrom(Device(ws[i].ledger, u), Probe) ==> u in ws[i].running
  {
    hide LedgerInvariant, TasksRight, Timely, HasTimer, Abandons, Happens;
    Always(ws, es, i);
    var h := Device(ws[i].ledger, u);
    LedgerDevice(ws[i].ledger, u);
    if PendingFrom(h, Probe) {
      assert OwnedOrLost(ws[i], u);
      if u !in ws[i].running {
        LostWasAbandoned(ws, es, i, u);
      } else if Abandoned(ws, es, i, u, h.pending.value.ordinal) {
        AbandonedIsGone(ws, es, i, u, h.pending.value.ordinal);
      }
    }
  }

  /** What an abandoned request leaves behind. */
  lemma {:induction false} AbandonedIsGone(ws: seq<World>, es: seq<Event>, i: nat, u: Uuid, ordinal: nat)
    requires IsExecution(ws, es) && i < |ws| && Abandoned(ws, es, i, u, ordinal)
    ensures ws[i].closed && u !in ws[i].running
  {
    hide LedgerInvariant, TasksRight, PendingRight, Exclusive, Abandons, Next, Enabled;
    Always(ws, es, i - 1);
    assert Happens(ws, es, i - 1);
    if AbandonedAt(ws, es, i - 1, u, ordinal) {
      AbandonedIsLost(ws[i - 1], es[i - 1], u);
      ClosesOnce(ws[i - 1], es[i - 1]);
    } else {
      AbandonedIsGone(ws, es, i - 1, u, ordinal);
      LostStays(ws[i - 1], es[i - 1], u);
    }
  }

  lemma {:induction false} LostWasAbandoned(ws: seq<World>, es: seq<Event>, i: nat, u: Uuid)
    requires IsExecution(ws, es) && i < |ws|
    requires PendingFrom(Device(ws[i].ledger, u), Probe) && u !in ws[i].running
    ensures Abandoned(ws, es, i, u, Device(ws[i].ledger, u).pending.value.ordinal)
  {
    hide LedgerInvariant, TasksRight, PendingRight, StagesRight, Abandons, Next, Enabled, CallOn;
    if i == 0 {
      FreshAgrees(ws[0].ledger, u);
      assert false;
    } else {
      var w, e := ws[i - 1], es[i - 1];
      Always(ws, es, i - 1);
      Always(ws, es, i);
      assert Happens(ws, es, i - 1);
      NotOwned(ws[i], u);
      if CallOn(w, e, u).Some? && CallOn(w, e, u).value.Begin? {
        LaunchOwns(w, e, u);
      } else {
        PendingProbeKept(w, e, u);
        if u in w.running {
          RunningOwns(w, u);
          OwnershipLostIff(w, e, u);
          AbandonsOwn(w, e, u);
          assert AbandonedAt(ws, es, i - 1, u, Device(ws[i].ledger, u).pending.value.ordinal);
        } else {
          LostWasAbandoned(ws, es, i - 1, u);
        }
      }
    }
  }

  lemma NotOwned(w: World, u: Uuid)
    requires WorldInvariant(w) && PendingFrom(Device(w.ledger, u), Probe) && u !in w.running
    ensures !Owned(w, u)
  {
    hide LedgerInvariant, TasksRight, PendingRight;
    LedgerDevice(w.ledger, u);
  }

  lemma RunningOwns(w: World, u: Uuid)
    requires WorldInvariant(w) && u in w.running
    ensures Owned(w, u)
  {
    hide LedgerInvariant, TasksRight, Exclusive, Timely, HasTimer, Owned;
    assert OwnedOrLost(w, u);
  }

  lemma AbandonsOwn(w: World, e: Event, u: Uuid)
    requires WorldInvariant(w) && Abandons(w, e, u)
    ensures PendingIs(Device(w.ledger, u), w.tasks[e.task].ordinal)
  {
    hide LedgerInvariant, TasksRight, PendingRight, Exclusive;
    WaiterOwns(w, e.task);
  }

  /** Hence the records a probe cycle writes about a device it does not probe never
      resolve a request. */
  lemma SkippedProbesResolveNothing(ws: seq<World>, es: seq<Event>, i: nat)
    requires IsExecution(ws, es) && i < |es| && es[i].Decide?
    requires DecisionOf(ws[i], es[i].uuid, es[i].snapshot) != Launch
    ensures var u := es[i].uuid;
      var h, h' := Device(ws[i].ledger, u), Device(ws[i + 1].ledger, u);
      h'.pending == h.pending && Answers(h'.log) == Answers(h.log)
  {
    hide LedgerInvariant, TasksRight, Exclusive, Timely, Append, Answers;
    var w, e := ws[i], es[i];
    assert Happens(ws, es, i);
    Always(ws, es, i);
    OpenBeforeDecide(ws, es, i);
    ProbeOwnership(ws, es, i, e.uuid);
    DeviceAfter(w, e, e.uuid);
    SkippedStep(Device(w.ledger, e.uuid), TimedCall(w, CallOn(w, e, e.uuid).value));
  }

  lemma SkippedStep(h: Health, t: Timed)
    requires t.call == Look || (t.call.RecordOutcome? && !PendingFrom(h, t.call.source))
    ensures Step(h, t).pending == h.pending && Answers(Step(h, t).log) == Answers(h.log)
  {
    if t.call.RecordOutcome? {
      AppendReadings(h, PlainRecord(h, t.call.outcome, t.call.source, t.call.about, t.call.responded, t.now), t.interval);
    }
  }

  // ------------------------------------------------------------- real time

  /** A probe task is gone 50.25 seconds after it began: 30 for the request's timer, one
      poll, and 20 for quitting the app. When the shutdown has cancelled that timer, it is
      gone after 75.25 seconds: 20 in the executor, 35 until it gives up, and the rest. */
  lemma ProbeTaskBound(ws: seq<World>, es: seq<Event>, i: nat, task: nat)
    requires IsExecution(ws, es) && i < |ws| && task in ws[i].tasks
    ensures var t, now := ws[i].tasks[task], ws[i].now;
      && now <= t.startedAt + 4 * 20 + 4 * 35 + 1 + 4 * 20
      && (!ws[i].closed ==> now <= t.startedAt + 4 * 30 + 1 + 4 * 20)
      && (!ws[i].closed && !t.at.Quitting? ==> now <= t.startedAt + 4 * 30 + 1)
  {
    hide LedgerInvariant, Exclusive, PendingRight, Marked;
    Always(ws, es, i);
    assert OnTime(ws[i].tasks[task], ws[i].now, ws[i].closed);
  }

  /** The branch that abandons a wait after 35 seconds is dead code until the shutdown. */
  lemma GiveUpUnreachable(ws: seq<World>, es: seq<Event>, i: nat, task: nat)
    requires IsExecution(ws, es) && i < |ws| && !ws[i].closed
    requires task in ws[i].tasks && ws[i].tasks[task].at.Sleeping?
    ensures !GivesUp(ws[i], task)
  {
    hide LedgerInvariant, Exclusive, TasksRight, PendingRight;
    Always(ws, es, i);
    if StillWaiting(ws[i], task) {
      NeverGivesUp(ws[i], task);
    }
  }

  /** No request is pending longer than its timeout, unless the shutdown has cancelled its
      timer; until the shutdown every pending request has its timer. */
  lemma PendingTimeBound(ws: seq<World>, es: seq<Event>, i: nat, u: Uuid)
    requires IsExecution(ws, es) && i < |ws|
    ensures Timely(Device(ws[i].ledger, u), ws[i].now)
    ensures !ws[i].closed ==> HasTimer(Device(ws[i].ledger, u))
  {
    hide LedgerInvariant, Exclusive, TasksRight, OwnedOrLost, Timely, HasTimer;
    Always(ws, es, i);
  }

  /** Every live task was launched by a `Decide` at the time it remembers. */
  lemma {:induction false} TaskOrigin(ws: seq<World>, es: seq<Event>, i: nat, task: nat) returns (k: nat)
    requires IsExecution(ws, es) && i < |ws| && task in ws[i].tasks
    ensures k < i && es[k].Decide? && es[k].uuid == ws[i].tasks[task].uuid && ws[k].now == ws[i].tasks[task].startedAt
    ensures DecisionOf(ws[k], es[k].uuid, es[k].snapshot) == Launch
  {
    hide LedgerInvariant, Exclusive, TasksRight, PendingRight, Next, Enabled, DecisionOf;
    k := i - 1;
    Always(ws, es, i - 1);
    assert Happens(ws, es, i - 1);
    if task in ws[i - 1].tasks {
      TaskKept(ws[i - 1], es[i - 1], task);
      k := TaskOrigin(ws, es, i - 1, task);
    } else {
      TaskIsNew(ws[i - 1], es[i - 1], task);
      LaunchOf(ws[i - 1], es[i - 1]);
    }
  }

  lemma TaskIsNew(w: World, e: Event, task: nat)
    requires Enabled(w, e) && task in Next(w, e).tasks && task !in w.tasks
    ensures e.Decide? && DecisionOf(w, e.uuid, e.snapshot) == Launch && task == w.spawned
    ensures Next(w, e).tasks[task].uuid == e.uuid && Next(w, e).tasks[task].startedAt == w.now
  {
    hide LedgerAfter, CallOf, DecisionOf, StillWaiting, Quits, MayAdvanceTo;
  }

  /** Cycles at least the smallest allowed interval apart never find a probe running. */
  lemma SpacedCyclesFindNoneRunning(ws: seq<World>, es: seq<Event>, j: nat)
    requires IsExecution(ws, es) && j < |es| && es[j].Decide?
    requires forall k :: 0 <= k < j && es[k].Decide? && es[k].uuid == es[j].uuid ==>
               ws[k].now + 4 * 60 <= ws[j].now
    ensures DecisionOf(ws[j], es[j].uuid, es[j].snapshot) != StillRunning
  {
    hide LedgerInvariant, TasksRight, PendingRight;
    var u := es[j].uuid;
    assert Happens(ws, es, j);
    Always(ws, es, j);
    OpenBeforeDecide(ws, es, j);
    if u in ws[j].running {
      var task :| task in ws[j].tasks && ws[j].tasks[task].uuid == u;
      ProbeTaskBound(ws, es, j, task);
      var k := TaskOrigin(ws, es, j, task);
      assert false;
    }
  }

  // ---------------------------------------------------------------- circuit

  /** No probe is launched strictly before the deadline that the device's history says. */
  lemma NoLaunchBeforeDeadline(ws: seq<World>, es: seq<Event>, i: nat)
    requires IsExecution(ws, es) && i < |es| && es[i].Decide?
    requires DecisionOf(ws[i], es[i].uuid, es[i].snapshot) == Launch
    ensures match CircuitOf(Device(ws[i].ledger, es[i].uuid).log)
            case Some(deadline) => deadline <= ws[i].now
            case None => true
  {
    hide Exclusive, TasksRight, PendingRight, CircuitOf, Fifo, TimersExact, CountersExact, LogsAgree, IssuesAgree, BoundedLog;
    Always(ws, es, i);
    LedgerDevice(ws[i].ledger, es[i].uuid);
  }

  lemma OpenBeforeDecide(ws: seq<World>, es: seq<Event>, i: nat)
    requires IsExecution(ws, es) && i < |es| && es[i].Decide?
    ensures !ws[i].closed && ws[i].ledger.listeners == SetUp
  {
    hide LedgerInvariant, Exclusive, TasksRight, PendingRight;
    assert Happens(ws, es, i);
    Always(ws, es, i);
  }

  /** A user's request is begun whatever the circuit, and becomes the pending one. */
  lemma UserNeverBlocked(ws: seq<World>, es: seq<Event>, i: nat)
    requires IsExecution(ws, es) && i < |es| && es[i].PlayBegins?
    ensures var e := es[i];
      PendsAs(Device(ws[i + 1].ledger, e.uuid), |Device(ws[i].ledger, e.uuid).begun|,
              Request(e.content, e.source, ws[i].now, e.session, 4 * 30))
  {
    hide LedgerInvariant, Exclusive, TasksRight, PendingRight, Apply;
    Always(ws, es, i);
    assert Happens(ws, es, i);
    DeviceAfter(ws[i], es[i], es[i].uuid);
    StepBegin(Device(ws[i].ledger, es[i].uuid), TimedCall(ws[i], CallOn(ws[i], es[i], es[i].uuid).value));
  }

  // ----------------------------------------------------------------- timers

  /** A timer that fires for a request that is no longer pending changes nothing. */
  lemma LateTimerChangesNothing(ws: seq<World>, es: seq<Event>, i: nat)
    requires IsExecution(ws, es) && i < |es| && es[i].TimerFires?
    requires !PendingIs(Device(ws[i].ledger, es[i].uuid), es[i].ordinal)
    ensures forall v: Uuid :: Device(ws[i + 1].ledger, v) == Device(ws[i].ledger, v)
    ensures ws[i + 1].ledger.history == ws[i].ledger.history && ws[i + 1].ledger.repairs == ws[i].ledger.repairs
  {
    hide LedgerInvariant, Exclusive, TasksRight, PendingRight, Invariant;
    var w, e := ws[i], es[i];
    Always(ws, es, i);
    assert Happens(ws, es, i);
    LedgerDevice(w.ledger, e.uuid);
    ExpireKeeps(Device(w.ledger, e.uuid), e.ordinal, w.now, BreakerInterval(w.ledger, w.options.interval));
  }

  /** The request pending since before the shutdown has no timer, and a later one has. */
  ghost predicate Disarmed(h: Health, before: nat) {
    && before <= |h.begun|
    && (h.pending.Some? ==> (h.pending.value.cancelable <==> h.pending.value.ordinal >= before))
  }

  lemma StepDisarmed(h: Health, t: Timed, before: nat)
    requires Disarmed(h, before) && !t.call.CancelTimer?
    ensures Disarmed(Step(h, t), before)
  {
    hide Step;
    StepBegunGrows(h, t);
    if t.call.Begin? {
      StepBegin(h, t);
    } else {
      StepPendingSame(h, t);
    }
  }

  lemma {:induction false} DisarmedSince(ws: seq<World>, es: seq<Event>, j: nat, i: nat, u: Uuid)
    requires IsExecution(ws, es) && j < i < |ws| && es[j] == Shutdown
    ensures ws[i].closed && Disarmed(Device(ws[i].ledger, u), |Device(ws[j].ledger, u).begun|)
  {
    hide LedgerInvariant, Exclusive, TasksRight, PendingRight, StagesRight, Step, Next, Enabled;
    var w, e := ws[i - 1], es[i - 1];
    Always(ws, es, i - 1);
    assert Happens(ws, es, i - 1);
    DeviceAfter(w, e, u);
    ClosesOnce(w, e);
    LedgerDevice(w.ledger, u);
    if j == i - 1 {
      AppliesCancel(Device(w.ledger, u), TimedCall(w, CancelTimer));
      CancelDisarms(Device(w.ledger, u));
    } else {
      DisarmedSince(ws, es, j, i - 1, u);
      NoSecondShutdown(w, e);
      CallsAreCallers(w, e, u);
      if CallOn(w, e, u).Some? {
        StepDisarmed(Device(w.ledger, u), TimedCall(w, CallOn(w, e, u).value), |Device(ws[j].ledger, u).begun|);
      }
    }
  }

  lemma NoSecondShutdown(w: World, e: Event)
    requires w.closed && Enabled(w, e)
    ensures !e.Shutdown?
  {
  }

  lemma CancelDisarms(h: Health)
    requires Invariant(h)
    ensures Disarmed(Cancelled(h), |h.begun|)
  {
    hide LogExact, TimersExact, Answer;
    assert Fifo(h);
  }

  /** After the shutdown a timer is armed exactly for a pending request that was begun
      after it, by a play that was under way. */
  lemma ShutdownDisarms(ws: seq<World>, es: seq<Event>, j: nat, i: nat, u: Uuid)
    requires IsExecution(ws, es) && j < i < |ws| && es[j] == Shutdown
    ensures var h := Device(ws[i].ledger, u);
      forall k: nat :: k in h.armed <==> PendingIs(h, k) && k >= |Device(ws[j].ledger, u).begun|
  {
    hide LedgerInvariant, Exclusive, TasksRight, PendingRight, StagesRight, LogExact, Fifo, Happens;
    DisarmedSince(ws, es, j, i, u);
    Always(ws, es, i);
    LedgerDevice(ws[i].ledger, u);
  }

  // --------------------------------------------------------------- the ledger

  /** In every interleaving: each device's accounting, counters, timers and circuit are
      exact, the log is bounded, and the issues agree while the manager is attached. */
  lemma LedgerAlways(ws: seq<World>, es: seq<Event>, i: nat)
    requires IsExecution(ws, es) && i < |ws|
    ensures LedgerInvariant(ws[i].ledger)
  {
    hide LedgerInvariant, Exclusive, TasksRight, PendingRight;
    Always(ws, es, i);
  }

  /** The two delivery issues of a device exist exactly when its history says so: after two
      failures of their kind since the last success, or left over from an earlier set-up
      as long as there has been no success. */
  lemma IssuesFollowHistory(ws: seq<World>, es: seq<Event>, i: nat, u: Uuid)
    requires IsExecution(ws, es) && i < |ws| && Hears(ws[i].ledger)
    ensures var issues, found, log := ws[i].ledger.repairs.issues, ws[0].ledger.repairs.issues, Device(ws[i].ledger, u).log;
      && (FetchFailedIssue(u) in issues <==> SinceOk(log, FetchFailed) >= 2 || (FetchFailedIssue(u) in found && NoOk(log)))
      && (UnreachableIssue(u) in issues <==> SinceOk(log, Unreachable) >= 2 || (UnreachableIssue(u) in found && NoOk(log)))
  {
    hide Exclusive, TasksRight, PendingRight, SinceOk, NoOk, DevicesExact, LogsAgree, BoundedLog, Happens;
    Always(ws, es, i);
    LedgerDevice(ws[i].ledger, u);
    FoundStays(ws, es, i);
    assert IssuesAgree(ws[i].ledger.repairs, Device(ws[i].ledger, u));
  }

  lemma {:induction false} FoundStays(ws: seq<World>, es: seq<Event>, i: nat)
    requires IsExecution(ws, es) && i < |ws|
    ensures ws[i].ledger.repairs.found == ws[0].ledger.repairs.issues
  {
    if i > 0 {
      hide Control, Enabled, On;
      FoundStays(ws, es, i - 1);
      assert Happens(ws, es, i - 1);
      if CallOf(ws[i - 1], es[i - 1]).Some? {
        var (u, c) := CallOf(ws[i - 1], es[i - 1]).value;
        FoundOn(ws[i - 1].ledger, u, c, ws[i - 1].now, ws[i - 1].options.interval);
      }
    }
  }

  lemma FoundOn(l: Ledger, u: Uuid, c: Call, now: Time, interval: nat)
    ensures On(l, u, c, now, interval).repairs.found == l.repairs.found
  {
    hide Apply, Push, Notify;
    var e := Apply(Device(l, u), c, now, BreakerInterval(l, interval));
    if e.emitted.Some? {
      FoundNotify(l.repairs, l.listeners, e.emitted.value);
    }
  }

  lemma {:induction false} FoundNotify(s: State, listeners: seq<Listener>, r: Record)
    ensures Notify(s, listeners, r).found == s.found
    decreases |listeners|
  {
    if listeners != [] {
      FoundNotify(if listeners[0] == RepairListener then Repairs.OnRecord(s, r) else s, listeners[1..], r);
    }
  }
}
