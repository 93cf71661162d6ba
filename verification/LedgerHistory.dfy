/** What the ledger as a whole keeps: the bounded log, the isolation of devices and the
    agreement of the repair issues with the delivery history. */
module LedgerHistory {
  import opened Vocabulary
  import opened DeviceLedger
  import opened DeviceHistory
  import opened Ledger
  import opened Repairs

  /** The records of device `u`, in order. */
  function About(history: seq<Record>, u: Uuid): seq<Record> {
    if history == [] then []
    else
      var r := history[|history| - 1];
      About(history[..|history| - 1], u) + if r.uuid == u then [r] else []
  }

  function Records(log: seq<Entry>): seq<Record> {
    seq(|log|, i requires 0 <= i < |log| => log[i].record)
  }

  /** How many records with outcome `o` the log holds after its last `Ok`. */
  function SinceOk(log: seq<Entry>, o: Outcome): nat {
    if log == [] || log[|log| - 1].record.outcome == Ok then 0
    else SinceOk(log[..|log| - 1], o) + if log[|log| - 1].record.outcome == o then 1 else 0
  }

  /** The log kept in memory is the end of the full history. */
  ghost predicate BoundedLog(l: Ledger) {
    l.records == if |l.history| <= 50 then l.history else l.history[|l.history| - 50..]
  }

  ghost predicate DevicesExact(l: Ledger) {
    forall u :: u in l.devices ==> l.devices[u].uuid == u && Invariant(l.devices[u])
  }

  /** Each device's log is its part of the full history. */
  ghost predicate LogsAgree(l: Ledger) {
    forall u: Uuid :: Records(Device(l, u).log) == About(l.history, u)
  }

  predicate NoOk(log: seq<Entry>) {
    forall i :: 0 <= i < |log| ==> log[i].record.outcome != Ok
  }

  /** An issue is due: two failures of its kind followed the last success, or it was
      found when the manager was created and no success has followed. */
  predicate IssueDue(s: State, id: IssueId, log: seq<Entry>, o: Outcome) {
    SinceOk(log, o) >= 2 || (id in s.found && NoOk(log))
  }

  /** The repair counters of `u` and its two delivery issues are readings of its log. */
  ghost predicate IssuesAgree(s: State, h: Health) {
    && CountIn(s.fetchFailures, h.uuid) == SinceOk(h.log, FetchFailed)
    && CountIn(s.unreachables, h.uuid) == SinceOk(h.log, Unreachable)
    && (FetchFailedIssue(h.uuid) in s.issues <==> IssueDue(s, FetchFailedIssue(h.uuid), h.log, FetchFailed))
    && (UnreachableIssue(h.uuid) in s.issues <==> IssueDue(s, UnreachableIssue(h.uuid), h.log, Unreachable))
  }

  ghost predicate LedgerInvariant(l: Ledger) {
    && BoundedLog(l)
    && DevicesExact(l)
    && LogsAgree(l)
    && (Hears(l) ==> forall u: Uuid :: IssuesAgree(l.repairs, Device(l, u)))
  }

  // ------------------------------------------------------------------- steps

  lemma PushKeeps(l: Ledger, r: Record)
    requires BoundedLog(l)
    ensures BoundedLog(l.(history := l.history + [r], records := Push(l.records, r)))
  {
    var n := |l.history|;
    if n > 50 {
      assert Push(l.records, r) == l.history[n - 50..][1..] + [r] == (l.history + [r])[n - 49..];
    } else if n == 50 {
      assert Push(l.records, r) == l.history[1..] + [r] == (l.history + [r])[1..];
    }
  }

  lemma NotifyHears(l: Ledger, r: Record)
    requires Hears(l)
    ensures Notify(l.repairs, l.listeners, r) == OnRecord(l.repairs, r)
  {
    assert SetUp[1..] == [BreakerListener] && SetUp[1..][1..] == [];
    assert [RepairListener][1..] == [];
  }

  lemma SinceOkStep(log: seq<Entry>, e: Entry, o: Outcome)
    requires o != Ok
    ensures SinceOk(log + [e], o) ==
      if e.record.outcome == Ok then 0 else SinceOk(log, o) + if e.record.outcome == o then 1 else 0
  {
    assert (log + [e])[..|log + [e]| - 1] == log;
  }

  lemma NoOkStep(log: seq<Entry>, e: Entry)
    ensures NoOk(log + [e]) <==> NoOk(log) && e.record.outcome != Ok
  {
    if NoOk(log + [e]) {
      assert (log + [e])[|log|] == e;
      assert forall i :: 0 <= i < |log| ==> (log + [e])[i] == log[i];
    }
  }

  lemma OnRecordAgrees(s: State, h: Health, h': Health, r: Record, interval: Option<nat>)
    requires IssuesAgree(s, h) && r.uuid == h.uuid == h'.uuid
    requires h'.log == h.log + [Entry(r, interval)]
    ensures IssuesAgree(OnRecord(s, r), h')
  {
    SinceOkStep(h.log, Entry(r, interval), FetchFailed);
    SinceOkStep(h.log, Entry(r, interval), Unreachable);
    NoOkStep(h.log, Entry(r, interval));
    hide SinceOk, NoOk;
  }

  /** A record about one device leaves another device's counters and issues alone. */
  lemma OnRecordElsewhere(s: State, r: Record, v: Uuid)
    requires r.uuid != v
    ensures var s' := OnRecord(s, r);
      && CountIn(s'.fetchFailures, v) == CountIn(s.fetchFailures, v)
      && CountIn(s'.unreachables, v) == CountIn(s.unreachables, v)
      && (FetchFailedIssue(v) in s'.issues <==> FetchFailedIssue(v) in s.issues)
      && (UnreachableIssue(v) in s'.issues <==> UnreachableIssue(v) in s.issues)
      && s'.found == s.found
  {
    if r.outcome == Ok {
    } else if r.outcome == FetchFailed {
    }
  }

  /** What a call emits is what it adds to the device's log. */
  lemma EmissionIsLogged(h: Health, c: Call, now: Time, interval: Option<nat>)
    ensures var e := Apply(h, c, now, interval);
      && e.health.uuid == h.uuid
      && (e.emitted.None? ==> e.health.log == h.log)
      && (e.emitted.Some? ==> e.emitted.value.uuid == h.uuid && e.health.log == h.log + [Entry(e.emitted.value, interval)])
  {
    hide Append;
  }

  /** Isolation: a call about `u` changes nothing of any other device `v`. */
  lemma Isolation(l: Ledger, u: Uuid, c: Call, now: Time, interval: nat, v: Uuid)
    requires DevicesExact(l) && u != v
    ensures var l' := On(l, u, c, now, interval);
      && Device(l', v) == Device(l, v) && (v in l'.devices <==> v in l.devices)
      && CountIn(l'.repairs.fetchFailures, v) == CountIn(l.repairs.fetchFailures, v)
      && CountIn(l'.repairs.unreachables, v) == CountIn(l.repairs.unreachables, v)
      && (FetchFailedIssue(v) in l'.repairs.issues <==> FetchFailedIssue(v) in l.repairs.issues)
      && (UnreachableIssue(v) in l'.repairs.issues <==> UnreachableIssue(v) in l.repairs.issues)
      && l'.repairs.found == l.repairs.found
  {
    hide Apply;
    var e := Apply(Device(l, u), c, now, BreakerInterval(l, interval));
    EmissionIsLogged(Device(l, u), c, now, BreakerInterval(l, interval));
    if e.emitted.Some? {
      NotifyElsewhere(l.repairs, l.listeners, e.emitted.value, v);
    }
  }

  lemma {:induction false} NotifyElsewhere(s: State, listeners: seq<Listener>, r: Record, v: Uuid)
    requires r.uuid != v
    ensures var s' := Notify(s, listeners, r);
      && CountIn(s'.fetchFailures, v) == CountIn(s.fetchFailures, v)
      && CountIn(s'.unreachables, v) == CountIn(s.unreachables, v)
      && (FetchFailedIssue(v) in s'.issues <==> FetchFailedIssue(v) in s.issues)
      && (UnreachableIssue(v) in s'.issues <==> UnreachableIssue(v) in s.issues)
      && s'.found == s.found
    decreases |listeners|
  {
    if listeners != [] {
      OnRecordElsewhere(s, r, v);
      NotifyElsewhere(if listeners[0] == RepairListener then OnRecord(s, r) else s, listeners[1..], r, v);
    }
  }

  lemma RecordsAppend(log: seq<Entry>, e: Entry)
    ensures Records(log + [e]) == Records(log) + [e.record]
  {
  }

  lemma AboutAppend(history: seq<Record>, r: Record, v: Uuid)
    ensures About(history + [r], v) == About(history, v) + if r.uuid == v then [r] else []
  {
    assert (history + [r])[..|history|] == history;
  }

  /** The device a call is about logs what the ledger logs. */
  lemma OwnLogStep(l: Ledger, e: Effect, before: Health, interval: Option<nat>)
    requires e.health.uuid == before.uuid && Records(before.log) == About(l.history, before.uuid)
    requires e.emitted.None? ==> e.health.log == before.log
    requires e.emitted.Some? ==> e.emitted.value.uuid == before.uuid && e.health.log == before.log + [Entry(e.emitted.value, interval)]
    ensures Records(e.health.log) == About(Commit(l, e).history, before.uuid)
  {
    hide Records, About, Notify, Push;
    if e.emitted.Some? {
      RecordsAppend(before.log, Entry(e.emitted.value, interval));
      AboutAppend(l.history, e.emitted.value, before.uuid);
    }
  }

  /** No other device is concerned. */
  lemma OtherLogStep(l: Ledger, e: Effect, v: Uuid)
    requires e.emitted.Some? ==> e.emitted.value.uuid != v
    ensures About(Commit(l, e).history, v) == About(l.history, v)
  {
    hide About, Notify, Push;
    if e.emitted.Some? {
      AboutAppend(l.history, e.emitted.value, v);
    }
  }

  lemma LogsAgreeStep(l: Ledger, u: Uuid, c: Call, now: Time, interval: nat)
    requires DevicesExact(l) && LogsAgree(l)
    ensures LogsAgree(On(l, u, c, now, interval))
  {
    hide Apply, Invariant, Notify, Push, Records, About;
    var i := BreakerInterval(l, interval);
    var e := Apply(Device(l, u), c, now, i);
    EmissionIsLogged(Device(l, u), c, now, i);
    forall v: Uuid ensures Records(Device(Commit(l, e), v).log) == About(Commit(l, e).history, v) {
      assert Records(Device(l, v).log) == About(l.history, v);
      if v == u {
        OwnLogStep(l, e, Device(l, u), i);
      } else {
        OtherLogStep(l, e, v);
      }
    }
  }

  lemma IssuesAgreeStep(l: Ledger, u: Uuid, c: Call, now: Time, interval: nat)
    requires DevicesExact(l) && Hears(l) && forall v: Uuid :: IssuesAgree(l.repairs, Device(l, v))
    ensures forall v: Uuid :: IssuesAgree(On(l, u, c, now, interval).repairs, Device(On(l, u, c, now, interval), v))
  {
    hide Apply, Invariant;
    var i := BreakerInterval(l, interval);
    var e := Apply(Device(l, u), c, now, i);
    EmissionIsLogged(Device(l, u), c, now, i);
    var l' := On(l, u, c, now, interval);
    forall v: Uuid ensures IssuesAgree(l'.repairs, Device(l', v)) {
      assert IssuesAgree(l.repairs, Device(l, v));
      if v != u {
        Isolation(l, u, c, now, interval, v);
        assert Device(l', v).uuid == v;
      } else if e.emitted.Some? {
        NotifyHears(l, e.emitted.value);
        OnRecordAgrees(l.repairs, Device(l, u), e.health, e.emitted.value, i);
      }
    }
  }

  /** Every call about every device keeps the ledger's invariant. */
  lemma OnKeeps(l: Ledger, u: Uuid, c: Call, now: Time, interval: nat)
    requires LedgerInvariant(l)
    ensures LedgerInvariant(On(l, u, c, now, interval))
  {
    hide Apply, Invariant, LogsAgree, IssuesAgree, Notify, Push;
    var i := BreakerInterval(l, interval);
    var e := Apply(Device(l, u), c, now, i);
    FreshKeeps(u);
    StepKeeps(Device(l, u), Timed(c, now, i));
    LogsAgreeStep(l, u, c, now, interval);
    if Hears(l) {
      IssuesAgreeStep(l, u, c, now, interval);
    }
    if e.emitted.Some? {
      PushKeeps(l, e.emitted.value);
    }
  }

  // --------------------------------------------- the issues and the counters

  /** The two repair counters together never exceed the ledger's failure counter. */
  lemma {:induction false} RepairCountsWithinFailures(log: seq<Entry>, failures: nat)
    requires SinceLastOk(Counted(log), failures)
    ensures SinceOk(log, FetchFailed) + SinceOk(log, Unreachable) <= failures
    decreases |log|
  {
    if log != [] {
      var r := log[|log| - 1].record;
      var before := log[..|log| - 1];
      if IsCounted(r.outcome) && r.outcome != Ok {
        assert Counted(log)[..|Counted(log)| - 1] == Counted(before);
        RepairCountsWithinFailures(before, failures - 1);
      } else if r.outcome != Ok {
        assert Counted(log) == Counted(before);
        RepairCountsWithinFailures(before, failures);
      }
    }
  }

  lemma IssuesWithinFailures(l: Ledger, u: Uuid)
    requires LedgerInvariant(l) && Hears(l)
    ensures CountIn(l.repairs.fetchFailures, u) + CountIn(l.repairs.unreachables, u) <= Device(l, u).failures
  {
    hide Answers, CircuitOf;
    assert IssuesAgree(l.repairs, Device(l, u));
    FreshKeeps(u);
    assert CountersExact(Device(l, u));
    RepairCountsWithinFailures(Device(l, u).log, Device(l, u).failures);
  }
}
