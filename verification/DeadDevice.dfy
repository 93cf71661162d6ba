/** How rarely a device that never answers is probed: every record that counts is the
    timeout of a probe. The device may be found busy, and user requests may supersede
    probes without ever being answered themselves. */
module DeadDevice {
  import opened Vocabulary
  import opened DeviceLedger
  import opened DeviceHistory
  import opened OkSoundness

  ghost predicate Dead(h: Health) {
    forall i :: 0 <= i < |h.log| && IsCounted(h.log[i].record.outcome) ==>
      h.log[i].record.outcome == Timeout && h.log[i].record.source == Probe
  }

  /** What the coordinator guarantees about each call: the breaker listens with the same
      interval throughout, no probe is begun before the circuit's deadline, and what it
      records about a device it does not probe resolves no probe. */
  ghost predicate Paced(h: Health, t: Timed, interval: nat) {
    && t.interval == Some(interval)
    && CallerCall(t.call)
    && (t.call.Begin? && t.call.source == Probe && h.circuit.Some? ==> h.circuit.value <= t.now)
    && (t.call.RecordOutcome? && t.call.source == Probe ==> !PendingFrom(h, Probe))
  }

  ghost predicate PacedRun(hs: seq<Health>, calls: seq<Timed>, interval: nat) {
    && |hs| == |calls| + 1
    && (forall k :: 0 <= k < |calls| ==> Paced(hs[k], calls[k], interval))
    && (forall j, k :: 0 <= j < k < |calls| ==> calls[j].now <= calls[k].now)
  }

  /** Every record answers a probe that timed out, answers a superseded request, or
      answers nothing. */
  ghost predicate Clean(log: seq<Entry>, interval: nat) {
    forall i :: 0 <= i < |log| ==>
      var r := log[i].record;
      && log[i].interval == Some(interval)
      && match r.outcome
         case Timeout => r.requestedAt.Some? && r.source == Probe
         case Unknown => r.requestedAt.Some?
         case SkippedBusy => r.requestedAt.None?
         case _ => false
  }

  /** The timeouts among some answers. */
  function Timeouts(answers: seq<Record>): seq<Record> {
    if answers == [] then []
    else
      var r := answers[|answers| - 1];
      Timeouts(answers[..|answers| - 1]) + if r.outcome == Timeout then [r] else []
  }

  /** A probe begun after `timeouts`, two or more, is as far behind the last of them as
      the backoff says. */
  predicate FarEnough(q: Request, timeouts: seq<Record>, interval: nat) {
    q.source == Probe && |timeouts| >= 2 ==>
      q.requestedAt >= timeouts[|timeouts| - 1].resolvedAt + 4 * Doubled(interval, |timeouts|)
  }

  /** Request `k` was begun when the requests before it had been answered. */
  ghost predicate Spaced(h: Health, interval: nat) {
    var answers := Answers(h.log);
    forall k :: 0 <= k < |h.begun| && k <= |answers| ==> FarEnough(h.begun[k], Timeouts(answers[..k]), interval)
  }

  ghost predicate Aging(h: Health, clock: Time) {
    var answers := Answers(h.log);
    && |answers| <= |h.begun|
    && (forall k :: 0 <= k < |answers| ==> h.begun[k].requestedAt <= answers[k].resolvedAt)
    && (forall k :: 0 <= k < |h.begun| ==> h.begun[k].requestedAt <= clock)
  }

  ghost predicate DeadInvariant(h: Health, interval: nat, clock: Time) {
    Invariant(h) && Clean(h.log, interval) && Spaced(h, interval) && Aging(h, clock)
  }

  // --------------------------------------------------- reading a clean log

  lemma {:induction false} CleanReadings(log: seq<Entry>, interval: nat)
    requires Clean(log, interval)
    ensures Counted(log) == Timeouts(Answers(log))
    ensures forall k :: 0 <= k < |Answers(log)| ==> var r := Answers(log)[k];
              (r.outcome == Timeout && r.source == Probe) || r.outcome == Unknown
    ensures TrailingTimeouts(Counted(log)) == |Counted(log)|
  {
    if log != [] {
      var before, r := log[..|log| - 1], log[|log| - 1].record;
      CleanReadings(before, interval);
      TimeoutsAppend(Answers(before), r);
      assert r.requestedAt.None? ==> Answers(log) == Answers(before);
      TimeoutsOnly(Answers(log));
      AllTimeouts(Counted(log));
    }
  }

  lemma TimeoutsAppend(answers: seq<Record>, r: Record)
    ensures Timeouts(answers + [r]) == Timeouts(answers) + (if r.outcome == Timeout then [r] else [])
  {
    assert (answers + [r])[..|answers|] == answers;
  }

  lemma {:induction false} TimeoutsOnly(answers: seq<Record>)
    ensures forall k :: 0 <= k < |Timeouts(answers)| ==> Timeouts(answers)[k].outcome == Timeout
  {
    if answers != [] {
      TimeoutsOnly(answers[..|answers| - 1]);
    }
  }

  lemma {:induction false} AllTimeouts(s: seq<Record>)
    requires forall k :: 0 <= k < |s| ==> s[k].outcome == Timeout
    ensures TrailingTimeouts(s) == |s|
  {
    if s != [] {
      AllTimeouts(s[..|s| - 1]);
    }
  }

  lemma LastEntry(log: seq<Entry>, interval: nat)
    requires log != [] && Clean(log, interval)
    ensures var before, r := log[..|log| - 1], log[|log| - 1].record;
      && Clean(before, interval)
      && Counted(log) == Counted(before) + (if r.outcome == Timeout then [r] else [])
      && var n := TrailingTimeouts(Counted(log));
         CircuitOf(log) == if r.outcome == Timeout && n >= 2 then Some(r.resolvedAt + 4 * Doubled(interval, n))
                           else CircuitOf(before)
  {
    hide TrailingTimeouts, Doubled;
  }

  /** On a clean log the circuit is open from the second timeout on, until the backoff
      after the last one has passed. */
  lemma {:induction false} CleanCircuit(log: seq<Entry>, interval: nat)
    requires Clean(log, interval)
    ensures var timeouts := Timeouts(Answers(log));
      CircuitOf(log) == if |timeouts| < 2 then None
                        else Some(timeouts[|timeouts| - 1].resolvedAt + 4 * Doubled(interval, |timeouts|))
  {
    if log != [] {
      hide *;
      LastEntry(log, interval);
      CleanReadings(log, interval);
      CleanReadings(log[..|log| - 1], interval);
      CleanCircuit(log[..|log| - 1], interval);
    }
  }

  // -------------------------------------------------------------- one step

  /** What a step appends answers the pending request or nothing. */
  lemma StepAnswer(h: Health, t: Timed)
    requires |Step(h, t).log| > |h.log|
    ensures var r := Step(h, t).log[|h.log|].record;
      r.requestedAt.Some? ==>
        && h.pending.Some? && r.requestedAt == Some(h.pending.value.request.requestedAt)
        && r.source == h.pending.value.request.source
  {
    hide Append;
  }

  lemma StepOutcome(h: Health, t: Timed)
    requires CallerCall(t.call) && |Step(h, t).log| > |h.log|
    ensures var r := Step(h, t).log[|h.log|].record;
      && (r.outcome == SkippedBusy ==> t.call.RecordOutcome? && t.call.source == Probe)
      && (r.outcome == Unknown ==> r.requestedAt.Some?)
      && (t.call.Begin? ==> r.outcome == Unknown)
  {
    hide Append;
  }

  lemma StepRecord(h: Health, t: Timed)
    requires CallerCall(t.call) && |Step(h, t).log| > |h.log|
    ensures var e := Step(h, t).log[|h.log|];
      && Step(h, t).log == h.log + [e] && e.interval == t.interval
      && e.record.resolvedAt == t.now
      && (e.record.requestedAt.None? ==> e.record.source == Observed || (t.call.RecordOutcome? && e.record.outcome == t.call.outcome))
      && (t.call.RecordOutcome? && !PendingFrom(h, t.call.source) ==> e.record.requestedAt.None?)
  {
    hide Append;
  }

  /** A step that begins no request changes none. */
  lemma StepRequestsSame(h: Health, t: Timed)
    requires !t.call.Begin?
    ensures Step(h, t).begun == h.begun
  {
    hide Append;
  }

  lemma StepClean(h: Health, t: Timed, interval: nat)
    requires Clean(h.log, interval) && Paced(h, t, interval) && Dead(Step(h, t))
    ensures Clean(Step(h, t).log, interval)
  {
    hide Step;
    StepGrows(h, t);
    if |Step(h, t).log| > |h.log| {
      StepRecord(h, t);
      StepOutcome(h, t);
    }
  }

  /** What a step of a dead device adds to its answers. */
  lemma StepAnswers(h: Health, t: Timed, interval: nat)
    requires Clean(h.log, interval) && Paced(h, t, interval) && Dead(Step(h, t))
    ensures var a, a' := Answers(h.log), Answers(Step(h, t).log);
      && Clean(Step(h, t).log, interval)
      && (a' == a || (h.pending.Some? && |a'| == |a| + 1 && a == a'[..|a|] && a'[|a|].resolvedAt == t.now))
      && (t.call.Begin? ==> Timeouts(a') == Timeouts(a))
  {
    hide Step;
    StepClean(h, t, interval);
    StepGrows(h, t);
    var h' := Step(h, t);
    if |h'.log| > |h.log| {
      StepRecord(h, t);
      StepOutcome(h, t);
      StepAnswer(h, t);
      assert h'.log[..|h'.log| - 1] == h.log;
      TimeoutsAppend(Answers(h.log), h'.log[|h.log|].record);
    }
  }

  /** Old requests stay far enough; it remains to look at a new one. */
  lemma StillSpaced(h: Health, h': Health, interval: nat)
    requires Spaced(h, interval) && h.begun <= h'.begun && |h'.begun| <= |h.begun| + 1
    requires Answers(h.log) <= Answers(h'.log) && |h.begun| <= |Answers(h.log)| + 1
    requires |h'.begun| > |h.begun| ==>
      |h.begun| == |Answers(h'.log)| && FarEnough(h'.begun[|h.begun|], Timeouts(Answers(h'.log)), interval)
    ensures Spaced(h', interval)
  {
    hide FarEnough;
    var a, a' := Answers(h.log), Answers(h'.log);
    forall k | 0 <= k < |h'.begun| && k <= |a'| ensures FarEnough(h'.begun[k], Timeouts(a'[..k]), interval) {
      if k < |h.begun| {
        assert a'[..k] == a[..k];
      } else {
        assert a'[..k] == a';
      }
    }
  }

  lemma StepDead(h: Health, t: Timed, interval: nat, clock: Time)
    requires DeadInvariant(h, interval, clock) && clock <= t.now
    requires Paced(h, t, interval) && Dead(Step(h, t))
    ensures DeadInvariant(Step(h, t), interval, t.now)
  {
    hide Step, CountersExact, CircuitOf, TimersExact, OwnRecords, Answers, Clean, Spaced, Dead, CallerCall, Timeouts, Doubled;
    var h' := Step(h, t);
    StepKeeps(h, t);
    StepAnswers(h, t, interval);
    assert Fifo(h) && Fifo(h');
    if t.call.Begin? {
      StepBegin(h, t);
      CleanCircuit(h.log, interval);
    } else {
      StepRequestsSame(h, t);
    }
    StillSpaced(h, h', interval);
  }

  lemma {:induction false} DeadRun(u: Uuid, hs: seq<Health>, calls: seq<Timed>, interval: nat, m: nat)
    requires IsRun(u, hs, calls) && PacedRun(hs, calls, interval) && m < |hs| && Dead(hs[m])
    ensures DeadInvariant(hs[m], interval, if m == 0 then 0 else calls[m - 1].now)
  {
    if m > 0 {
      hide Step, DeadInvariant;
      assert Follows(hs, calls, m - 1);
      StepGrows(hs[m - 1], calls[m - 1]);
      assert Dead(hs[m - 1]) by {
        forall i | 0 <= i < |hs[m - 1].log| ensures hs[m - 1].log[i] == hs[m].log[i] {
        }
      }
      DeadRun(u, hs, calls, interval, m - 1);
      assert Paced(hs[m - 1], calls[m - 1], interval);
      StepDead(hs[m - 1], calls[m - 1], interval, if m == 1 then 0 else calls[m - 2].now);
    } else {
      FreshKeeps(u);
    }
  }

  // ------------------------------------------------------------ main results

  /** The timeouts that had been recorded when request `k` was begun. */
  function TimeoutsBefore(h: Health, k: nat): seq<Record> {
    if k <= |Answers(h.log)| then Timeouts(Answers(h.log)[..k]) else []
  }

  /** With `n >= 2` timeouts behind it, a probe has waited for the doubled backoff. */
  lemma LaunchAfterBackoff(u: Uuid, hs: seq<Health>, calls: seq<Timed>, interval: nat, m: nat, k: nat)
    requires IsRun(u, hs, calls) && PacedRun(hs, calls, interval) && m < |hs| && Dead(hs[m])
    requires k < |hs[m].begun| && hs[m].begun[k].source == Probe
    ensures k <= |Answers(hs[m].log)|
    ensures var timeouts := TimeoutsBefore(hs[m], k);
      var n := |timeouts|;
      n >= 2 ==>
        hs[m].begun[k].requestedAt >=
          timeouts[n - 1].resolvedAt + Min(interval * Pow2(n - 1), 3600) * 4
  {
    hide Answers, Pow2, Clean, Aging, TimersExact, LogExact, IsRun, PacedRun, Dead;
    DeadRun(u, hs, calls, interval, m);
    assert Fifo(hs[m]);
    assert FarEnough(hs[m].begun[k], TimeoutsBefore(hs[m], k), interval);
  }

  /** From the seventh timeout on the backoff is a full hour. */
  lemma BackoffSaturates(interval: nat, n: nat)
    requires interval >= MIN_PROBE_INTERVAL && n >= 7
    ensures Doubled(interval, n) == 3600
  {
    Pow2Monotone(6, n - 1);
    assert Pow2(6) == 64;
    MulMonotone(60, interval, 64, Pow2(n - 1));
  }

  lemma MulMonotone(a: nat, b: nat, c: nat, d: nat)
    requires a <= b && c <= d
    ensures a * c <= b * d
  {
  }

  /** The number of probes launched up to time `now`. */
  function LaunchesBy(begun: seq<Request>, now: Time): nat {
    if begun == [] then 0
    else
      var q := begun[|begun| - 1];
      LaunchesBy(begun[..|begun| - 1], now) + if q.source == Probe && q.requestedAt <= now then 1 else 0
  }

  /** The probes among some answers that were superseded. */
  function SupersededProbes(answers: seq<Record>): nat {
    if answers == [] then 0
    else
      var r := answers[|answers| - 1];
      SupersededProbes(answers[..|answers| - 1]) + if r.outcome == Unknown && r.source == Probe then 1 else 0
  }

  /** Before a probe begun after two or more timeouts lies the one that timed out last, and
      it lies as far back as the backoff says. */
  lemma ProbeBefore(h: Health, interval: nat, clock: Time, k: nat) returns (j: nat)
    requires DeadInvariant(h, interval, clock)
    requires k < |h.begun| && h.begun[k].source == Probe && |TimeoutsBefore(h, k)| >= 2
    ensures j < k && h.begun[j].source == Probe && |TimeoutsBefore(h, j)| + 1 == |TimeoutsBefore(h, k)|
    ensures h.begun[k].requestedAt >= h.begun[j].requestedAt + 4 * Doubled(interval, |TimeoutsBefore(h, k)|)
  {
    hide CountersExact, CircuitOf, TimersExact, OwnRecords, Answers, Clean, Doubled, Counted, TrailingTimeouts;
    var answers := Answers(h.log);
    CleanReadings(h.log, interval);
    assert FarEnough(h.begun[k], TimeoutsBefore(h, k), interval);
    j := LastTimeout(answers[..k]);
    assert answers[..k][..j] == answers[..j];
    assert Answer(answers[j], h.begun[j]);
  }

  /** A probe begun after `n >= 7` timeouts is begun at least `n - 6` hours after the start. */
  lemma {:induction false} LateLaunches(h: Health, interval: nat, clock: Time, k: nat)
    requires DeadInvariant(h, interval, clock) && interval >= MIN_PROBE_INTERVAL
    requires k < |h.begun| && h.begun[k].source == Probe && |TimeoutsBefore(h, k)| >= 7
    ensures h.begun[k].requestedAt >= (|TimeoutsBefore(h, k)| - 6) * 3600 * 4
    decreases k
  {
    hide *;
    var j := ProbeBefore(h, interval, clock, k);
    BackoffSaturates(interval, |TimeoutsBefore(h, k)|);
    if |TimeoutsBefore(h, k)| > 7 {
      LateLaunches(h, interval, clock, j);
    }
  }

  /** Where the last timeout is. */
  lemma {:induction false} LastTimeout(answers: seq<Record>) returns (j: nat)
    requires Timeouts(answers) != []
    ensures j < |answers| && answers[j].outcome == Timeout
    ensures Timeouts(answers) == Timeouts(answers[..j]) + [answers[j]]
  {
    j := |answers| - 1;
    if answers[j].outcome != Timeout {
      j := LastTimeout(answers[..j]);
      assert answers[..|answers| - 1][..j] == answers[..j];
    }
  }

  /** Every launch that was answered timed out or was superseded. */
  lemma {:induction false} LaunchesAnswered(h: Health, interval: nat, clock: Time, n: nat, now: Time)
    requires DeadInvariant(h, interval, clock) && n <= |Answers(h.log)|
    ensures LaunchesBy(h.begun[..n], now) <= |TimeoutsBefore(h, n)| + SupersededProbes(Answers(h.log)[..n])
  {
    hide CountersExact, CircuitOf, TimersExact, OwnRecords, Answers, Clean, Spaced, Aging, Counted, TrailingTimeouts;
    var answers := Answers(h.log);
    if n > 0 {
      LaunchesAnswered(h, interval, clock, n - 1, now);
      CleanReadings(h.log, interval);
      assert h.begun[..n][..n - 1] == h.begun[..n - 1];
      assert answers[..n][..n - 1] == answers[..n - 1];
      assert Answer(answers[n - 1], h.begun[n - 1]);
    }
  }

  /** A launch that is not superseded finds few probes before it: the timeouts among them
      are spread over the time up to it. */
  lemma FewBefore(h: Health, interval: nat, clock: Time, k: nat, now: Time)
    requires DeadInvariant(h, interval, clock) && interval >= MIN_PROBE_INTERVAL
    requires k < |h.begun| && h.begun[k].source == Probe && h.begun[k].requestedAt <= now
    ensures LaunchesBy(h.begun[..k], now) <=
      6 + now / (3600 * 4) + SupersededProbes(Answers(h.log)[..Min(k, |Answers(h.log)|)])
  {
    hide CountersExact, CircuitOf, TimersExact, OwnRecords, Answers, Clean, Spaced, Timeouts, LaunchesBy, SupersededProbes;
    LaunchesAnswered(h, interval, clock, k, now);
    if |TimeoutsBefore(h, k)| >= 7 {
      LateLaunches(h, interval, clock, k);
    }
  }

  lemma {:induction false} CountLaunches(h: Health, interval: nat, clock: Time, n: nat, now: Time)
    requires DeadInvariant(h, interval, clock) && interval >= MIN_PROBE_INTERVAL && n <= |h.begun|
    ensures LaunchesBy(h.begun[..n], now) <=
      7 + now / (3600 * 4) + SupersededProbes(Answers(h.log)[..Min(n, |Answers(h.log)|)])
  {
    hide CountersExact, CircuitOf, TimersExact, OwnRecords, Answers, Clean, Spaced, Timeouts, Aging, Counted, TrailingTimeouts;
    var answers := Answers(h.log);
    if n > 0 {
      var q := h.begun[n - 1];
      assert h.begun[..n][..n - 1] == h.begun[..n - 1];
      if n <= |answers| {
        assert answers[..n][..n - 1] == answers[..n - 1];
      }
      if q.source == Probe && q.requestedAt <= now {
        FewBefore(h, interval, clock, n - 1, now);
      } else {
        CountLaunches(h, interval, clock, n - 1, now);
      }
    }
  }

  lemma CountAllLaunches(h: Health, interval: nat, clock: Time, now: Time)
    requires DeadInvariant(h, interval, clock) && interval >= MIN_PROBE_INTERVAL
    ensures LaunchesBy(h.begun, now) <= 7 + now / (3600 * 4) + SupersededProbes(Answers(h.log))
  {
    hide Clean, Spaced, TimersExact, LogExact, Answers, LaunchesBy, SupersededProbes;
    var answers := Answers(h.log);
    assert |h.begun| >= |answers|;
    CountLaunches(h, interval, clock, |h.begun|, now);
    assert h.begun[..|h.begun|] == h.begun && answers[..|answers|] == answers;
  }

  /** Main result: a dead device is probed at most seven times plus once an hour, not
      counting the probes that a user's request superseded. */
  lemma LaunchCountBound(u: Uuid, hs: seq<Health>, calls: seq<Timed>, interval: nat, m: nat, now: Time)
    requires IsRun(u, hs, calls) && PacedRun(hs, calls, interval) && m < |hs| && Dead(hs[m])
    requires interval >= MIN_PROBE_INTERVAL
    ensures LaunchesBy(hs[m].begun, now) <=
      7 + now / (3600 * 4) + SupersededProbes(Answers(hs[m].log))
  {
    assert |hs| == |calls| + 1;
    hide *;
    DeadRun(u, hs, calls, interval, m);
    CountAllLaunches(hs[m], interval, if m == 0 then 0 else calls[m - 1].now, now);
  }
}
