/** A delivery is never reported `Ok` without evidence: every `Ok` record of every run
    answers a request that was pending from the call that began it until the very
    status that confirmed it. */
module OkSoundness {
  import opened Vocabulary
  import opened DeviceLedger
  import opened DeviceHistory

  /** What the callers of `async_record` pass: template errors, probe targets without a
      channel and busy probe targets, none of which is an answer of the device. */
  predicate CallerCall(c: Call) {
    c.RecordOutcome? ==>
      !c.responded &&
      ((c.outcome == TemplateError && c.source == Announce) ||
       ((c.outcome == Unreachable || c.outcome == SkippedBusy) && c.source == Probe))
  }

  ghost predicate CallersOnly(calls: seq<Timed>) {
    forall i :: 0 <= i < |calls| ==> CallerCall(calls[i].call)
  }

  /** A status that shows the requested media being delivered, in a session other than
      the one current when the request was made. */
  predicate Confirms(s: Status, q: Request) {
    && s.content == Some(q.content)
    && (s.player == Some(Buffering) || s.player == Some(Playing))
    && !(s.playerIsIdle && s.idle == Some(IdleError))
    && (q.session.Some? ==> s.session != q.session)
  }

  ghost predicate PendsAs(h: Health, ordinal: nat, q: Request) {
    PendingIs(h, ordinal) && h.pending.value.request == q
  }

  /** The request begun by call `b` is the pending one in every state up to state `m`. */
  ghost predicate PendsSince(hs: seq<Health>, calls: seq<Timed>, b: nat, m: nat)
    requires |hs| == |calls| + 1 && m < |hs|
  {
    && b < m && calls[b].call.Begin?
    && forall k :: b < k <= m ==> PendsAs(hs[k], |hs[b].begun|, RequestOf(calls[b]))
  }

  /** Record `r` was appended by status call `j`, which confirmed the request of call `b`. */
  ghost predicate CausedBy(hs: seq<Health>, calls: seq<Timed>, r: Record, b: nat, j: nat)
    requires |hs| == |calls| + 1
  {
    && b < j < |calls|
    && PendsSince(hs, calls, b, j)
    && calls[j].call.MediaStatus? && Confirms(calls[j].call.status, RequestOf(calls[b]))
    && Answer(r, RequestOf(calls[b])) && r.resolvedAt == calls[j].now
    && r.player == calls[j].call.status.player && r.session == calls[j].call.status.session
    && hs[j + 1].pending.None?
    && hs[j + 1].log == hs[j].log + [Entry(r, calls[j].interval)]
  }

  // ------------------------------------------------------------ single steps

  /** The entries a step adds. */
  ghost predicate Grows(h: Health, h': Health) {
    h'.log == h.log || (|h'.log| == |h.log| + 1 && h'.log[..|h.log|] == h.log)
  }

  lemma StepGrows(h: Health, t: Timed)
    ensures Grows(h, Step(h, t))
  {
    hide Append;
  }

  /** Whatever is pending after a step was pending before it or was begun by it. */
  lemma StepPending(h: Health, t: Timed)
    ensures var h' := Step(h, t);
      h'.pending.Some? ==>
        if t.call.Begin? then PendsAs(h', |h.begun|, RequestOf(t))
        else h.pending.Some? && PendsAs(h', h.pending.value.ordinal, h.pending.value.request)
  {
    hide Append;
  }

  /** A begun request becomes the pending one, with its timer's handle. */
  lemma StepBegin(h: Health, t: Timed)
    requires t.call.Begin?
    ensures Step(h, t).pending == Some(Pending(RequestOf(t), |h.begun|, true))
    ensures Step(h, t).begun == h.begun + [RequestOf(t)]
  {
    hide Append;
  }

  /** Only a confirming status appends an `Ok`, and it appends it for the pending request. */
  lemma StepOk(h: Health, t: Timed)
    requires CallerCall(t.call)
    requires |Step(h, t).log| > |h.log| && Step(h, t).log[|h.log|].record.outcome == Ok
    ensures h.pending.Some? && t.call.MediaStatus? && Confirms(t.call.status, h.pending.value.request)
    ensures var r := Step(h, t).log[|h.log|].record;
      && Answer(r, h.pending.value.request) && r.resolvedAt == t.now
      && r.player == t.call.status.player && r.session == t.call.status.session
      && Step(h, t).pending.None? && Step(h, t).log == h.log + [Entry(r, t.interval)]
  {
    hide Append;
  }

  /** `responded` says that the device itself answered. */
  predicate RespondedRight(r: Record) {
    r.responded <==> r.outcome == Ok || r.outcome == FetchFailed
  }

  lemma StepResponded(h: Health, t: Timed)
    requires CallerCall(t.call)
    ensures |Step(h, t).log| > |h.log| ==> RespondedRight(Step(h, t).log[|h.log|].record)
  {
    hide Append;
  }

  // ------------------------------------------------------------- over a run

  lemma {:induction false} PendingOrigin(u: Uuid, hs: seq<Health>, calls: seq<Timed>, m: nat)
    requires IsRun(u, hs, calls) && m < |hs| && hs[m].pending.Some?
    ensures exists b: nat :: PendsSince(hs, calls, b, m)
  {
    hide Step;
    if m > 0 {
      assert Follows(hs, calls, m - 1);
      StepPending(hs[m - 1], calls[m - 1]);
      if calls[m - 1].call.Begin? {
        assert PendsSince(hs, calls, m - 1, m);
      } else {
        PendingOrigin(u, hs, calls, m - 1);
        var b: nat :| PendsSince(hs, calls, b, m - 1);
        assert PendsSince(hs, calls, b, m);
      }
    }
  }

  /** Main result: every `Ok` record has a begun request and a confirming status. */
  lemma {:induction false} OkIsCaused(u: Uuid, hs: seq<Health>, calls: seq<Timed>, m: nat, i: nat)
    requires IsRun(u, hs, calls) && CallersOnly(calls) && m < |hs|
    requires i < |hs[m].log| && hs[m].log[i].record.outcome == Ok
    ensures exists b: nat, j: nat :: j < m && CausedBy(hs, calls, hs[m].log[i].record, b, j)
  {
    hide Step;
    if m > 0 {
      assert Follows(hs, calls, m - 1);
      StepGrows(hs[m - 1], calls[m - 1]);
      if i < |hs[m - 1].log| {
        assert hs[m].log[i] == hs[m - 1].log[i];
        OkIsCaused(u, hs, calls, m - 1, i);
      } else {
        StepOk(hs[m - 1], calls[m - 1]);
        PendingOrigin(u, hs, calls, m - 1);
        var b: nat :| PendsSince(hs, calls, b, m - 1);
        assert PendsAs(hs[m - 1], |hs[b].begun|, RequestOf(calls[b]));
        assert CausedBy(hs, calls, hs[m].log[i].record, b, m - 1);
      }
    }
  }

  /** `responded` holds exactly for the outcomes in which the device answered. */
  lemma {:induction false} RespondedMeansAnswered(u: Uuid, hs: seq<Health>, calls: seq<Timed>, m: nat, i: nat)
    requires IsRun(u, hs, calls) && CallersOnly(calls) && m < |hs| && i < |hs[m].log|
    ensures RespondedRight(hs[m].log[i].record)
  {
    hide Step;
    if m > 0 {
      assert Follows(hs, calls, m - 1);
      StepGrows(hs[m - 1], calls[m - 1]);
      if i < |hs[m - 1].log| {
        RespondedMeansAnswered(u, hs, calls, m - 1, i);
        assert hs[m].log[i] == hs[m - 1].log[i];
      } else {
        StepResponded(hs[m - 1], calls[m - 1]);
      }
    }
  }

  // ------------------------------------------------------------- verdicts

  /** A status that shows the requested media failing: an idle player with the reason
      ERROR, for the requested media or for none in particular. */
  predicate Refutes(s: Status, q: Request) {
    s.playerIsIdle && s.idle == Some(IdleError) && (s.content == None || s.content == Some(q.content))
  }

  /** A status resolves the pending request if and only if it confirms or refutes it, with
      the outcome that says so; another ERROR is logged as an observation and leaves the
      request pending, and any other status leaves no trace. */
  lemma StatusVerdict(h: Health, t: Timed)
    requires t.call.MediaStatus? && h.pending.Some?
    ensures var s, q, h' := t.call.status, h.pending.value.request, Step(h, t);
      && (h'.pending.None? <==> Confirms(s, q) || Refutes(s, q))
      && !(Confirms(s, q) && Refutes(s, q))
      && if h'.pending.None? then
           && |h'.log| == |h.log| + 1 && Answer(h'.log[|h.log|].record, q)
           && h'.log[|h.log|].record.outcome == (if Confirms(s, q) then Ok else FetchFailed)
         else if s.playerIsIdle && s.idle == Some(IdleError) then
           && h'.pending == h.pending && |h'.log| == |h.log| + 1
           && h'.log[|h.log|].record.source == Observed && h'.log[|h.log|].record.outcome == FetchFailed
         else h' == h
  {
    hide Append;
  }

  /** How an exception is told: a timeout of the watchdog or of the library is a timeout,
      a broken or missing channel is unreachable, and whatever the device answered is a
      failed fetch; a failed request counts as an answer if the channel was there or the
      receiver gave a reason. */
  lemma ExceptionVerdict(err: Exception, connected: bool, launchFailure: bool)
    ensures var cause :=
        match err.class_
        case TimeoutClass => err.cause
        case HomeAssistantClass => err.cause
        case OtherClass => err.cause
        case own => Some(own);
      var (outcome, responded) := Classify(err, connected, launchFailure);
      var timedOut := err.class_ == TimeoutClass || cause == Some(RequestTimeoutClass);
      var noChannel := cause == Some(NotConnectedClass) || cause == Some(ConnectionClass);
      var unanswered := cause == Some(RequestFailedClass) && !connected && !launchFailure;
      && (outcome == Timeout <==> timedOut)
      && (outcome == Unreachable <==> !timedOut && (noChannel || unanswered))
      && (outcome == FetchFailed <==> responded)
      && (outcome == Timeout || outcome == Unreachable || outcome == FetchFailed)
  {
  }

  // -------------------------------------------- whose request a failure ends

  /** A failed send resolves the caller's own request exactly if that request is still
      the pending one; otherwise it resolves a newer request or is a mere observation. */
  lemma FailureEndsOwnRequestIffPending(h: Health, k: nat, err: Exception, connected: bool, launchFailure: bool, t: Timed)
    requires Fifo(h) && k < |h.begun|
    requires t.call == RequestFailed(err, connected, launchFailure)
    ensures |Answers(h.log)| <= k < |Answers(Step(h, t).log)| <==> PendingIs(h, k)
    ensures Step(h, t).pending.None? && |Step(h, t).log| == |h.log| + 1
  {
    var (outcome, responded) := Classify(err, connected, launchFailure);
    AppendReadings(Detach(h), ResolutionRecord(h, outcome, responded, None, None, t.now), t.interval);
  }
}
