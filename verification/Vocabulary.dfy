/** The words every other module speaks: outcomes, sources, device statuses,
    delivery records and the constants of custom_components/cast/const.py.

    Time is one clock counted in quarter seconds, the polling period of a waiting
    probe. It stands for both the wall clock and the monotonic clock of the source. */
module Vocabulary {

  datatype Option<+T> = None | Some(value: T)

  /** A device id. Its printed form has a fixed width, so ids compare as numbers. */
  type Uuid = nat

  /** A media URL; only ever compared for equality. */
  type Content = string

  type Time = nat

  const SECOND: Time := 4

  const DELIVERY_TIMEOUT: Time := 30 * SECOND
  const REQUEST_WATCHDOG: Time := 45 * SECOND
  const PROBE_WATCHDOG: Time := 20 * SECOND
  const POLL_PERIOD: Time := 1
  const GIVE_UP_MARGIN: Time := 5 * SECOND

  /** Probe intervals and backoffs are whole seconds, as in the options. */
  const MIN_PROBE_INTERVAL: nat := 60
  const CIRCUIT_BREAKER_TIMEOUTS: nat := 2
  const CIRCUIT_BREAKER_MAX_BACKOFF: nat := 3600

  const LEDGER_SIZE: nat := 50
  const FAILURES_BEFORE_ISSUE: nat := 2

  datatype Outcome =
    | Ok
    | FetchFailed
    | Unreachable
    | Timeout
    | TemplateError
    | SkippedBusy
    | Unknown

  predicate IsFailure(o: Outcome) {
    o == FetchFailed || o == Unreachable || o == Timeout || o == TemplateError
  }

  /** `Unknown` and `SkippedBusy` are logged but never counted. */
  predicate IsCounted(o: Outcome) {
    o != Unknown && o != SkippedBusy
  }

  datatype Source = PlayMedia | Announce | Probe | Observed

  datatype PlayerState = Playing | Buffering | Paused | Idle | OtherState

  datatype IdleReason = IdleError | OtherReason

  /** The plain values a media status callback hands to the event loop. */
  datatype Status = Status(
    content: Option<Content>,
    player: Option<PlayerState>,
    idle: Option<IdleReason>,
    session: Option<int>,
    playerIsIdle: bool)

  /** What a caller asked for when it began a request. */
  datatype Request = Request(
    content: Content,
    source: Source,
    requestedAt: Time,
    session: Option<int>,
    timeout: Time)

  /** One resolved delivery attempt or observation. */
  datatype Record = Record(
    uuid: Uuid,
    source: Source,
    outcome: Outcome,
    content: Option<Content>,
    responded: bool,
    requestedAt: Option<Time>,
    resolvedAt: Time,
    elapsed: Option<int>,
    player: Option<PlayerState>,
    idle: Option<IdleReason>,
    session: Option<int>)

  /** The exception classes the ledger tells apart. */
  datatype ErrorClass =
    | TimeoutClass
    | RequestTimeoutClass
    | RequestFailedClass
    | NotConnectedClass
    | ConnectionClass
    | OtherChromecastClass
    | HomeAssistantClass
    | OtherClass

  predicate IsChromecastError(c: ErrorClass) {
    c == RequestTimeoutClass || c == RequestFailedClass || c == NotConnectedClass ||
    c == ConnectionClass || c == OtherChromecastClass
  }

  /** A raised exception and the class of its `__cause__`, if it has one. */
  datatype Exception = Exception(class_: ErrorClass, cause: Option<ErrorClass>)

  function Min(a: nat, b: nat): nat {
    if a <= b then a else b
  }

  function Max(a: nat, b: nat): nat {
    if a <= b then b else a
  }

  function Pow2(n: nat): (r: nat)
    ensures r >= 1
  {
    if n == 0 then 1 else 2 * Pow2(n - 1)
  }

  lemma {:induction false} Pow2Monotone(m: nat, n: nat)
    requires m <= n
    ensures Pow2(m) <= Pow2(n)
    decreases n - m
  {
    if m < n {
      Pow2Monotone(m, n - 1);
    }
  }
}
