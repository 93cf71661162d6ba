/** The ledger of a config entry: the devices, the bounded log and the listeners. */
module Ledger {
  import opened Vocabulary
  import opened DeviceLedger
  import Repairs

  datatype Listener = RepairListener | BreakerListener

  /** `history` holds every record ever appended; the program keeps only `records`. */
  datatype Ledger = Ledger(
    devices: map<Uuid, Health>,
    history: seq<Record>,
    records: seq<Record>,
    listeners: seq<Listener>,
    repairs: Repairs.State)

  /** The listeners of a set-up entry, in the order in which set-up attaches them. */
  const SetUp: seq<Listener> := [RepairListener, BreakerListener]

  /** The ledger of a new entry: it may know devices by their stored stamps, but nothing
      has happened to them yet. */
  predicate IsNew(l: Ledger) {
    && (forall u :: u in l.devices ==> l.devices[u] == Fresh(u))
    && l.history == [] && l.records == [] && l.listeners == SetUp && Repairs.IsNew(l.repairs)
  }

  /** The repair manager listens: until it is detached by the unload, it does. */
  predicate Hears(l: Ledger) {
    l.listeners == SetUp || l.listeners == [RepairListener]
  }

  function Device(l: Ledger, u: Uuid): Health {
    if u in l.devices then l.devices[u] else Fresh(u)
  }

  /** A ledger that has a state for device `u`. */
  function Touched(l: Ledger, u: Uuid): Ledger {
    Stored(l, Device(l, u))
  }

  /** Appending to a deque that holds at most `LEDGER_SIZE` records. */
  function Push(records: seq<Record>, r: Record): seq<Record> {
    var longer := records + [r];
    if |longer| > LEDGER_SIZE then longer[|longer| - LEDGER_SIZE..] else longer
  }

  /** Every listener hears the record, in order. */
  function Notify(s: Repairs.State, listeners: seq<Listener>, r: Record): Repairs.State
    decreases |listeners|
  {
    if listeners == [] then s
    else
      var heard := if listeners[0] == RepairListener then Repairs.OnRecord(s, r) else s;
      Notify(heard, listeners[1..], r)
  }

  /** The interval the breaker would use, if it is listening. */
  function BreakerInterval(l: Ledger, interval: nat): Option<nat> {
    if BreakerListener in l.listeners then Some(interval) else None
  }

  function Stored(l: Ledger, h: Health): Ledger {
    l.(devices := l.devices[h.uuid := h])
  }

  function Commit(l: Ledger, e: Effect): Ledger {
    var stored := Stored(l, e.health);
    match e.emitted
    case None => stored
    case Some(r) =>
      stored.(history := l.history + [r],
              records := Push(l.records, r),
              repairs := Notify(l.repairs, l.listeners, r))
  }

  /** One call of the ledger about device `u`. */
  function On(l: Ledger, u: Uuid, c: Call, now: Time, interval: nat): Ledger {
    Commit(l, Apply(Device(l, u), c, now, BreakerInterval(l, interval)))
  }

  /** `async_shutdown`. */
  function Closed(l: Ledger): Ledger {
    l.(devices := map u | u in l.devices :: Cancelled(l.devices[u]))
  }
}
