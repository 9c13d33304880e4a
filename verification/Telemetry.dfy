/**
  Passive health telemetry as a summary of the event log.

  `State` holds no health at all, so nothing the engine decides can depend on it.
 */
module Telemetry {
  import opened Types
  import opened Codec
  import opened Engine

  datatype Health = Health(state: DriverState, okMs: nat, errorMs: nat, error: Err, consecutive: nat,
                           transferOk: nat, transferFailed: nat, expectedNacks: nat,
                           protocol: nat, crc: nat, protocolMs: nat, protocolError: Err,
                           succeeded: nat, failed: nat, cancelled: nat,
                           operationErrorMs: nat, operationError: Err, errorId: OpId, errorKind: Kind,
                           lastId: OpId, lastKind: Kind)

  const NO_HEALTH := Health(Uninit, 0, 0, Ok, 0, 0, 0, 0, 0, 0, 0, Ok, 0, 0, 0, 0, Ok, NO_ID, NoKind, NO_ID, NoKind)

  const DEFAULT_THRESHOLD: nat := 5

  /** The telemetry the driver keeps: the offline threshold and the counters. */
  datatype Meter = Meter(threshold: nat, health: Health)

  const NO_METER := Meter(DEFAULT_THRESHOLD, NO_HEALTH)

  function CountTransfer(h: Health, threshold: nat, n: Norm, expectedNack: bool): Health {
    if expectedNack then h.(expectedNacks := IncrementSaturating(h.expectedNacks, MAX_U32))
    else if n.code == CodeOk && n.disposition == Complete then
      h.(okMs := n.doneMs, transferOk := IncrementSaturating(h.transferOk, MAX_U32), consecutive := 0, state := Ready)
    else if n.disposition == NotStarted then h
    else
      var c := IncrementSaturating(h.consecutive, 255);
      h.(errorMs := n.doneMs, error := CodeStatus(n.code),
         transferFailed := IncrementSaturating(h.transferFailed, MAX_U32), consecutive := c,
         state := if threshold != 0 && c >= threshold then Offline else Degraded)
  }

  function CountProtocol(h: Health, err: Err, atMs: nat): Health {
    h.(protocol := IncrementSaturating(h.protocol, MAX_U32),
       crc := if err == CrcMismatch then IncrementSaturating(h.crc, MAX_U32) else h.crc,
       protocolMs := atMs, protocolError := err)
  }

  function CountOutcome(h: Health, r: Result): Health {
    var h1 := h.(lastId := r.id, lastKind := r.kind);
    match r.outcome
    case Succeeded => h1.(succeeded := IncrementSaturating(h.succeeded, MAX_U32))
    case NoData => h1.(succeeded := IncrementSaturating(h.succeeded, MAX_U32))
    case OutcomeCancelled =>
      h1.(cancelled := IncrementSaturating(h.cancelled, MAX_U32), operationErrorMs := r.completedMs,
          operationError := r.status, errorId := r.id, errorKind := r.kind)
    case _ =>
      h1.(failed := IncrementSaturating(h.failed, MAX_U32), operationErrorMs := r.completedMs,
          operationError := r.status, errorId := r.id, errorKind := r.kind)
  }

  function Count(m: Meter, e: Event): Meter {
    match e
    case Bound(threshold) => Meter(threshold, NO_HEALTH.(state := Ready))
    case Unbound => Meter(DEFAULT_THRESHOLD, m.health.(state := Uninit))
    case Called(c) =>
      var h := if c.norm.malformed then CountProtocol(m.health, I2cError, c.norm.doneMs) else m.health;
      m.(health := CountTransfer(h, m.threshold, c.norm, ExpectedNack(c.intent, c.norm)))
    case ProtocolError(err, atMs) => m.(health := CountProtocol(m.health, err, atMs))
    case Finished(r) => m.(health := CountOutcome(m.health, r))
    case _ => m
  }

  function Summary(log: seq<Event>): Meter {
    if log == [] then NO_METER else Count(Summary(log[..|log| - 1]), log[|log| - 1])
  }

  // ----- The requests the transport saw -----

  const I2C_ADDRESS: nat := 0x62

  datatype TransferRequest = TransferRequest(address: nat, writeData: seq<bv8>, readLength: nat,
                                             timeoutMs: nat, intent: Intent)

  function RequestOf(c: Call): TransferRequest {
    TransferRequest(I2C_ADDRESS, WriteBytes(c.wire), if c.wire.Read? then WireLength(c.wire) else 0,
                    c.timeoutMs, c.intent)
  }

  function Requests(log: seq<Event>): seq<TransferRequest> {
    if log == [] then []
    else
      var r := Requests(log[..|log| - 1]);
      if log[|log| - 1].Called? then r + [RequestOf(log[|log| - 1].call)] else r
  }

  /** One more event: one more count, and one more request if it is a callback. */
  lemma Logged(log: seq<Event>, e: Event)
    ensures Summary(log + [e]) == Count(Summary(log), e)
    ensures Requests(log + [e]) == Requests(log) + (if e.Called? then [RequestOf(e.call)] else [])
  {
    assert (log + [e])[..|log|] == log;
  }
}
