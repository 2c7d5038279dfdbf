/**
 * The initialisation handshake of a board as a chain of gates. The first gate that
 * fails decides the outcome; the bus calls issued are exactly those made before it.
 */
module Handshake {
  import opened Basics
  import opened Bus
  import opened Objects

  /** Update rates at or below this are refused. */
  const MIN_UPDATE_RATE_HZ: real := 0.1
  /** Timeout (ms, 0 = the server's default) and retries of a constant-object read. */
  const CONST_READ_TIMEOUT_MS: nat := 0
  const CONST_READ_RETRIES: nat := 1

  datatype Gate =
    | AlreadyInitialized
    | NullServer
    | InvalidNodeId
    | InvalidRate
    | RegisterFailed
    | DeviceTypeUnread
    | NotToFBoard
    | FirmwareVersionUnread
    | ComVersionUnread
    | ComVersionUnsupported
    | BuildDateUnread

  /**
   * The first gate of the handshake that fails, or None when all pass. The k-th bus
   * call of the handshake is answered by `answers(start + k)`.
   */
  function FirstFailure(alreadyInit: bool, hasServer: bool, nodeId: uint8, rateHz: real,
                        answers: nat -> Response, start: nat): Option<Gate>
  {
    if alreadyInit then Some(AlreadyInitialized)
    else if !hasServer then Some(NullServer)
    else if nodeId < 1 && nodeId > 127 then Some(InvalidNodeId)
    else if rateHz <= MIN_UPDATE_RATE_HZ then Some(InvalidRate)
    else if answers(start).result != ResOk then Some(RegisterFailed)
    else InfoFailure(answers, start + 1)
  }

  /**
   * The first failing gate among the reads of the device's constant objects, whose
   * k-th read is answered by `answers(start + k)`.
   */
  function InfoFailure(answers: nat -> Response, start: nat): (r: Option<Gate>)
    ensures r.Some? ==> CallsIssued(r) >= 2
  {
    if !Completed(answers(start)) then Some(DeviceTypeUnread)
    else if answers(start).rawValue % 0x100 != TOF_BOARD_TYPE then Some(NotToFBoard)
    else if !Completed(answers(start + 1)) then Some(FirmwareVersionUnread)
    else if !Completed(answers(start + 2)) then Some(ComVersionUnread)
    else if answers(start + 2).floatValue != TOF_COM_VER then Some(ComVersionUnsupported)
    else if !Completed(answers(start + 3)) then Some(BuildDateUnread)
    else None
  }

  /** The bus calls of a complete handshake, in order. */
  function HandshakeRequests(node: nat): seq<Request> {
    [RegisterNode(node)] + InfoRequests(node)
  }

  /** The reads of the device type, firmware version, communication version and build date. */
  function InfoRequests(node: nat): seq<Request> {
    [ Read(node, TOF_DEV_TYPE as nat, CONST_READ_TIMEOUT_MS, CONST_READ_RETRIES),
      Read(node, TOF_FW_VER as nat, CONST_READ_TIMEOUT_MS, CONST_READ_RETRIES),
      Read(node, TOF_FW_COM_VER as nat, CONST_READ_TIMEOUT_MS, CONST_READ_RETRIES),
      Read(node, TOF_FW_BUILD_DATE as nat, CONST_READ_TIMEOUT_MS, CONST_READ_RETRIES) ]
  }

  /** How many of those calls are issued when the handshake stops at `g`. */
  function CallsIssued(g: Option<Gate>): (n: nat)
    ensures n <= 5
  {
    match g
    case None => 5
    case Some(AlreadyInitialized) => 0
    case Some(NullServer) => 0
    case Some(InvalidNodeId) => 0
    case Some(InvalidRate) => 0
    case Some(RegisterFailed) => 1
    case Some(DeviceTypeUnread) => 2
    case Some(NotToFBoard) => 2
    case Some(FirmwareVersionUnread) => 3
    case Some(ComVersionUnread) => 4
    case Some(ComVersionUnsupported) => 4
    case Some(BuildDateUnread) => 5
  }

  /** Every condition of the handshake, stated independently of the order of the checks. */
  predicate AllGatesPass(alreadyInit: bool, hasServer: bool, rateHz: real,
                         answers: nat -> Response, start: nat)
  {
    && !alreadyInit
    && hasServer
    && rateHz > MIN_UPDATE_RATE_HZ
    && answers(start).result == ResOk
    && Completed(answers(start + 1)) && Completed(answers(start + 2))
    && Completed(answers(start + 3)) && Completed(answers(start + 4))
    && answers(start + 1).rawValue % 0x100 == TOF_BOARD_TYPE
    && answers(start + 3).floatValue == TOF_COM_VER
  }

  /** The handshake succeeds exactly when every condition holds. */
  lemma HandshakeSucceedsIff(alreadyInit: bool, hasServer: bool, nodeId: uint8, rateHz: real,
                             answers: nat -> Response, start: nat)
    ensures FirstFailure(alreadyInit, hasServer, nodeId, rateHz, answers, start) == None
            <==> AllGatesPass(alreadyInit, hasServer, rateHz, answers, start)
  {
  }

  /** The node-ID check can never fail: no node ID changes the outcome. */
  lemma NodeIdNeverRejected(alreadyInit: bool, hasServer: bool, n1: uint8, n2: uint8, rateHz: real,
                            answers: nat -> Response, start: nat)
    ensures FirstFailure(alreadyInit, hasServer, n1, rateHz, answers, start) != Some(InvalidNodeId)
    ensures FirstFailure(alreadyInit, hasServer, n1, rateHz, answers, start)
            == FirstFailure(alreadyInit, hasServer, n2, rateHz, answers, start)
  {
  }

  /** A rate of 0.1 Hz or less is refused before any bus call, 0.1 itself included. */
  lemma LowRateRefused(nodeId: uint8, rateHz: real, answers: nat -> Response, start: nat)
    requires rateHz <= 0.1
    ensures FirstFailure(false, true, nodeId, rateHz, answers, start) == Some(InvalidRate)
    ensures CallsIssued(FirstFailure(false, true, nodeId, rateHz, answers, start)) == 0
  {
  }

  /** Only the low byte of the device type is compared: 0x103 passes the check like 3. */
  lemma DeviceTypeLowByte(nodeId: uint8, rateHz: real, answers: nat -> Response, start: nat)
    requires rateHz > MIN_UPDATE_RATE_HZ && answers(start).result == ResOk && Completed(answers(start + 1))
    ensures FirstFailure(false, true, nodeId, rateHz, answers, start) != Some(NotToFBoard)
            <==> answers(start + 1).rawValue % 0x100 == 3
  {
  }
}
