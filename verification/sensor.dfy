/**
 * One ToF sensor of a board: its snapshot of the last distance, status and sigma,
 * and the read sequence that refreshes it. The sensor reaches the bus through the
 * server and node address of its board, which are passed to the reading methods.
 */
module Sensors {
  import opened Basics
  import opened Bus
  import Objects
  import StatusWord

  /** Timeout (ms) and retries of the per-tick sensor reads. */
  const SENSOR_READ_TIMEOUT_MS: nat := 20
  const SENSOR_READ_RETRIES: nat := 1

  /** The part of a sensor's snapshot that the distance+status read publishes. */
  datatype Reading = Reading(distanceMm: uint16, rangeStatus: uint8)

  function DecodeReading(raw: uint32): Reading {
    Reading(StatusWord.DecodeDistance(raw), StatusWord.DecodeStatus(raw))
  }

  /**
   * The reading after one distance+status read answered by `resp`: a transport failure
   * or a protocol error keeps the previous reading; a completed read publishes the low
   * three bytes of the word.
   */
  function AfterDistanceRead(prev: Reading, resp: Response): (r: Reading)
    ensures !Completed(resp) ==> r == prev
    ensures Completed(resp) ==>
              StatusWord.Encode(resp.rawValue / 0x100_0000, r.rangeStatus, r.distanceMm) == resp.rawValue
  {
    if resp.result != ResOk then prev
    else if resp.error != ErrNone then prev
    else StatusWord.EncodeDecode(resp.rawValue); DecodeReading(resp.rawValue)
  }

  /** The reading after a series of distance+status reads, oldest answer first. */
  function LastKnownGood(prev: Reading, answers: seq<Response>): Reading {
    if answers == [] then prev
    else AfterDistanceRead(LastKnownGood(prev, answers[..|answers| - 1]), answers[|answers| - 1])
  }

  /** One more read extends the series at its end. */
  lemma LastKnownGoodSnoc(prev: Reading, answers: seq<Response>, next: Response)
    ensures LastKnownGood(prev, answers + [next]) == AfterDistanceRead(LastKnownGood(prev, answers), next)
  {
    assert (answers + [next])[..|answers|] == answers;
  }

  /** With no completed read in the series, the sensor still shows its earlier reading. */
  lemma {:induction false} LastKnownGoodStale(prev: Reading, answers: seq<Response>)
    requires forall j | 0 <= j < |answers| :: !Completed(answers[j])
    ensures LastKnownGood(prev, answers) == prev
  {
    if answers != [] {
      LastKnownGoodStale(prev, answers[..|answers| - 1]);
    }
  }

  /** The sensor shows the word of the latest completed read, whatever failed after it. */
  lemma {:induction false} LastKnownGoodLatest(prev: Reading, answers: seq<Response>, i: nat)
    requires i < |answers| && Completed(answers[i])
    requires forall j | i < j < |answers| :: !Completed(answers[j])
    ensures LastKnownGood(prev, answers) == DecodeReading(answers[i].rawValue)
  {
    if i < |answers| - 1 {
      LastKnownGoodLatest(prev, answers[..|answers| - 1], i);
    }
  }

  /** The two reads one update of sensor `id` issues, in order. */
  function SensorReads(node: nat, id: nat): seq<Request> {
    [Read(node, Objects.SensorObjectId(id, Objects.DistanceAndStatus), SENSOR_READ_TIMEOUT_MS, SENSOR_READ_RETRIES),
     Read(node, Objects.SensorObjectId(id, Objects.Sigma), SENSOR_READ_TIMEOUT_MS, SENSOR_READ_RETRIES)]
  }

  class Sensor {
    const id: nat
    const distanceObject: nat
    const sigmaObject: nat
    const logging: bool

    var initialized: bool
    /** Last published distance; the float holds a 16-bit integer exactly. */
    var distanceMm: uint16
    /** Read from the device but never stored: keeps whatever it held. */
    var sigmaMm: real
    /** Last published range-status byte, named or not. */
    var rangeStatus: uint8

    function Snapshot(): Reading
      reads this
    {
      Reading(distanceMm, rangeStatus)
    }

    /** Only a board constructs sensors, for slots 0 and 1; the snapshot starts indeterminate. */
    constructor (id: nat, logging: bool := false)
      ensures this.id == id && this.logging == logging
      ensures distanceObject == Objects.SensorObjectId(id, Objects.DistanceAndStatus)
      ensures sigmaObject == Objects.SensorObjectId(id, Objects.Sigma)
      ensures !initialized
    {
      this.id := id;
      this.logging := logging;
      distanceObject := Objects.SensorObjectId(id, Objects.DistanceAndStatus);
      sigmaObject := Objects.SensorObjectId(id, Objects.Sigma);
      initialized := false;
    }

    method Init() returns (ok: bool)
      modifies this`initialized
      ensures ok == !old(initialized)
      ensures initialized
    {
      if initialized {
        return false;
      }
      initialized := true;
      return true;
    }

    /** Clears the flag; a second call finds it cleared and does nothing. */
    method Release()
      modifies this`initialized
      ensures !initialized
    {
      if !initialized {
        return;
      }
      initialized := false;
    }

    method ReadDistanceAndStatus(server: ComServer, node: nat) returns (ok: bool)
      modifies this`distanceMm, this`rangeStatus, server
      ensures server.trace == old(server.trace) + [Read(node, distanceObject, SENSOR_READ_TIMEOUT_MS, SENSOR_READ_RETRIES)]
      ensures ok == (old(server.NextAnswer()).result == ResOk)
      ensures Snapshot() == AfterDistanceRead(old(Snapshot()), old(server.NextAnswer()))
    {
      var resp := server.ReadDataObject(node, distanceObject, SENSOR_READ_TIMEOUT_MS, SENSOR_READ_RETRIES);
      if resp.result != ResOk {
        return false;
      }
      if resp.error != ErrNone {
        return true;
      }
      var raw := resp.rawValue;
      distanceMm := StatusWord.DecodeDistance(raw);
      rangeStatus := StatusWord.DecodeStatus(raw);
      return true;
    }

    /** Reads the sigma object; its value is not decoded and no field changes. */
    method ReadSigma(server: ComServer, node: nat) returns (ok: bool)
      modifies server
      ensures server.trace == old(server.trace) + [Read(node, sigmaObject, SENSOR_READ_TIMEOUT_MS, SENSOR_READ_RETRIES)]
      ensures ok == (old(server.NextAnswer()).result == ResOk)
    {
      var resp := server.ReadDataObject(node, sigmaObject, SENSOR_READ_TIMEOUT_MS, SENSOR_READ_RETRIES);
      if resp.result != ResOk {
        return false;
      }
      if resp.error != ErrNone {
        return true;
      }
      return true;
    }

    /** The distance read, then the sigma read; failures of either are not reported. */
    method Update(server: ComServer, node: nat) returns (ok: bool)
      modifies this`distanceMm, this`rangeStatus, server
      ensures ok
      ensures server.trace == old(server.trace) +
                [Read(node, distanceObject, SENSOR_READ_TIMEOUT_MS, SENSOR_READ_RETRIES),
                 Read(node, sigmaObject, SENSOR_READ_TIMEOUT_MS, SENSOR_READ_RETRIES)]
      ensures Snapshot() == AfterDistanceRead(old(Snapshot()), server.answers(|old(server.trace)|))
    {
      var _ := ReadDistanceAndStatus(server, node);
      var _ := ReadSigma(server, node);
      return true;
    }

    method GetDistanceMM() returns (d: uint16)
      ensures d == distanceMm
    {
      d := distanceMm;
    }

    method GetSigmaMM() returns (s: real)
      ensures s == sigmaMm
    {
      s := sigmaMm;
    }

    method GetRangeStatus() returns (s: uint8)
      ensures s == rangeStatus
    {
      s := rangeStatus;
    }
  }
}
