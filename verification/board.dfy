/**
 * A ToF board: the initialisation handshake, the two sensors it owns, device reset,
 * and the polling loop that refreshes the sensors. The worker thread is modelled as a
 * sequential loop that runs a given number of ticks; timing and sleeps are not modelled.
 */
module Boards {
  import opened Basics
  import opened Bus
  import opened Objects
  import opened Handshake
  import Sensors

  /** Timeout (ms, 0 = the server's default) and retries of a write and of its follow-up read. */
  const WRITE_TIMEOUT_MS: nat := 0
  const WRITE_RETRIES: nat := 2
  /** Bus calls of one polling tick: two reads for every sensor. */
  const READS_PER_TICK: nat := 4

  /** The reads issued by updating the first `count` sensors of the list, in list order. */
  function PollRequests(node: nat, count: nat): (r: seq<Request>)
    ensures |r| == 2 * count
  {
    if count == 0 then [] else PollRequests(node, count - 1) + Sensors.SensorReads(node, count - 1)
  }

  /** The reads issued by `ticks` ticks of the polling loop. */
  function PollTrace(node: nat, ticks: nat): (r: seq<Request>)
    ensures |r| == READS_PER_TICK * ticks
  {
    if ticks == 0 then [] else PollTrace(node, ticks - 1) + PollRequests(node, TOF_BOARD_SENSORS)
  }

  /** The answers the distance+status reads of sensor `slot` receive over `ticks` ticks. */
  function DistanceAnswers(answers: nat -> Response, start: nat, ticks: nat, slot: nat): seq<Response> {
    seq(ticks, k requires 0 <= k => answers(start + READS_PER_TICK * k + 2 * slot))
  }

  lemma DistanceAnswersSnoc(answers: nat -> Response, start: nat, ticks: nat, slot: nat)
    ensures DistanceAnswers(answers, start, ticks + 1, slot)
            == DistanceAnswers(answers, start, ticks, slot) + [answers(start + READS_PER_TICK * ticks + 2 * slot)]
  {
  }

  /** A sensor's reading after `ticks` ticks, one distance+status answer per tick. */
  function Polled(first: Sensors.Reading, answers: nat -> Response, start: nat, ticks: nat, slot: nat)
    : Sensors.Reading
  {
    if ticks == 0 then first
    else Sensors.AfterDistanceRead(Polled(first, answers, start, ticks - 1, slot),
                                   answers(start + READS_PER_TICK * (ticks - 1) + 2 * slot))
  }

  /** Tick by tick, a sensor follows the last-known-good policy over its own answers. */
  lemma {:induction false} PolledIsLastKnownGood(first: Sensors.Reading, answers: nat -> Response,
                                                 start: nat, ticks: nat, slot: nat)
    ensures Polled(first, answers, start, ticks, slot)
            == Sensors.LastKnownGood(first, DistanceAnswers(answers, start, ticks, slot))
  {
    if ticks == 0 {
      assert DistanceAnswers(answers, start, 0, slot) == [];
    } else {
      PolledIsLastKnownGood(first, answers, start, ticks - 1, slot);
      TickStep(first, Polled(first, answers, start, ticks - 1, slot), Polled(first, answers, start, ticks, slot),
               answers, start, ticks - 1, slot);
    }
  }

  /** A tick extends a sensor's series of distance+status answers by one. */
  lemma TickStep(first: Sensors.Reading, before: Sensors.Reading, after: Sensors.Reading,
                 answers: nat -> Response, start: nat, n: nat, slot: nat)
    requires before == Sensors.LastKnownGood(first, DistanceAnswers(answers, start, n, slot))
    requires after == Sensors.AfterDistanceRead(before, answers(start + READS_PER_TICK * n + 2 * slot))
    ensures after == Sensors.LastKnownGood(first, DistanceAnswers(answers, start, n + 1, slot))
  {
    DistanceAnswersSnoc(answers, start, n, slot);
    Sensors.LastKnownGoodSnoc(first, DistanceAnswers(answers, start, n, slot),
                              answers(start + READS_PER_TICK * n + 2 * slot));
  }

  /** The calls a write makes: the write, then one diagnostic read when the node refused it. */
  function WriteRequests(node: nat, objectId: nat, value: uint32, resp: Response): seq<Request> {
    [Write(node, objectId, value, WRITE_TIMEOUT_MS, WRITE_RETRIES)]
    + if resp.result == ResOk && resp.error != ErrNone
      then [Read(node, objectId, WRITE_TIMEOUT_MS, WRITE_RETRIES)]
      else []
  }

  /** The sensor in list slot `i` addresses that slot's objects. */
  ghost predicate InSlot(s: Sensors.Sensor, i: nat) {
    && s.id == i
    && s.distanceObject == SensorObjectId(i, DistanceAndStatus)
    && s.sigmaObject == SensorObjectId(i, Sigma)
  }

  /** What an answer that never comes looks like. */
  const NO_ANSWER: Response := Response(ResTimeout, ErrNone, 0, 0.0)

  class Board {
    const nodeId: uint8
    const server: ComServer?
    const updateRateHz: real
    const logging: bool

    // Cached values of the constant objects and of the reset object
    var deviceType: uint32
    var fwVersion: real
    var comVersion: real
    var fwBuildDate: real
    var resetValue: uint32

    /** The fixed-size sensor list; a slot is empty until the first successful init. */
    const sensors: array<Sensors.Sensor?>
    var initialized: bool
    ghost var Repr: set<object>

    ghost predicate Valid()
      reads this, sensors
    {
      && this in Repr && sensors in Repr
      && sensors.Length == TOF_BOARD_SENSORS
      && (forall i | 0 <= i < sensors.Length :: sensors[i] != null ==> sensors[i] in Repr && InSlot(sensors[i], i))
      && (initialized ==> server != null && forall i | 0 <= i < sensors.Length :: sensors[i] != null)
    }

    /** The answers of the bus, or none at all without a server. */
    ghost function BusAnswers(): nat -> Response {
      if server == null then _ => NO_ANSWER else server.answers
    }

    /** The number of calls made on the bus so far. */
    ghost function BusCalls(): nat
      reads server
    {
      if server == null then 0 else |server.trace|
    }

    constructor (nodeId: uint8, server: ComServer?, updateRateHz: real := DEFAULT_UPDATE_RATE_HZ,
                 logging: bool := DEFAULT_LOGGING)
      ensures Valid() && fresh(Repr)
      ensures this.nodeId == nodeId && this.server == server
      ensures this.updateRateHz == updateRateHz && this.logging == logging
      ensures !initialized
      ensures forall i | 0 <= i < sensors.Length :: sensors[i] == null
    {
      this.nodeId := nodeId;
      this.server := server;
      this.updateRateHz := updateRateHz;
      this.logging := logging;
      deviceType, fwVersion, comVersion, fwBuildDate, resetValue := 0, 0.0, 0.0, 0.0, 0;
      sensors := new Sensors.Sensor?[TOF_BOARD_SENSORS](_ => null);
      initialized := false;
      Repr := {this, sensors};
    }

    method Init() returns (ok: bool)
      requires Valid()
      modifies this, sensors, server
      ensures Valid() && fresh(Repr - old(Repr))
      ensures ok <==> FirstFailure(old(initialized), server != null, nodeId, updateRateHz,
                                   BusAnswers(), old(BusCalls())) == None
      ensures server != null ==>
                server.trace == old(server.trace) + HandshakeRequests(nodeId)[..CallsIssued(
                  FirstFailure(old(initialized), true, nodeId, updateRateHz, server.answers, old(|server.trace|)))]
      ensures initialized == (old(initialized) || ok)
      ensures !ok ==> sensors[..] == old(sensors[..])
      ensures ok ==> forall i | 0 <= i < sensors.Length ::
                       sensors[i] != null && fresh(sensors[i]) && sensors[i].initialized
      ensures ok ==> deviceType % 0x100 == TOF_BOARD_TYPE && comVersion == TOF_COM_VER
    {
      if initialized {
        return false;
      }
      if server == null {
        return false;
      }
      ok := CheckDevice();
      if !ok {
        return false;
      }
      CreateSensors();
      // starting the worker thread and waiting for it to report is not modelled
      initialized := true;
      return true;
    }

    /**
     * The gates of the handshake after the initialised and null-server checks: node ID,
     * update rate, node registration, device type, firmware version, communication
     * version and build date, in that order.
     */
    method CheckDevice() returns (ok: bool)
      requires server != null
      modifies this`deviceType, this`fwVersion, this`comVersion, this`fwBuildDate, server
      ensures ok <==> FirstFailure(false, true, nodeId, updateRateHz, server.answers, old(|server.trace|)) == None
      ensures server.trace == old(server.trace) + HandshakeRequests(nodeId)[..CallsIssued(
                FirstFailure(false, true, nodeId, updateRateHz, server.answers, old(|server.trace|)))]
      ensures ok ==> deviceType % 0x100 == TOF_BOARD_TYPE && comVersion == TOF_COM_VER
    {
      if nodeId < 1 && nodeId > 127 {
        return false;
      }
      if updateRateHz <= MIN_UPDATE_RATE_HZ {
        return false;
      }
      var registered := server.RegisterNode(nodeId);
      if registered != ResOk {
        return false;
      }
      // the settle delay before the first read is not modelled
      ok := ReadDeviceInfo();
      ghost var n := CallsIssued(InfoFailure(server.answers, old(|server.trace|) + 1));
      assert HandshakeRequests(nodeId)[..n] == [RegisterNode(nodeId)] + InfoRequests(nodeId)[..n - 1];
    }

    /**
     * Reads the device type, firmware version, communication version and build date, in
     * that order, stopping at the first read that fails or the first value refused.
     */
    method ReadDeviceInfo() returns (ok: bool)
      requires server != null
      modifies this`deviceType, this`fwVersion, this`comVersion, this`fwBuildDate, server
      ensures ok <==> InfoFailure(server.answers, old(|server.trace|)) == None
      ensures server.trace == old(server.trace) + InfoRequests(nodeId)[..CallsIssued(
                InfoFailure(server.answers, old(|server.trace|))) - 1]
      ensures ok ==> deviceType % 0x100 == TOF_BOARD_TYPE && comVersion == TOF_COM_VER
    {
      ghost var infoReads := InfoRequests(nodeId);
      var read, resp := ReadConstObject(TOF_DEV_TYPE as nat);
      assert server.trace == old(server.trace) + infoReads[..1];
      if !read {
        return false;
      }
      deviceType := resp.rawValue;
      if deviceType % 0x100 != TOF_BOARD_TYPE {
        return false;
      }
      read, resp := ReadConstObject(TOF_FW_VER as nat);
      assert server.trace == old(server.trace) + infoReads[..2];
      if !read {
        return false;
      }
      fwVersion := resp.floatValue;
      read, resp := ReadConstObject(TOF_FW_COM_VER as nat);
      assert server.trace == old(server.trace) + infoReads[..3];
      if !read {
        return false;
      }
      comVersion := resp.floatValue;
      if comVersion != TOF_COM_VER {
        return false;
      }
      read, resp := ReadConstObject(TOF_FW_BUILD_DATE as nat);
      assert server.trace == old(server.trace) + infoReads[..4];
      if !read {
        return false;
      }
      fwBuildDate := resp.floatValue;
      return true;
    }

    /** Fills the sensor list with fresh, initialised sensors for slots 0 and 1, in order. */
    method CreateSensors()
      requires Valid()
      modifies this`Repr, sensors
      ensures Valid() && fresh(Repr - old(Repr))
      ensures forall i | 0 <= i < sensors.Length ::
                sensors[i] != null && fresh(sensors[i]) && sensors[i].initialized
    {
      var id := 0;
      while id < sensors.Length
        invariant id <= sensors.Length
        invariant this in Repr && sensors in Repr && old(Repr) <= Repr && fresh(Repr - old(Repr))
        invariant forall j | 0 <= j < id ::
                    sensors[j] != null && fresh(sensors[j]) && sensors[j].initialized
                    && sensors[j] in Repr && InSlot(sensors[j], j)
        invariant forall j | id <= j < sensors.Length :: sensors[j] == old(sensors[j])
      {
        var sensor := new Sensors.Sensor(id, logging);
        sensors[id] := sensor;
        Repr := Repr + {sensor};
        var _ := sensor.Init();
        id := id + 1;
      }
    }

    /** Stops polling and releases every sensor; does nothing on a board that is not initialised. */
    method Release()
      requires Valid()
      modifies this`initialized, sensors[0], sensors[1]
      ensures Valid()
      ensures !initialized
      ensures old(initialized) ==> forall i | 0 <= i < sensors.Length :: !sensors[i].initialized
      ensures !old(initialized) ==> forall i | 0 <= i < sensors.Length ::
                sensors[i] != null ==> sensors[i].initialized == old(sensors[i].initialized)
      ensures forall i | 0 <= i < sensors.Length ::
                sensors[i] != null ==> sensors[i].Snapshot() == old(sensors[i].Snapshot())
      ensures forall i | 0 <= i < sensors.Length ::
                sensors[i] != null ==> sensors[i].sigmaMm == old(sensors[i].sigmaMm)
    {
      if !initialized {
        return;
      }
      // stopping and joining the worker thread is not modelled
      for i := 0 to sensors.Length
        invariant initialized
        invariant forall j | 0 <= j < i :: !sensors[j].initialized
        invariant forall j | 0 <= j < sensors.Length :: sensors[j].Snapshot() == old(sensors[j].Snapshot())
        invariant forall j | 0 <= j < sensors.Length :: sensors[j].sigmaMm == old(sensors[j].sigmaMm)
      {
        if sensors[i] != null {
          sensors[i].Release();
        }
      }
      initialized := false;
    }

    method ResetDevice(toBootloader: bool := false) returns (ok: bool)
      requires Valid()
      modifies this`resetValue, server
      ensures initialized == old(initialized)
      ensures !initialized ==> !ok && resetValue == old(resetValue) && BusCalls() == old(BusCalls())
      ensures initialized ==>
                && resetValue == (if toBootloader then RESET_TO_BOOTLOADER else RESET_NORMAL)
                && ok == Completed(server.answers(old(|server.trace|)))
                && server.trace == old(server.trace) +
                     WriteRequests(nodeId, TOF_COM_RESET as nat, resetValue, server.answers(old(|server.trace|)))
    {
      if !initialized {
        return false;
      }
      if !toBootloader {
        resetValue := RESET_NORMAL;
      } else {
        resetValue := RESET_TO_BOOTLOADER;
      }
      // a refused write is read back into the same object; that read is taken to store nothing
      ok := WriteDataObject(TOF_COM_RESET as nat, resetValue);
    }

    method GetSensor(id: nat) returns (s: Sensors.Sensor?)
      requires Valid()
      ensures s != null <==> initialized && id < TOF_BOARD_SENSORS
      ensures s != null ==> s == sensors[id] && s.id == id
    {
      if !initialized {
        return null;
      }
      if id >= TOF_BOARD_SENSORS {
        return null;
      }
      return sensors[id];
    }

    method IsInitialized() returns (b: bool)
      ensures b == initialized
    {
      b := initialized;
    }

    /** One iteration of the polling loop: every sensor in list order, 0 then 1. */
    method UpdateAll()
      requires Valid() && initialized
      modifies sensors[0], sensors[1], server
      ensures server.trace == old(server.trace) + PollRequests(nodeId, TOF_BOARD_SENSORS)
      ensures sensors[0].Snapshot() ==
                Sensors.AfterDistanceRead(old(sensors[0].Snapshot()), server.answers(old(|server.trace|)))
      ensures sensors[1].Snapshot() ==
                Sensors.AfterDistanceRead(old(sensors[1].Snapshot()), server.answers(old(|server.trace|) + 2))
      ensures sensors[0].initialized == old(sensors[0].initialized)
      ensures sensors[1].initialized == old(sensors[1].initialized)
      ensures sensors[0].sigmaMm == old(sensors[0].sigmaMm) && sensors[1].sigmaMm == old(sensors[1].sigmaMm)
    {
      for i := 0 to sensors.Length
        invariant server.trace == old(server.trace) + PollRequests(nodeId, i)
        invariant forall j | 0 <= j < i ::
                    sensors[j].Snapshot() ==
                      Sensors.AfterDistanceRead(old(sensors[j].Snapshot()), server.answers(old(|server.trace|) + 2 * j))
        invariant forall j | i <= j < sensors.Length :: sensors[j].Snapshot() == old(sensors[j].Snapshot())
        invariant forall j | 0 <= j < sensors.Length :: sensors[j].initialized == old(sensors[j].initialized)
        invariant forall j | 0 <= j < sensors.Length :: sensors[j].sigmaMm == old(sensors[j].sigmaMm)
      {
        var _ := sensors[i].Update(server, nodeId);
      }
    }

    /** The polling loop, run until the stop flag is seen after `ticks` iterations. */
    method UpdateHandler(ticks: nat)
      requires Valid() && initialized
      modifies sensors[0], sensors[1], server
      ensures server.trace == old(server.trace) + PollTrace(nodeId, ticks)
      ensures sensors[0].Snapshot() == Polled(old(sensors[0].Snapshot()), server.answers, old(|server.trace|), ticks, 0)
      ensures sensors[1].Snapshot() == Polled(old(sensors[1].Snapshot()), server.answers, old(|server.trace|), ticks, 1)
      ensures sensors[0].initialized == old(sensors[0].initialized) && sensors[1].initialized == old(sensors[1].initialized)
      ensures sensors[0].sigmaMm == old(sensors[0].sigmaMm) && sensors[1].sigmaMm == old(sensors[1].sigmaMm)
    {
      ghost var start := |server.trace|;
      ghost var first0, first1 := sensors[0].Snapshot(), sensors[1].Snapshot();
      var n := 0;
      while n < ticks
        invariant n <= ticks
        invariant server.trace == old(server.trace) + PollTrace(nodeId, n)
        invariant sensors[0].Snapshot() == Polled(first0, server.answers, start, n, 0)
        invariant sensors[1].Snapshot() == Polled(first1, server.answers, start, n, 1)
        invariant sensors[0].initialized == old(sensors[0].initialized) && sensors[1].initialized == old(sensors[1].initialized)
        invariant sensors[0].sigmaMm == old(sensors[0].sigmaMm) && sensors[1].sigmaMm == old(sensors[1].sigmaMm)
      {
        UpdateAll();
        n := n + 1;
      }
    }

    /** A read of a constant object succeeds when the transport and the node both accept it. */
    method ReadConstObject(objectId: nat) returns (ok: bool, resp: Response)
      requires server != null
      modifies server
      ensures resp == old(server.NextAnswer())
      ensures ok == Completed(resp)
      ensures server.trace == old(server.trace) + [Read(nodeId, objectId, CONST_READ_TIMEOUT_MS, CONST_READ_RETRIES)]
    {
      resp := server.ReadDataObject(nodeId, objectId, CONST_READ_TIMEOUT_MS, CONST_READ_RETRIES);
      if resp.result != ResOk {
        return false, resp;
      }
      if resp.error != ErrNone {
        return false, resp;
      }
      return true, resp;
    }

    /**
     * A write succeeds when the transport and the node both accept it; when the node
     * refuses it, the object is read back once for diagnostics and that result is ignored.
     */
    method WriteDataObject(objectId: nat, value: uint32) returns (ok: bool)
      requires server != null
      modifies server
      ensures ok == Completed(old(server.NextAnswer()))
      ensures server.trace == old(server.trace) + WriteRequests(nodeId, objectId, value, old(server.NextAnswer()))
    {
      var resp := server.WriteDataObject(nodeId, objectId, value, WRITE_TIMEOUT_MS, WRITE_RETRIES);
      match resp.result
      case ResOk =>
        if resp.error == ErrNone {
          return true;
        }
        // the diagnostic read; its outcome is only logged
        var _ := server.ReadDataObject(nodeId, objectId, WRITE_TIMEOUT_MS, WRITE_RETRIES);
        return false;
      case ResTimeout =>
        return false;
      case ResError =>
        return false;
    }
  }
}
