/**
 * Constants of the ToF board and the addressing of its object dictionary: the
 * board-level objects, the reset command values and the per-sensor objects.
 */
module Objects {
  import opened Basics

  /** Communication-stack version the driver supports. */
  const TOF_COM_VER: real := 1.0
  /** Number of sensors mounted on one board. */
  const TOF_BOARD_SENSORS: nat := 2

  // Board-level objects
  const TOF_DEV_TYPE: uint16 := 10001
  const TOF_FW_VER: uint16 := 10002
  const TOF_FW_COM_VER: uint16 := 10003
  const TOF_FW_BUILD_DATE: uint16 := 10004
  const TOF_COM_RESET: uint16 := 10101
  const TOF_SENS_PARAM_BASE_IDX: uint16 := 11000
  const MCO_OBJ_SIZE: uint16 := 9

  // Sensor-local offsets; the sigma offset is the enum successor of the distance one
  const TOF_STS_DISTANCE_MM: uint16 := 101
  const TOF_SIGMA_FXP_MM: uint16 := TOF_STS_DISTANCE_MM + 1

  /** Device type a ToF board reports in its low byte. */
  const TOF_BOARD_TYPE: uint8 := 3
  /** Values written to the reset object: a plain reset, and "EVOB" for the bootloader. */
  const RESET_NORMAL: uint32 := 1
  const RESET_TO_BOOTLOADER: uint32 := 0x45564F42

  // Defaults of the board constructor
  const DEFAULT_UPDATE_RATE_HZ: real := 10.0
  const DEFAULT_LOGGING: bool := false

  /** The two registers every sensor exposes. */
  datatype SensorRegister = DistanceAndStatus | Sigma

  function Offset(reg: SensorRegister): uint16 {
    match reg
    case DistanceAndStatus => TOF_STS_DISTANCE_MM
    case Sigma => TOF_SIGMA_FXP_MM
  }

  /** Object ID of register `reg` of the sensor in slot `id`. */
  function SensorObjectId(id: nat, reg: SensorRegister): nat {
    TOF_SENS_PARAM_BASE_IDX as nat + id * 1000 + Offset(reg) as nat
  }

  /** Inverse addressing: which sensor slot and register an object ID designates, if any. */
  function SensorObjectOf(objectId: nat): Option<(nat, SensorRegister)> {
    if objectId < TOF_SENS_PARAM_BASE_IDX as nat then None
    else
      var rel := objectId - TOF_SENS_PARAM_BASE_IDX as nat;
      if rel % 1000 == TOF_STS_DISTANCE_MM as nat then Some((rel / 1000, DistanceAndStatus))
      else if rel % 1000 == TOF_SIGMA_FXP_MM as nat then Some((rel / 1000, Sigma))
      else None
  }

  /** Slot-major position of a register: the dividend of `1000 * id + offset`. */
  lemma {:induction false} SlotOffsetDivMod(id: nat, off: nat)
    requires off < 1000
    ensures (id * 1000 + off) / 1000 == id && (id * 1000 + off) % 1000 == off
  {
    var k := id * 1000 + off;
    assert k == 1000 * id + off;
  }

  /** Every sensor object ID is decoded back to its slot and register. */
  lemma SensorObjectIdRoundTrip(id: nat, reg: SensorRegister)
    ensures SensorObjectOf(SensorObjectId(id, reg)) == Some((id, reg))
  {
    SlotOffsetDivMod(id, Offset(reg) as nat);
  }

  /** An object ID that decodes to a slot and register is that register's ID. */
  lemma SensorObjectOfSound(objectId: nat)
    ensures SensorObjectOf(objectId).Some? ==>
              SensorObjectId(SensorObjectOf(objectId).value.0, SensorObjectOf(objectId).value.1) == objectId
  {
  }

  /** Distinct (slot, register) pairs never share an object ID. */
  lemma SensorObjectIdInjective(id1: nat, reg1: SensorRegister, id2: nat, reg2: SensorRegister)
    ensures SensorObjectId(id1, reg1) == SensorObjectId(id2, reg2) ==> id1 == id2 && reg1 == reg2
  {
    SensorObjectIdRoundTrip(id1, reg1);
    SensorObjectIdRoundTrip(id2, reg2);
  }

  /**
   * The object IDs of both sensors of a board fit in 16 bits, are 11101, 11102, 12101 and 12102,
   * and differ from every board-level object.
   */
  lemma SensorObjectsOfBoard(id: nat, reg: SensorRegister)
    requires id < TOF_BOARD_SENSORS
    ensures SensorObjectId(id, reg) < 0x1_0000
    ensures SensorObjectId(id, reg) in {11101, 11102, 12101, 12102}
    ensures SensorObjectId(id, reg) !in {TOF_DEV_TYPE as nat, TOF_FW_VER as nat, TOF_FW_COM_VER as nat,
                                         TOF_FW_BUILD_DATE as nat, TOF_COM_RESET as nat}
  {
  }
}
