/**
 * The 32-bit word of a sensor's distance+status object: bits 0-15 carry the distance
 * in millimetres, bits 16-23 the range-status byte, and bits 24-31 are not used.
 * Masking and shifting an unsigned word are written as remainder and quotient.
 */
module StatusWord {
  import opened Basics

  /** `raw & 0xFFFF`: the low 16 bits. */
  function DecodeDistance(raw: uint32): (d: uint16)
    ensures (raw - d) % 0x1_0000 == 0
  {
    raw % 0x1_0000
  }

  /** `(uint8)(raw >> 16)`: bits 16 to 23. */
  function DecodeStatus(raw: uint32): (s: uint8)
    ensures raw % 0x100_0000 == s * 0x1_0000 + DecodeDistance(raw)
  {
    (raw / 0x1_0000) % 0x100
  }

  /** The word a device sends for a distance and status, with any top byte. */
  function Encode(top: uint8, status: uint8, distance: uint16): uint32 {
    top * 0x100_0000 + status * 0x1_0000 + distance
  }

  /** Decoding recovers the distance and status whatever the top byte holds. */
  lemma {:induction false} DecodeEncode(top: uint8, status: uint8, distance: uint16)
    ensures DecodeDistance(Encode(top, status, distance)) == distance
    ensures DecodeStatus(Encode(top, status, distance)) == status
  {
    var raw := Encode(top, status, distance);
    assert raw == (top * 0x100 + status) * 0x1_0000 + distance;
    assert raw / 0x1_0000 == top * 0x100 + status;
  }

  /** Every word is the encoding of its top byte, its status and its distance. */
  lemma {:induction false} EncodeDecode(raw: uint32)
    ensures Encode(raw / 0x100_0000, DecodeStatus(raw), DecodeDistance(raw)) == raw
  {
    var hi := raw / 0x1_0000;
    assert raw == hi * 0x1_0000 + raw % 0x1_0000;
    assert hi == (hi / 0x100) * 0x100 + hi % 0x100;
    assert raw / 0x100_0000 == hi / 0x100;
  }
}
