/** Fixed-width unsigned integers and an optional value, shared by every module. */
module Basics {

  type uint8 = x: int | 0 <= x < 0x100
  type uint16 = x: int | 0 <= x < 0x1_0000
  type uint32 = x: int | 0 <= x < 0x1_0000_0000

  /** A value that may be absent: an empty shared pointer, an object ID that names no sensor. */
  datatype Option<+T> = None | Some(value: T)
}
