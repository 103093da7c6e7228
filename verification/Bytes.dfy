// Octets and the C-string conventions shared by every component.
module Bytes {
  /** uint8_t */
  type byte = b: int | 0 <= b < 256

  /** uint16_t */
  type uint16 = p: int | 0 <= p < 0x1_0000

  datatype Option<+T> = None | Some(value: T)

  /** `x + 1` on a uint8_t. */
  function Inc8(x: byte): byte { (x + 1) % 256 }

  /** What a C string function sees of a NUL-terminated byte array. */
  function CStr(s: seq<byte>): (r: seq<byte>)
    ensures |r| <= |s| && r == s[..|r|] && 0 !in r
    ensures |r| < |s| ==> s[|r|] == 0
  {
    if s == [] || s[0] == 0 then [] else [s[0]] + CStr(s[1..])
  }
}
