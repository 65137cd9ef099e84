/** Small shared vocabulary: optional values (for the source's null pointers), bytes and the
    fixed-width unsigned integers the engine uses. */
module Common {

  /** A value that may be absent; stands for a pointer that may be null. */
  datatype Option<+T> = None | Some(value: T)

  /** An 8-bit byte, as held in the engine's raw payload buffers. */
  type byte = x: int | 0 <= x < 0x100

  /** The engine's `ui32`. */
  type u32 = x: int | 0 <= x < 0x1_0000_0000

  /** The engine's `ui16`. */
  type u16 = x: int | 0 <= x < 0x1_0000

  /** Conversion of any integer to `ui32` (C++ modular conversion). */
  function ToU32(x: int): (r: u32)
    ensures 0 <= x < 0x1_0000_0000 ==> r == x
    ensures x < 0 && -0x1_0000_0000 <= x ==> r == x + 0x1_0000_0000
  {
    x % 0x1_0000_0000
  }

  /** Truncation of any integer to `ui16` (C++ modular conversion). */
  function ToU16(x: int): (r: u16)
    ensures 0 <= x < 0x1_0000 ==> r == x
    ensures 0x1_0000 <= x < 0x2_0000 ==> r == x - 0x1_0000
  {
    x % 0x1_0000
  }

  /** The bytes of a `std::string`: every element is a narrow `char`, so a character's code
      is reduced to its low eight bits. */
  function Bytes(s: string): (r: seq<byte>)
    ensures |r| == |s|
    ensures forall i :: 0 <= i < |s| && (s[i] as int) < 0x100 ==> r[i] == s[i] as int
  {
    seq(|s|, i requires 0 <= i < |s| => (s[i] as int) % 0x100)
  }
}
