/** Fixed-width integer types of the C++ trace hooks, and the two conversions
    between them that the hooks perform. */
module Ints {

  /** `uint8_t`, the transmit power handed to the PHY trace. */
  type Uint8 = x: int | 0 <= x < 0x100

  /** `uint32_t`, what `Packet::GetSize()` returns. */
  type Uint32 = x: int | 0 <= x < 0x1_0000_0000

  /** `int` on the simulator's platform (32-bit two's complement). */
  type Int32 = x: int | -0x8000_0000 <= x < 0x8000_0000

  /** `int size = packet->GetSize();` -- the unsigned size reinterpreted as a
      signed 32-bit value (the modular conversion). */
  function ToInt32(u: Uint32): (r: Int32)
    ensures (u - r) % 0x1_0000_0000 == 0
    ensures u < 0x8000_0000 ==> r == u
    ensures u >= 0x8000_0000 ==> r < 0
  {
    if u < 0x8000_0000 then u else u - 0x1_0000_0000
  }

  /** `static_cast<uint8_t>(txPowerInt)` -- keeps the low eight bits. */
  function ToUint8(x: Int32): (r: Uint8)
    ensures (x - r) % 0x100 == 0
    ensures 0 <= x < 0x100 ==> r == x
  {
    x % 0x100
  }
}
