/** Fixed-width unsigned integers of the view model, and the truncating
    conversion C performs when a wider value is stored in a `uint8_t`. */
module Ints {

  /** `uint8_t` */
  type u8 = x: int | 0 <= x < 0x100

  /** `uint16_t` */
  type u16 = x: int | 0 <= x < 0x1_0000

  /** `size_t` on the 32-bit target */
  type usize = x: int | 0 <= x < 0x1_0000_0000

  /** Storing a non-negative value in a `uint8_t` keeps its low eight bits. */
  function ToU8(x: nat): (r: u8)
    ensures x < 0x100 ==> r == x
    ensures (x - r) % 0x100 == 0
  {
    x % 0x100
  }
}
