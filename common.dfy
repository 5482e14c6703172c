/** Machine-width integers and the small wrapper types shared by every module. */
module Common {

  /** An optional value: a FreeRTOS queue slot, a bus read that may fail. */
  datatype Option<T> = None | Some(value: T)

  const TWO32: int := 0x1_0000_0000
  const TWO16: int := 0x1_0000

  /** C `uint32_t`, `uint16_t` and `uint8_t` values. */
  type U32 = x: int | 0 <= x < 0x1_0000_0000
  type U16 = x: int | 0 <= x < 0x1_0000
  type U8 = x: int | 0 <= x < 0x100

  /** Unsigned 32-bit subtraction `a - b`, which wraps modulo 2^32 as C does. */
  function Sub32(a: U32, b: U32): (r: U32)
    ensures a >= b ==> r == a - b
    ensures a < b ==> r == a - b + TWO32
  {
    (a - b) % TWO32
  }

  /** Unsigned 32-bit addition, wrapping modulo 2^32. */
  function Add32(a: U32, b: U32): (r: U32)
    ensures a + b < TWO32 ==> r == a + b
    ensures a + b >= TWO32 ==> r == a + b - TWO32
  {
    (a + b) % TWO32
  }

  /** `x++` on a `uint16_t`: wraps from 65535 to 0. */
  function Inc16(x: U16): (r: U16)
    ensures x < TWO16 - 1 ==> r == x + 1
    ensures x == TWO16 - 1 ==> r == 0
  {
    (x + 1) % TWO16
  }

  function Min(a: int, b: int): (r: int)
    ensures r <= a && r <= b && (r == a || r == b)
  {
    if a <= b then a else b
  }

  /** Subtracting after adding gives back the added distance, wrap-around included. */
  lemma SubAfterAdd(t: U32, d: U32)
    ensures Sub32(Add32(t, d), t) == d
  {
    if t + d >= TWO32 {
      assert Add32(t, d) == t + d - TWO32;
    }
  }
}
