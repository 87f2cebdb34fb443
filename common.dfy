/** Small shared vocabulary: an optional value, the microcontroller's byte and
    the 32-bit `unsigned long` arithmetic of the Arduino clock. */
module Common {

  datatype Option<T> = None | Some(value: T)

  /** An 8-bit unsigned value (`byte` / `unsigned char` on the microcontroller). */
  newtype byte = x: int | 0 <= x < 256

  /** One more than the largest `unsigned long` on the AVR target. */
  const U32: int := 0x1_0000_0000

  /** A reading of `millis()` or `micros()`: an `unsigned long`. */
  type Clock32 = x: int | 0 <= x < U32

  /** `now - since` computed on `unsigned long`: wraps around modulo 2^32. */
  function Elapsed32(now: Clock32, since: Clock32): (d: Clock32)
    ensures since <= now ==> d == now - since
    ensures now < since ==> d == now - since + U32
  {
    (now - since) % U32
  }

  /** C's `abs` / Python's `abs` on a real. */
  function Abs(x: real): (r: real)
    ensures r >= 0.0
    ensures r == x || r == -x
  {
    if x < 0.0 then -x else x
  }

  /** C's `min` on two reals. */
  function Min(a: real, b: real): (r: real)
    ensures r <= a && r <= b
    ensures r == a || r == b
  {
    if a < b then a else b
  }

  /** Arduino's `constrain(x, lo, hi)`. */
  function Constrain(x: real, lo: real, hi: real): (r: real)
    requires lo <= hi
    ensures lo <= r <= hi
    ensures lo <= x <= hi ==> r == x
  {
    if x < lo then lo else if x > hi then hi else x
  }
}
