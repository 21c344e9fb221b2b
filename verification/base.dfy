/** Machine types of the driver: bytes on the register bus, the 16-bit engineering
    quantities of the configuration, the `unsigned long` millisecond clock, and an
    Option for values a failed bus transaction does not produce. */
module Base {

  /** A register address or register value (`uint8_t`). */
  type Byte = x: int | 0 <= x < 0x100

  /** A millivolt or milliamp quantity as the driver stores it (`uint16_t`). */
  type U16 = x: int | 0 <= x < 0x1_0000

  /** A signed 16-bit quantity (`int16_t`), used for the measured charge current. */
  type I16 = x: int | -0x8000 <= x < 0x8000

  /** The `unsigned long` returned by the millisecond clock; 32 bits on the Arduino targets. */
  const ULONG_MODULUS: int := 0x1_0000_0000
  type ULong = x: int | 0 <= x < 0x1_0000_0000

  datatype Option<T> = None | Some(value: T)

  /** `now - since` evaluated in `unsigned long` arithmetic, so that a clock that wrapped
      around between the two readings still yields the elapsed time. */
  function Elapsed(now: ULong, since: ULong): (e: ULong)
    ensures since <= now ==> e == now - since
    ensures now < since ==> e == now - since + ULONG_MODULUS
  {
    (now - since) % ULONG_MODULUS
  }

  /** C's `/` on `int` operands: the quotient truncated toward zero (Dafny's `/` is Euclidean). */
  function TruncDiv(a: int, b: int): (q: int)
    requires b > 0
    ensures a >= 0 ==> q == a / b
    ensures a < 0 ==> q <= 0 && b * q >= a && b * q - b < a
  {
    if a >= 0 then a / b else -((-a) / b)
  }
}
