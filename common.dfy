/** Small shared definitions: an optional value, and the target's 32-bit
    millisecond clock (`unsigned long` is 32 bits wide on the MicroBlaze). */
module Common {

  datatype Option<+T> = None | Some(value: T)

  /** Number of distinct values of an `unsigned long` on the target. */
  const ClockModulus: int := 0x1_0000_0000

  /** A millisecond timestamp as the source holds it: an unsigned 32-bit value. */
  type Millis = t: int | 0 <= t < ClockModulus

  /** Unsigned subtraction `now - since`: wraps around modulo 2^32. */
  function Since(now: Millis, since: Millis): (d: Millis)
    ensures now >= since ==> d == now - since
    ensures now < since ==> d == now - since + ClockModulus
  {
    (now - since) % ClockModulus
  }

  /** The timestamp `d` milliseconds after `t`, wrapping like the hardware counter. */
  function Later(t: Millis, d: nat): (r: Millis)
    ensures t + d < ClockModulus ==> r == t + d
  {
    (t + d) % ClockModulus
  }

  /** Conversion of a signed `int` to `unsigned long` (two's complement, 32 bits). */
  function AsUnsigned(x: int): (u: Millis)
    ensures 0 <= x < ClockModulus ==> u == x
    ensures -ClockModulus <= x < 0 ==> u == x + ClockModulus
  {
    x % ClockModulus
  }

  /** However far the clock has wrapped, the unsigned difference recovers a delay below 2^32. */
  lemma SinceLater(t: Millis, d: nat)
    requires d < ClockModulus
    ensures Since(Later(t, d), t) == d
  {
    if t + d >= ClockModulus {
      assert Later(t, d) == t + d - ClockModulus;
    }
  }

  function Abs(r: real): (a: real)
    ensures a >= 0.0 && (a == r || a == -r)
  {
    if r < 0.0 then -r else r
  }
}
