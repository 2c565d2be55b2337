/// The Arduino millisecond clock. `millis()` returns an `unsigned long`, which on
/// the board this sketch targets is 32 bits wide. The timestamps the sketch
/// stores are such values, except `lastUpdateTime`, a signed `long`: it holds
/// a `millis()` value and takes part only in a subtraction from `millis()`,
/// which converts it to `unsigned long`, so it is kept here as its 32-bit
/// pattern. Every "time since" the sketch computes is an unsigned subtraction
/// that wraps around modulo 2^32.
module Clock {

  const WRAP: int := 0x1_0000_0000

  /** A value of `millis()`: a 32-bit unsigned count of milliseconds. */
  type Millis = x: int | 0 <= x < WRAP

  /** `now - since` computed on `unsigned long`: the milliseconds that passed
      from `since` to `now`, counting one wrap-around of the clock if `now`
      is numerically smaller than `since`. */
  function Elapsed(now: Millis, since: Millis): (d: Millis)
    ensures since <= now ==> d == now - since
    ensures now < since ==> d == WRAP - since + now
    ensures d == 0 <==> now == since
  {
    (now - since) % WRAP
  }
}
