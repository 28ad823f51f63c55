/** Numeric conversions of the game, as Rust performs them. */
module Conversions {

  /** Rust's `f as i32` on a float: the fractional part is dropped, rounding toward zero.
      (Rust also saturates at the bounds of i32; that is not modelled.) */
  function AsI32(r: real): (n: int)
    ensures 0.0 <= r ==> n as real <= r < n as real + 1.0
    ensures r < 0.0 ==> n as real - 1.0 < r <= n as real
  {
    if r >= 0.0 then r.Floor else -((-r).Floor)
  }

  /** On non-negative values the cast is the floor, so one more unit moves it by exactly one. */
  lemma AsI32Advance(r: real)
    requires 0.0 <= r
    ensures AsI32(r + 1.0) == AsI32(r) + 1
  {
  }
}
