/** JavaScript numeric helpers, on exact reals. */
module JsMath {

  /** `Math.round(x)`: the nearest integer, ties rounded towards +infinity. */
  function Round(x: real): (r: int)
    ensures x - 0.5 < (r as real) <= x + 0.5
  {
    (x + 0.5).Floor
  }
}
