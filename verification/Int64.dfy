/** 64-bit arithmetic as in Go. */
module Int64 {
  predicate Fits(x: int) {
    -0x8000_0000_0000_0000 <= x < 0x8000_0000_0000_0000
  }

  /** The value modulo 2^64 that an int64 holds. */
  function Wrap(x: int): (r: int)
    ensures Fits(r)
  {
    (x + 0x8000_0000_0000_0000) % 0x1_0000_0000_0000_0000 - 0x8000_0000_0000_0000
  }

  lemma WrapFits(x: int)
    ensures Wrap(x) == x <==> Fits(x)
  {
  }

  lemma WrapMultiple(x: int, k: int)
    ensures Wrap(x + 0x1_0000_0000_0000_0000 * k) == Wrap(x)
  {
  }

  function Wraps(x: int): (k: int)
    ensures Wrap(x) == x - 0x1_0000_0000_0000_0000 * k
  {
    (x + 0x8000_0000_0000_0000) / 0x1_0000_0000_0000_0000
  }

  lemma WrapSum(a: int, b: int)
    ensures Wrap(Wrap(a) + Wrap(b)) == Wrap(a + b)
  {
    WrapMultiple(a + b, -Wraps(a) - Wraps(b));
  }

  /** Division towards zero. */
  function Quotient(a: int, b: int): int
    requires b > 0
  {
    if a >= 0 then a / b else -((-a) / b)
  }

  /** The remainder with the sign of the dividend. */
  function Remainder(a: int, b: int): int
    requires b > 0
  {
    a - b * Quotient(a, b)
  }
}
