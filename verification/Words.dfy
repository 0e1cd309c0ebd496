/** Unsigned machine arithmetic. */
module Words {
  const U32: nat := 0x1_0000_0000
  const U64: nat := 0x1_0000_0000_0000_0000

  function Sub64(a: int, b: int): nat { (a - b) % U64 }
  function Add64(a: int, b: int): nat { (a + b) % U64 }

  /** Inside the range nothing wraps; outside, only the final result matters. */
  lemma Sub64Exact(a: int, b: int)
    requires 0 <= a - b < U64
    ensures Sub64(a, b) == a - b
  {
  }

  lemma Add64Exact(a: int, b: int)
    requires 0 <= a + b < U64
    ensures Add64(a, b) == a + b
  {
  }

  lemma Sub64Nested(a: int, b: int, c: int)
    ensures Sub64(a, Sub64(b, c)) == Sub64(a + c, b)
  {
    var q := (b - c) / U64;
    assert Sub64(b, c) == b - c - q * U64;
    Shifted(a - (b - c), q);
  }

  lemma Sub64Again(a: int, b: int, c: int)
    ensures Sub64(Sub64(a, b), c) == Sub64(a, b + c)
  {
    var q := (a - b) / U64;
    assert Sub64(a, b) == a - b - q * U64;
    Shifted(a - b - c, -q);
  }

  lemma Shifted(x: int, q: int)
    ensures (x + q * U64) % U64 == x % U64
  {
    var y := x / U64;
    assert x == y * U64 + x % U64;
    assert x + q * U64 == (y + q) * U64 + x % U64;
    Unique(x + q * U64, y + q, x % U64);
  }

  lemma Unique(x: int, q: int, r: int)
    requires x == q * U64 + r && 0 <= r < U64
    ensures x % U64 == r
  {
  }
}
