/** Quotients and remainders by an arbitrary modulus, from multiplication alone. */
module Arithmetic {
  lemma MultiplesAreApart(d: int, b: int)
    requires b > 0
    ensures d >= 1 ==> d * b >= b
    ensures d <= -1 ==> d * b <= -b
  {
    if d >= 1 {
      assert (d - 1) * b >= 0;
    } else if d <= -1 {
      assert (-1 - d) * b >= 0;
    }
  }

  lemma QuotientIsUnique(q: int, k: int, b: int, r: int)
    requires 0 <= r < b && q * b == k * b + r
    ensures q == k && r == 0
  {
    assert (q - k) * b == q * b - k * b;
    MultiplesAreApart(q - k, b);
  }

  lemma DivisionIsExact(q: int, b: int)
    requires b > 0
    ensures q * b / b == q && q * b % b == 0
  {
    var a := q * b;
    QuotientIsUnique(q, a / b, b, a % b);
  }

  /** Adding a multiple of the modulus changes no remainder. */
  lemma RemainderStays(x: int, q: int, b: int)
    requires b > 0
    ensures (x + q * b) % b == x % b
  {
    var y, r, r' := x + q * b, x % b, (x + q * b) % b;
    assert y / b * b + r' == x / b * b + r + q * b;
    if r' >= r {
      assert (x / b + q) * b == y / b * b + (r' - r);
      QuotientIsUnique(x / b + q, y / b, b, r' - r);
    } else {
      assert y / b * b == (x / b + q) * b + (r - r');
      QuotientIsUnique(y / b, x / b + q, b, r - r');
    }
  }

  /** Remainders agree exactly when the modulus divides the difference. */
  lemma RemaindersAgree(x: int, y: int, b: int)
    requires b > 0
    ensures x % b == y % b <==> (x - y) % b == 0
  {
    var q, d := x / b - y / b, (x - y) / b;
    if x % b == y % b {
      assert x - y == q * b;
      DivisionIsExact(q, b);
    } else if (x - y) % b == 0 {
      assert x == y + d * b;
      RemainderStays(y, d, b);
    }
  }
}
