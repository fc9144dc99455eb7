/** Narrowing a Postgres numeric to int64 (ledger/post.go, numericToInt64). */
module Numeric {
  import opened Wrappers
  import opened Tables
  import opened Arithmetic

  type int32 = x: int | -0x8000_0000 <= x <= 0x7FFF_FFFF

  const MIN32 := -0x8000_0000

  /** A scanned numeric: `unscaled` times ten to the `exp`. */
  datatype Decimal = Decimal(valid: bool, nan: bool, unscaled: int, exp: int32)

  datatype NarrowError = QueryFailed | NotANumber | Overflow

  function Pow10(n: nat): (r: int)
    ensures r >= 1 && (n > 0 ==> r >= 10)
  {
    if n == 0 then 1 else 10 * Pow10(n - 1)
  }

  /** big.Int's Exp with no modulus answers 1 for every exponent that is not positive. */
  function BigExp(y: int): int {
    if y <= 0 then 1 else Pow10(y)
  }

  /** Go negates an int32 in two's complement: the smallest one is its own negation. */
  function Negated(x: int32): int32 {
    if x == MIN32 then MIN32 else -x
  }

  /** big.Int's Quo truncates toward zero. */
  function Quo(a: int, b: int): int
    requires b > 0
  {
    if a >= 0 then a / b else -(-a / b)
  }

  /** The integer the code arrives at before it checks the range. */
  function Arrived(d: Decimal): int {
    if d.exp > 0 then d.unscaled * Pow10(d.exp)
    else if d.exp < 0 then Quo(d.unscaled, BigExp(Negated(d.exp)))
    else d.unscaled
  }

  /** What is answered for a numeric that was scanned; a missing one is no sum at all. */
  function Narrowed(d: Decimal): Result<int64, NarrowError> {
    if !d.valid then Success(0)
    else if d.nan then Failure(NotANumber)
    else Fitted(Arrived(d))
  }

  /** An integer as an int64, if it is one. */
  function Fitted(v: int): Result<int64, NarrowError> {
    if MIN64 <= v <= MAX64 then Success(v) else Failure(Overflow)
  }

  /** `d` is exactly the integer `v`. */
  ghost predicate Denotes(d: Decimal, v: int) {
    d.valid && !d.nan && if d.exp >= 0 then v == d.unscaled * Pow10(d.exp) else d.unscaled == v * Pow10(-(d.exp as int))
  }

  /** The integer that is left of `d` when its fraction is cut off. */
  function Cut(d: Decimal): int {
    if d.exp >= 0 then d.unscaled * Pow10(d.exp) else Quo(d.unscaled, Pow10(-(d.exp as int)))
  }

  // ---------------------------------------------------------------- before the range check

  lemma QuoUndoesProduct(v: int, b: int)
    requires b > 0
    ensures Quo(v * b, b) == v
  {
    DivisionIsExact(v, b);
    DivisionIsExact(-v, b);
    assert -v * b == -(v * b);
    assert v >= 0 ==> v * b >= 0;
    assert v < 0 ==> v * b < 0;
  }

  lemma QuotientIsSmaller(a: int, b: int)
    requires a > 0 && b >= 2
    ensures 0 <= a / b < a
  {
    var q := a / b;
    assert a == q * b + a % b;
    if q < 0 {
      MultiplesAreApart(q, b);
    } else {
      assert q * (b - 2) >= 0;
      assert q * b == q * (b - 2) + 2 * q;
    }
  }

  lemma QuoShrinks(a: int, b: int)
    requires b >= 2
    ensures Quo(a, b) == a <==> a == 0
    ensures a >= 0 ==> 0 <= Quo(a, b) <= a
    ensures a <= 0 ==> a <= Quo(a, b) <= 0
  {
    if a > 0 {
      QuotientIsSmaller(a, b);
    } else if a < 0 {
      QuotientIsSmaller(-a, b);
    }
  }

  /** At the exponent -2^31, and only there, the fraction is not cut off but taken for part of the number. */
  lemma ArrivesAtCutIff(d: Decimal)
    ensures Arrived(d) == Cut(d) <==> d.exp != MIN32 || d.unscaled == 0
    ensures d.exp == MIN32 ==> Arrived(d) == d.unscaled
    ensures d.exp == MIN32 && d.unscaled >= 0 ==> 0 <= Cut(d) <= d.unscaled
    ensures d.exp == MIN32 && d.unscaled <= 0 ==> d.unscaled <= Cut(d) <= 0
  {
    if d.exp == MIN32 {
      QuoShrinks(d.unscaled, Pow10(-(d.exp as int)));
    } else if d.exp == 0 {
      assert d.unscaled * Pow10(0) == d.unscaled;
    }
  }

  lemma DenotesCut(d: Decimal, v: int)
    requires Denotes(d, v)
    ensures Cut(d) == v
    ensures d.exp < 0 ==> (d.unscaled == 0 <==> v == 0)
  {
    if d.exp < 0 {
      var b := Pow10(-(d.exp as int));
      QuoUndoesProduct(v, b);
      MultiplesAreApart(v, b);
    }
  }

  /** Before the range check the arithmetic is right for every spelling of an integer, except that the
      exponent -2^31 cannot be negated: there only zero survives. */
  lemma ArrivesIff(d: Decimal, v: int)
    requires Denotes(d, v)
    ensures Arrived(d) == v <==> (d.exp != MIN32 || v == 0)
  {
    ArrivesAtCutIff(d);
    DenotesCut(d, v);
  }

  // ---------------------------------------------------------------- what is answered

  lemma {:induction false} Pow10Grows(m: nat, n: nat)
    requires m <= n
    ensures Pow10(m) <= Pow10(n)
  {
    if m < n {
      Pow10Grows(m, n - 1);
    }
  }

  lemma TenTimes(a: int, b: int)
    ensures a * (10 * b) == 10 * (a * b)
  {
  }

  lemma {:induction false} Pow10Adds(m: nat, n: nat)
    ensures Pow10(m + n) == Pow10(m) * Pow10(n)
  {
    if n > 0 {
      Pow10Adds(m, n - 1);
      TenTimes(Pow10(m), Pow10(n - 1));
    }
  }

  lemma Pow10Exceeds(n: nat)
    requires n >= 20
    ensures Pow10(n) > TWO63
  {
    assert Pow10(2) == 100 && Pow10(3) == 1000;
    Pow10Adds(2, 3);
    Pow10Adds(5, 5);
    Pow10Adds(10, 10);
    Pow10Grows(20, n);
  }

  /** No int64 is a multiple of so high a power of ten but zero. */
  lemma MultiplesOverflow(v: int, b: int)
    requires v != 0 && b > TWO63
    ensures Fitted(v * b) == Failure(Overflow)
  {
    MultiplesAreApart(v, b);
  }

  /** Whatever numeric denotes an integer, the answer is never a wrong number: it is that integer, or an
      error. The error is the right answer too, unless the integer is an int64 other than zero spelled with
      the exponent -2^31. */
  lemma NarrowedIff(d: Decimal, v: int)
    requires Denotes(d, v)
    ensures Narrowed(d) == Success(v) || Narrowed(d) == Failure(Overflow)
    ensures Narrowed(d) == Fitted(v) <==> d.exp != MIN32 || v == 0 || Fitted(v).Failure?
  {
    ArrivesIff(d, v);
    ArrivesAtCutIff(d);
    if d.exp == MIN32 && v != 0 {
      var n: nat := -(d.exp as int);
      Pow10Exceeds(n);
      MultiplesOverflow(v, Pow10(n));
    }
  }

  /** A fraction is cut off toward zero, or refused if what is left is no int64; again but for the exponent
      -2^31, where a number may come out that is not what is left. */
  lemma FractionsAreCutIff(d: Decimal)
    requires d.valid && !d.nan
    ensures Narrowed(d) == Fitted(Cut(d)) <==> d.exp != MIN32 || d.unscaled == 0 || Fitted(Cut(d)).Failure?
    ensures Narrowed(d).Success? ==> (Narrowed(d).value == Cut(d) <==> d.exp != MIN32 || d.unscaled == 0)
  {
    ArrivesAtCutIff(d);
  }

  method NumericToInt64(d: Decimal) returns (r: Result<int64, NarrowError>)
    ensures r == Narrowed(d)
    ensures !d.valid ==> r == Success(0)
    ensures d.valid && d.nan ==> r == Failure(NotANumber)
    ensures forall v :: Denotes(d, v) ==> r == Success(v) || r == Failure(Overflow)
    ensures forall v :: Denotes(d, v) ==> (r == Fitted(v) <==> d.exp != MIN32 || v == 0 || Fitted(v).Failure?)
    ensures d.valid && !d.nan && d.exp != MIN32 ==> r == Fitted(Cut(d))
  {
    if !d.valid {
      return Success(0);
    }
    if d.nan {
      return Failure(NotANumber);
    }
    var i := d.unscaled;
    if d.exp > 0 {
      i := i * BigExp(d.exp);
    } else if d.exp < 0 {
      i := Quo(i, BigExp(Negated(d.exp)));
    }
    forall v | Denotes(d, v)
      ensures Narrowed(d) == Success(v) || Narrowed(d) == Failure(Overflow)
      ensures Narrowed(d) == Fitted(v) <==> d.exp != MIN32 || v == 0 || Fitted(v).Failure?
    {
      NarrowedIff(d, v);
    }
    FractionsAreCutIff(d);
    if !(MIN64 <= i <= MAX64) {
      return Failure(Overflow);
    }
    return Success(i);
  }

  /** At the exponent -2^31: the integer one is refused, and a fraction next to zero comes out as five. */
  lemma SmallestExponentFails() returns (one: Decimal, fraction: Decimal)
    ensures Denotes(one, 1) && Arrived(one) != 1 && Narrowed(one) == Failure(Overflow)
    ensures fraction == Decimal(true, false, 5, MIN32) && Narrowed(fraction) == Success(5) && Cut(fraction) < 5
  {
    var e: int32 := MIN32;
    one := Decimal(true, false, 1 * Pow10(-(e as int)), e);
    ArrivesIff(one, 1);
    NarrowedIff(one, 1);
    fraction := Decimal(true, false, 5, MIN32);
    ArrivesAtCutIff(fraction);
  }

  /** Two spellings of one integer narrow alike, unless it is an int64 other than zero and just one of them
      has the exponent -2^31. They never narrow to two numbers. */
  lemma SpellingsAgree(d1: Decimal, d2: Decimal, v: int)
    requires Denotes(d1, v) && Denotes(d2, v)
    ensures Narrowed(d1) == Narrowed(d2) <==> v == 0 || Fitted(v).Failure? || (d1.exp == MIN32 <==> d2.exp == MIN32)
    ensures Narrowed(d1).Success? && Narrowed(d2).Success? ==> Narrowed(d1) == Narrowed(d2)
    ensures d1.exp != MIN32 && d2.exp != MIN32 ==> Arrived(d1) == Arrived(d2) == v
  {
    ArrivesIff(d1, v);
    ArrivesIff(d2, v);
    NarrowedIff(d1, v);
    NarrowedIff(d2, v);
  }
}
