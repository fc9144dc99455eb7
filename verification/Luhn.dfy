/** The card-number checksum (httpapi/tokens.go): the mod-10 formula of Annex B of ISO/IEC 7812-1, on
    numbers of any length. */
module Luhn {
  type byte = x: int | 0 <= x < 256

  /** What subtracting '0' leaves of a byte. */
  function Value(b: byte): byte {
    (b - 48) % 256
  }

  predicate Digits(number: seq<byte>) {
    forall k :: 0 <= k < |number| ==> 48 <= number[k] <= 57
  }

  // ---------------------------------------------------------------- the formula

  function DigitSum(n: nat): nat {
    n / 10 + n % 10
  }

  /** Every second position, counted from the right and starting beside the check digit. */
  predicate Doubled(length: nat, k: nat) {
    (length - 1 - k) % 2 == 1
  }

  /** A doubled digit counts the digits of its double. */
  function Contribution(length: nat, k: nat, digit: nat): nat
    requires k < length
  {
    if Doubled(length, k) then DigitSum(2 * digit) else digit
  }

  /** The first n contributions. */
  function Total(number: seq<byte>, n: nat): nat
    requires n <= |number|
  {
    if n == 0 then 0 else Total(number, n - 1) + Contribution(|number|, n - 1, Value(number[n - 1]))
  }

  predicate Valid(number: seq<byte>) {
    Total(number, |number|) % 10 == 0
  }

  /** What the loop makes of one byte. */
  function Weighted(d: int, alt: bool): int {
    if !alt then d else if 2 * d > 9 then 2 * d - 9 else 2 * d
  }

  lemma Alternates(length: nat, k: int)
    ensures 0 <= k && k + 1 < length ==> Doubled(length, k) == !Doubled(length, k + 1)
  {
  }

  lemma WeightedIsContribution(length: nat, k: nat, d: nat)
    requires k < length && d <= 9
    ensures Weighted(d, Doubled(length, k)) == Contribution(length, k, d)
  {
  }

  /** The loop, from the right, accepts exactly the digit strings that satisfy the formula. */
  method LuhnValid(number: seq<byte>) returns (ok: bool)
    ensures Digits(number) ==> ok == Valid(number)
  {
    var sum, alt := 0, false;
    var i := |number| - 1;
    while i >= 0
      invariant -1 <= i < |number|
      invariant i >= 0 ==> alt == Doubled(|number|, i)
      invariant Digits(number) ==> sum + Total(number, i + 1) == Total(number, |number|)
    {
      var d: int := Value(number[i]);
      ghost var digit := d;
      if alt {
        d := d * 2;
        if d > 9 {
          d := d - 9;
        }
      }
      if Digits(number) {
        WeightedIsContribution(|number|, i, digit);
      }
      sum := sum + d;
      alt := !alt;
      Alternates(|number|, i - 1);
      i := i - 1;
    }
    ok := sum % 10 == 0;
  }

  /** Some byte is out of range, or there is none, exactly when the number is refused. */
  method DigitsOnly(s: seq<byte>) returns (ok: bool)
    ensures ok <==> s != [] && Digits(s)
  {
    if s == [] {
      return false;
    }
    for k := 0 to |s|
      invariant Digits(s[..k])
    {
      if s[k] < 48 || s[k] > 57 {
        return false;
      }
      assert s[..k + 1] == s[..k] + [s[k]];
    }
    assert s[..|s|] == s;
    ok := true;
  }

  // ---------------------------------------------------------------- what the checksum catches

  lemma {:induction false} TotalChanges(number: seq<byte>, i: nat, c: byte, n: nat)
    requires i < |number| && n <= |number|
    ensures Total(number[i := c], n) ==
            Total(number, n) +
            if i < n then Contribution(|number|, i, Value(c)) - Contribution(|number|, i, Value(number[i])) else 0
  {
    if n > 0 {
      TotalChanges(number, i, c, n - 1);
    }
  }

  /** On one digit the contribution is one to one, modulo ten as well. */
  lemma ContributionsDiffer(length: nat, k: nat, a: nat, b: nat)
    requires k < length && a <= 9 && b <= 9 && a != b
    ensures Contribution(length, k, a) <= 9 && Contribution(length, k, b) <= 9
    ensures Contribution(length, k, a) != Contribution(length, k, b)
  {
    assert DigitSum(2 * a) == if a >= 5 then 2 * a - 9 else 2 * a;
    assert DigitSum(2 * b) == if b >= 5 then 2 * b - 9 else 2 * b;
  }

  lemma Shifted(x: int, d: int)
    requires x % 10 == 0
    ensures (x + d) % 10 == 0 <==> d % 10 == 0
    ensures -10 < d < 10 && d != 0 ==> d % 10 != 0
  {
  }

  lemma DigitValue(b: byte)
    requires 48 <= b <= 57
    ensures Value(b) == b - 48
  {
  }

  /** Changing any one digit of a valid number makes it invalid. */
  lemma OneWrongDigitIsCaught(number: seq<byte>, i: nat, c: byte)
    requires Digits(number) && Valid(number) && i < |number| && 48 <= c <= 57 && c != number[i]
    ensures !Valid(number[i := c])
  {
    DigitValue(c);
    DigitValue(number[i]);
    TotalChanges(number, i, c, |number|);
    ContributionsDiffer(|number|, i, Value(c), Value(number[i]));
    Shifted(Total(number, |number|), Contribution(|number|, i, Value(c)) - Contribution(|number|, i, Value(number[i])));
  }

  function Swapped(number: seq<byte>, i: nat): seq<byte>
    requires i + 1 < |number|
  {
    number[i := number[i + 1]][i + 1 := number[i]]
  }

  lemma SwapChanges(number: seq<byte>, i: nat)
    requires i + 1 < |number|
    ensures
      var n, a, b := |number|, Value(number[i]), Value(number[i + 1]);
      Total(Swapped(number, i), n) == Total(number, n)
        + (Contribution(n, i, b) - Contribution(n, i, a)) + (Contribution(n, i + 1, a) - Contribution(n, i + 1, b))
  {
    TotalChanges(number, i, number[i + 1], |number|);
    TotalChanges(number[i := number[i + 1]], i + 1, number[i], |number|);
  }

  /** How much doubling adds to what a digit counts. */
  function Gain(d: nat): int {
    DigitSum(2 * d) - d
  }

  lemma GainOf(d: nat)
    requires d <= 9
    ensures Gain(d) == if d >= 5 then d - 9 else d
  {
  }

  /** Of two adjacent digits one counts double. */
  lemma SwapGains(length: nat, i: nat, a: nat, b: nat)
    requires i + 1 < length
    ensures var d := (Contribution(length, i, b) - Contribution(length, i, a)) + (Contribution(length, i + 1, a) - Contribution(length, i + 1, b));
      d == Gain(b) - Gain(a) || d == Gain(a) - Gain(b)
  {
    Alternates(length, i);
  }

  /** Doubling gains the same, modulo ten, for no two digits but 0 and 9. */
  lemma GainsDiffer(a: nat, b: nat)
    requires a <= 9 && b <= 9 && a != b
    ensures (Gain(a) - Gain(b)) % 10 == 0 <==> (a == 0 && b == 9) || (a == 9 && b == 0)
  {
    GainOf(a);
    GainOf(b);
    Shifted(0, Gain(a) - Gain(b));
  }

  /** Swapping two adjacent, different digits of a valid number goes unnoticed exactly for 0 and 9. */
  lemma SwapIsCaughtUnless09(number: seq<byte>, i: nat)
    requires Digits(number) && Valid(number) && i + 1 < |number| && number[i] != number[i + 1]
    ensures Valid(Swapped(number, i)) <==> {number[i], number[i + 1]} == {48, 57}
  {
    var n, a, b := |number|, Value(number[i]), Value(number[i + 1]);
    DigitValue(number[i]);
    DigitValue(number[i + 1]);
    SwapChanges(number, i);
    SwapGains(n, i, a, b);
    Shifted(Total(number, n), Gain(b) - Gain(a));
    Shifted(Total(number, n), Gain(a) - Gain(b));
    GainsDiffer(a, b);
    GainsDiffer(b, a);
    SamePair(number[i], number[i + 1], 48, 57);
  }

  lemma SamePair(a: int, b: int, x: int, y: int)
    requires x != y
    ensures {a, b} == {x, y} <==> (a == x && b == y) || (a == y && b == x)
  {
    if {a, b} == {x, y} {
      assert a in {x, y} && b in {x, y} && x in {a, b} && y in {a, b};
    }
  }

  lemma {:induction false} TotalOfPrefix(number: seq<byte>, c: byte, d: byte, n: nat)
    requires n <= |number|
    ensures Total(number + [c], n) == Total(number + [d], n)
  {
    if n > 0 {
      TotalOfPrefix(number, c, d, n - 1);
    }
  }

  lemma Completed(sum: nat, d: nat)
    requires d <= 9
    ensures (sum + d) % 10 == 0 <==> d == (10 - sum % 10) % 10
  {
  }

  /** What a prefix contributes once a check digit follows it. */
  function Before(prefix: seq<byte>): nat {
    Total(prefix + [48], |prefix|)
  }

  lemma CheckDigitAdds(prefix: seq<byte>, c: byte)
    ensures Total(prefix + [c], |prefix| + 1) == Before(prefix) + Value(c)
  {
    TotalOfPrefix(prefix, c, 48, |prefix|);
    assert !Doubled(|prefix| + 1, |prefix|);
  }

  /** Every prefix has exactly one check digit, and this is it. */
  lemma CheckDigitIsUnique(prefix: seq<byte>, c: byte)
    requires Digits(prefix) && 48 <= c <= 57
    ensures Valid(prefix + [c]) <==> c == 48 + (10 - Before(prefix) % 10) % 10
  {
    CheckDigitAdds(prefix, c);
    DigitValue(c);
    Completed(Before(prefix), Value(c));
  }
}
