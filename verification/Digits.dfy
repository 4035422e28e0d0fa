/** Positional notation, most significant digit first: the arithmetic behind the big-endian
    integers, the hexadecimal and the base32 text of the delivery codecs. */
module Digits {

  /** Octets as numbers. */
  type Octet = x: int | 0 <= x < 256

  function Pow(base: nat, exponent: nat): nat {
    if exponent == 0 then 1 else base * Pow(base, exponent - 1)
  }

  ghost predicate DigitsOf(base: nat, digits: seq<int>) {
    forall i :: 0 <= i < |digits| ==> 0 <= digits[i] < base
  }

  function Value(base: nat, digits: seq<int>): int {
    if digits == [] then 0 else Value(base, digits[..|digits| - 1]) * base + digits[|digits| - 1]
  }

  /** The last `width` digits of `n`. */
  function Put(base: nat, n: nat, width: nat): (digits: seq<int>)
    requires base > 0
    ensures |digits| == width && forall i :: 0 <= i < width ==> 0 <= digits[i] < base
    decreases width
  {
    if width == 0 then [] else Put(base, n / base, width - 1) + [n % base]
  }

  lemma PowPositive(base: nat, exponent: nat)
    requires base > 0
    ensures Pow(base, exponent) > 0
  {
  }

  lemma {:induction false} PowSum(base: nat, a: nat, b: nat)
    ensures Pow(base, a + b) == Pow(base, a) * Pow(base, b)
    decreases a
  {
    if a > 0 {
      PowSum(base, a - 1, b);
      assert base * (Pow(base, a - 1) * Pow(base, b)) == (base * Pow(base, a - 1)) * Pow(base, b);
    }
  }

  lemma Scale(a: int, b: int, c: nat)
    requires a <= b
    ensures a * c <= b * c
  {
  }

  lemma NextDigit(v: nat, base: nat, digit: nat, p: nat)
    requires v < p && digit < base
    ensures 0 <= v * base + digit < base * p
  {
    Scale(v + 1, p, base);
    Scale(0, v, base);
  }

  lemma {:induction false} ValueBounded(base: nat, digits: seq<int>)
    requires base > 0 && DigitsOf(base, digits)
    ensures 0 <= Value(base, digits) < Pow(base, |digits|)
  {
    if digits != [] {
      var init := digits[..|digits| - 1];
      ValueBounded(base, init);
      NextDigit(Value(base, init), base, digits[|digits| - 1], Pow(base, |init|));
    }
  }

  /** Reading back what was written, when it fits. */
  lemma {:induction false} ValueOfPut(base: nat, n: nat, width: nat)
    requires base > 0 && n < Pow(base, width)
    ensures Value(base, Put(base, n, width)) == n
    decreases width
  {
    if width > 0 {
      Shrink(n, base, Pow(base, width - 1));
      Recompose(n, base);
      ValueOfPut(base, n / base, width - 1);
      assert Put(base, n, width)[..width - 1] == Put(base, n / base, width - 1);
    }
  }

  lemma Shrink(n: nat, base: nat, p: nat)
    requires base > 0 && n < base * p
    ensures n / base < p
  {
    Scale(p, if n / base >= p then n / base else p, base);
    Recompose(n, base);
  }

  lemma Recompose(n: nat, base: nat)
    requires base > 0
    ensures n / base >= 0 && (n / base) * base + n % base == n && 0 <= n % base < base
  {
  }

  /** Writing back what was read. */
  lemma {:induction false} PutOfValue(base: nat, digits: seq<int>)
    requires base > 0 && DigitsOf(base, digits)
    ensures 0 <= Value(base, digits) && Put(base, Value(base, digits), |digits|) == digits
  {
    ValueBounded(base, digits);
    if digits != [] {
      var init, last := digits[..|digits| - 1], digits[|digits| - 1];
      PutOfValue(base, init);
      ValueBounded(base, init);
      Split(Value(base, init), base, last);
      assert digits == init + [last];
    }
  }

  lemma Split(v: nat, base: nat, last: nat)
    requires base > 0 && last < base
    ensures (v * base + last) / base == v && (v * base + last) % base == last
  {
    Quotient(v * base + last, base, v, last);
  }

  lemma Quotient(n: nat, base: nat, q: nat, r: nat)
    requires base > 0 && n == q * base + r && r < base
    ensures n / base == q && n % base == r
  {
    Recompose(n, base);
    SameQuotient(base, q, r, n / base, n % base);
    SameQuotient(base, n / base, n % base, q, r);
  }

  lemma SameQuotient(base: nat, q: int, r: nat, q': int, r': nat)
    requires q * base + r == q' * base + r' && r < base && r' < base
    ensures q <= q'
  {
    if q > q' { Scale(q' + 1, q, base); }
  }

  lemma PowersOf256()
    ensures Pow(256, 1) == 0x100 && Pow(256, 2) == 0x1_0000 && Pow(256, 3) == 0x100_0000
    ensures Pow(256, 4) == 0x1_0000_0000 && Pow(256, 5) == 0x100_0000_0000 && Pow(256, 8) == 0x1_0000_0000_0000_0000
  {
    assert Pow(256, 3) == 256 * Pow(256, 2);
    PowSum(256, 4, 4);
  }
}
