/**
 * Decimal digit strings and their natural-number values.
 *
 * Fixed-width CNAB fields arrive as text; the record getters read them as
 * numbers (`(int)`, `+0`, numeric comparison) and print numbers back as text
 * (`sprintf('%08d', ...)`). This module is the arithmetic both directions rest on.
 */
module Decimal {

  predicate IsDigit(c: char) {
    '0' <= c <= '9'
  }

  predicate IsDigits(s: string) {
    forall i | 0 <= i < |s| :: IsDigit(s[i])
  }

  function DigitValue(c: char): (d: nat)
    requires IsDigit(c)
    ensures d < 10
  {
    c as int - '0' as int
  }

  function Digit(d: nat): (c: char)
    requires d < 10
    ensures IsDigit(c) && DigitValue(c) == d
  {
    ('0' as int + d) as char
  }

  function Pow10(n: nat): (p: nat)
    ensures p >= 1
  {
    if n == 0 then 1 else 10 * Pow10(n - 1)
  }

  /** The number a digit string denotes, most significant digit first; "" denotes 0. */
  function Value(s: string): nat
    requires IsDigits(s)
  {
    if s == [] then 0 else Value(s[..|s| - 1]) * 10 + DigitValue(s[|s| - 1])
  }

  /** Shortest decimal text of `n`, as PHP's `strval`/`%d` print a non-negative integer. */
  function ToDecimal(n: nat): (s: string)
    ensures IsDigits(s) && |s| >= 1
  {
    if n < 10 then [Digit(n)] else ToDecimal(n / 10) + [Digit(n % 10)]
  }

  function Zeros(k: nat): (s: string)
    ensures |s| == k && IsDigits(s)
    ensures forall i | 0 <= i < k :: s[i] == '0'
  {
    if k == 0 then "" else Zeros(k - 1) + "0"
  }

  /** Left-pad with '0' to at least `width` characters; longer text is left whole. */
  function ZeroPad(s: string, width: nat): (r: string)
    ensures |r| == if |s| >= width then |s| else width
    ensures r[|r| - |s|..] == s
  {
    if |s| >= width then s else Zeros(width - |s|) + s
  }

  /** `sprintf('%08d', n)` for a non-negative integer `n`. */
  function Sprintf08(n: nat): (s: string)
    ensures |s| >= 8 && IsDigits(s)
  {
    var t := ToDecimal(n);
    var r := ZeroPad(t, 8);
    assert |t| < 8 ==> r == Zeros(8 - |t|) + t;
    r
  }

  /** The powers of ten the CNAB fields use. */
  lemma Pow10Table()
    ensures Pow10(2) == 100 && Pow10(4) == 10000 && Pow10(6) == 1000000
    ensures Pow10(7) == 10000000 && Pow10(8) == 100000000
  {
    assert Pow10(1) == 10;
    assert Pow10(2) == 100;
    assert Pow10(3) == 1000;
    assert Pow10(4) == 10000;
    assert Pow10(5) == 100000;
    assert Pow10(6) == 1000000;
    assert Pow10(7) == 10000000;
  }

  // ---------------------------------------------------------------------------
  // Arithmetic facts about Value

  lemma MulAtLeast(a: int, p: int)
    requires a >= 1 && p > 0
    ensures a * p >= p
  {
    assert a * p == (a - 1) * p + p;
  }

  lemma DivModUnique(x: int, p: int, q: int, r: int)
    requires p > 0 && 0 <= r < p && x == q * p + r
    ensures x / p == q && x % p == r
  {
    var q', r' := x / p, x % p;
    assert x == q' * p + r';
    var d := q - q';
    assert d * p == r' - r by {
      assert q * p - q' * p == (q - q') * p;
    }
    if d >= 1 {
      MulAtLeast(d, p);
      assert false;
    } else if d <= -1 {
      MulAtLeast(q' - q, p);
      assert false;
    }
  }

  lemma {:induction false} ValueBound(s: string)
    requires IsDigits(s)
    ensures Value(s) < Pow10(|s|)
  {
    if s != [] {
      ValueBound(s[..|s| - 1]);
    }
  }

  /** Concatenation shifts the left part by the width of the right part. */
  lemma {:induction false} ValueAppend(a: string, b: string)
    requires IsDigits(a) && IsDigits(b)
    ensures IsDigits(a + b)
    ensures Value(a + b) == Value(a) * Pow10(|b|) + Value(b)
  {
    if b == [] {
      assert a + b == a;
    } else {
      var b' := b[..|b| - 1];
      assert (a + b)[..|a + b| - 1] == a + b';
      ValueAppend(a, b');
      var v, w, c, e := Value(a), Value(b'), DigitValue(b[|b| - 1]), Pow10(|b'|);
      assert b[..|b| - 1] == b';
      assert Value(b) == w * 10 + c;
      assert Pow10(|b|) == e * 10;
      assert (a + b)[|a + b| - 1] == b[|b| - 1];
      assert Value(a + b) == Value(a + b') * 10 + c;
      Shift(v, e, w, c);
    }
  }

  lemma Shift(v: int, e: int, w: int, c: int)
    ensures (v * e + w) * 10 + c == v * (e * 10) + (w * 10 + c)
  {
  }

  /** The last `k` digits denote the value modulo 10^k. */
  lemma ValueSuffix(s: string, k: nat)
    requires IsDigits(s) && k <= |s|
    ensures IsDigits(s[|s| - k..])
    ensures Value(s[|s| - k..]) == Value(s) % Pow10(k)
  {
    var a, b := s[..|s| - k], s[|s| - k..];
    assert a + b == s;
    ValueAppend(a, b);
    ValueBound(b);
    DivModUnique(Value(s), Pow10(k), Value(a), Value(b));
  }

  /** Dropping the last `k` digits divides the value by 10^k. */
  lemma ValuePrefix(s: string, k: nat)
    requires IsDigits(s) && k <= |s|
    ensures IsDigits(s[..|s| - k])
    ensures Value(s[..|s| - k]) == Value(s) / Pow10(k)
  {
    var a, b := s[..|s| - k], s[|s| - k..];
    assert a + b == s;
    ValueAppend(a, b);
    ValueBound(b);
    DivModUnique(Value(s), Pow10(k), Value(a), Value(b));
  }

  lemma {:induction false} ValueZeros(k: nat)
    ensures Value(Zeros(k)) == 0
  {
    if k > 0 {
      assert Zeros(k)[..k - 1] == Zeros(k - 1);
      ValueZeros(k - 1);
    }
  }

  /** Printing then reading a number gives it back. */
  lemma {:induction false} ValueToDecimal(n: nat)
    ensures Value(ToDecimal(n)) == n
  {
    if n >= 10 {
      var s := ToDecimal(n);
      assert s[..|s| - 1] == ToDecimal(n / 10);
      ValueToDecimal(n / 10);
    }
  }

  /** The printed text fits in `k` characters exactly when the number is below 10^k. */
  lemma {:induction false} ToDecimalLength(n: nat, k: nat)
    requires k >= 1
    ensures |ToDecimal(n)| <= k <==> n < Pow10(k)
  {
    if n >= 10 {
      if k >= 2 {
        ToDecimalLength(n / 10, k - 1);
      } else {
        assert Pow10(1) == 10;
      }
    }
  }

  /** Leading zeros do not change the value. */
  lemma ValueZeroPad(t: string, k: nat)
    requires IsDigits(t)
    ensures IsDigits(Zeros(k) + t) && Value(Zeros(k) + t) == Value(t)
  {
    ValueZeros(k);
    ValueAppend(Zeros(k), t);
    assert Value(Zeros(k)) * Pow10(|t|) == 0;
  }

  /** The 8-character zero-padded text of a number below 10^8 reads back as that number. */
  lemma Sprintf08Value(n: nat)
    requires n < 100000000
    ensures |Sprintf08(n)| == 8 && IsDigits(Sprintf08(n))
    ensures Value(Sprintf08(n)) == n
  {
    var t := ToDecimal(n);
    Pow10Table();
    ToDecimalLength(n, 8);
    ValueToDecimal(n);
    if |t| < 8 {
      assert Sprintf08(n) == Zeros(8 - |t|) + t;
      ValueZeroPad(t, 8 - |t|);
    } else {
      assert Sprintf08(n) == t;
    }
  }

  /** A number of 10^8 or more prints to more than 8 characters. */
  lemma Sprintf08Long(n: nat)
    requires n >= 100000000
    ensures |Sprintf08(n)| > 8
  {
    Pow10Table();
    ToDecimalLength(n, 8);
  }
}
