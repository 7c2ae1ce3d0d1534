/**
 * The PHP built-ins the detail record relies on, restricted to how it calls
 * them: `substr` (PHP 8 semantics, "" where PHP 7 gave `false`), `trim` with a
 * one-character list, the `(int)` cast of a string, `in_array` over integers,
 * and `preg_replace` with a pattern anchored at the start.
 */
module Php {
  import opened Wrappers
  import opened Decimal

  // ---------------------------------------------------------------------------
  // substr

  /**
   * `substr($s, $offset, $length)`; `length == None` stands for the omitted
   * argument. A negative offset counts from the end (clamped to 0), a negative
   * length stops that many characters before the end (clamped to empty).
   */
  function Substr(s: string, offset: int, length: Option<int>): (r: string)
    ensures |r| <= |s|
  {
    var n := |s|;
    if offset > n then ""
    else
      var f := if offset >= 0 then offset else if -offset > n then 0 else n + offset;
      var l := match length
        case None => n - f
        case Some(k) =>
          if k < 0 then (if -k > n - f then 0 else n - f + k)
          else if k > n - f then n - f
          else k;
      s[f..f + l]
  }

  /** `substr($s, 0, -k)`: everything but the last `k` characters, or "" when there are fewer. */
  lemma SubstrDropLast(s: string, k: nat)
    requires k >= 1
    ensures Substr(s, 0, Some(-(k as int))) == if k <= |s| then s[..|s| - k] else ""
  {
  }

  /** `substr($s, -k)`: the last `k` characters, or the whole text when it is shorter. */
  lemma SubstrLast(s: string, k: nat)
    requires k >= 1
    ensures Substr(s, -(k as int), None) == if k <= |s| then s[|s| - k..] else s
  {
  }

  // ---------------------------------------------------------------------------
  // trim with a one-character list

  function TrimLeft(s: string, c: char): (r: string)
    ensures |r| <= |s| && r == s[|s| - |r|..]
    ensures r == [] || r[0] != c
  {
    if s != [] && s[0] == c then
      var r := TrimLeft(s[1..], c);
      assert s[1..][|s| - 1 - |r|..] == s[|s| - |r|..];
      r
    else s
  }

  function TrimRight(s: string, c: char): (r: string)
    ensures |r| <= |s| && r == s[..|r|]
    ensures r == [] || r[|r| - 1] != c
  {
    if s != [] && s[|s| - 1] == c then TrimRight(s[..|s| - 1], c) else s
  }

  /** `trim($s, c)`: strip `c` from both ends; what is left neither starts nor ends with `c`. */
  function Trim(s: string, c: char): (r: string)
    ensures |r| <= |s|
    ensures r == [] || (r[0] != c && r[|r| - 1] != c)
  {
    var t := TrimLeft(s, c);
    var r := TrimRight(t, c);
    assert r == [] || r[0] == t[0];
    r
  }

  lemma {:induction false} TrimLeftEmpty(s: string, c: char)
    ensures TrimLeft(s, c) == [] <==> forall i | 0 <= i < |s| :: s[i] == c
  {
    if s != [] {
      TrimLeftEmpty(s[1..], c);
      if s[0] == c {
        assert forall i | 1 <= i < |s| :: s[i] == s[1..][i - 1];
      }
    }
  }

  lemma TrimRightKeepsHead(s: string, c: char)
    requires s == [] || s[0] != c
    ensures TrimRight(s, c) == [] <==> s == []
  {
  }

  /** `trim($s, c)` is empty exactly when `s` holds nothing but `c` (the empty text included). */
  lemma TrimEmpty(s: string, c: char)
    ensures Trim(s, c) == [] <==> forall i | 0 <= i < |s| :: s[i] == c
  {
    TrimLeftEmpty(s, c);
    TrimRightKeepsHead(TrimLeft(s, c), c);
  }

  // ---------------------------------------------------------------------------
  // (int) cast of a string

  predicate IsSpace(c: char) {
    c == ' ' || c == '\t' || c == '\n' || c == '\r' || c == '\U{0B}' || c == '\U{0C}'
  }

  function SkipSpace(s: string): (r: string)
    ensures |r| <= |s| && r == s[|s| - |r|..]
    ensures r == [] || !IsSpace(r[0])
  {
    if s != [] && IsSpace(s[0]) then
      var r := SkipSpace(s[1..]);
      assert s[1..][|s| - 1 - |r|..] == s[|s| - |r|..];
      r
    else s
  }

  /** The longest run of digits at the start of `s`. */
  function LeadingDigits(s: string): (r: string)
    ensures IsDigits(r) && |r| <= |s| && r == s[..|r|]
  {
    if s != [] && IsDigit(s[0]) then [s[0]] + LeadingDigits(s[1..]) else []
  }

  /**
   * `(int)$s`: leading white space, an optional sign, then the longest run of
   * decimal digits; text with no digits there casts to 0. Only a minus sign
   * in front of the digits makes the result negative.
   */
  function IntCast(s: string): (r: int)
    ensures r < 0 ==> SkipSpace(s) != [] && SkipSpace(s)[0] == '-'
  {
    var t := SkipSpace(s);
    if t != [] && t[0] == '-' then -(Value(LeadingDigits(t[1..])) as int)
    else if t != [] && t[0] == '+' then Value(LeadingDigits(t[1..]))
    else Value(LeadingDigits(t))
  }

  lemma {:induction false} LeadingDigitsAll(s: string)
    requires IsDigits(s)
    ensures LeadingDigits(s) == s
  {
    if s != [] {
      LeadingDigitsAll(s[1..]);
    }
  }

  /** Casting a digit string gives its decimal value (leading zeros ignored, "" gives 0). */
  lemma IntCastDigits(s: string)
    requires IsDigits(s)
    ensures IntCast(s) == Value(s)
  {
    assert SkipSpace(s) == s by {
      assert s == [] || !IsSpace(s[0]);
    }
    LeadingDigitsAll(s);
  }

  // ---------------------------------------------------------------------------
  // in_array over integers

  /** `in_array($x, $a)`: a front-to-back scan of the list, which finds `x` exactly when it is an element. */
  function InArray(x: int, a: seq<int>): (r: bool)
    ensures r <==> x in a
  {
    if a == [] then false
    else
      assert a == [a[0]] + a[1..];
      a[0] == x || InArray(x, a[1..])
  }

  // ---------------------------------------------------------------------------
  // preg_replace('/^' . $p . '/', '', $s)

  /** Characters that change the meaning of a PCRE pattern delimited by '/'. */
  predicate IsRegexMeta(c: char) {
    c in "\\^$.[]|()?*+{}/"
  }

  /** A pattern fragment that matches only its own text. */
  predicate IsRegexLiteral(p: string) {
    forall i | 0 <= i < |p| :: !IsRegexMeta(p[i])
  }

  /**
   * `preg_replace('/^' . p . '/', '', s)` for a literal `p`: the anchor lets
   * the pattern match at most once, at the start.
   */
  function PregStripPrefix(p: string, s: string): (r: string)
    requires IsRegexLiteral(p)
    ensures r == s || p + r == s
    ensures |p| <= |s| && s[..|p|] == p ==> p + r == s
  {
    if |p| <= |s| && s[..|p|] == p then
      assert s == p + s[|p|..];
      s[|p|..]
    else s
  }
}
