/**
 * The few JavaScript string operations the components rely on, with their
 * ECMAScript semantics written out: `substring` clamps its arguments and swaps
 * them when reversed, `startsWith` compares a prefix, and a template literal
 * `${n}` renders a non-negative integer in decimal.
 */
module JsText {

  function Min(a: int, b: int): int { if a <= b then a else b }
  function Max(a: int, b: int): int { if a <= b then b else a }

  /** An index clamped into 0..len, as String.prototype.substring does. */
  function Clamp(i: int, len: nat): (r: nat)
    ensures r <= len
    ensures 0 <= i <= len ==> r == i
    ensures i < 0 ==> r == 0
    ensures i > len ==> r == len
  {
    if i < 0 then 0 else if i > len then len else i
  }

  /** `s.substring(start, end)`. */
  function Substring(s: string, start: int, end: int): (r: string)
    ensures 0 <= start <= end <= |s| ==> r == s[start..end]
    ensures var a, b := Clamp(start, |s|), Clamp(end, |s|);
            r == s[Min(a, b)..Max(a, b)]
  {
    var a, b := Clamp(start, |s|), Clamp(end, |s|);
    if a <= b then s[a..b] else s[b..a]
  }

  /** `s.substring(start)`: the end defaults to the length. */
  function SubstringFrom(s: string, start: int): (r: string)
    ensures r == s[Clamp(start, |s|)..]
    ensures start <= 0 ==> r == s
  {
    Substring(s, start, |s|)
  }

  /** The arguments of `substring` may be given in either order. */
  lemma SubstringSymmetric(s: string, start: int, end: int)
    ensures Substring(s, start, end) == Substring(s, end, start)
  {
  }

  /** `s.startsWith(prefix)`. */
  predicate StartsWith(s: string, prefix: string)
  {
    |prefix| <= |s| && s[..|prefix|] == prefix
  }

  predicate IsDigit(c: char) { '0' <= c <= '9' }

  predicate AllDigits(s: string)
  {
    forall i :: 0 <= i < |s| ==> IsDigit(s[i])
  }

  function DigitChar(d: nat): (c: char)
    requires d < 10
    ensures IsDigit(c) && c as int - '0' as int == d
  {
    ('0' as int + d) as char
  }

  /** The value of a string of decimal digits; the inverse of NumberToString. */
  function DecimalValue(s: string): nat
    requires AllDigits(s)
  {
    if s == [] then 0
    else DecimalValue(s[..|s| - 1]) * 10 + (s[|s| - 1] as int - '0' as int)
  }

  /** `${n}` for a non-negative integer: its decimal digits, no leading zero. */
  function NumberToString(n: nat): (s: string)
    ensures |s| >= 1 && AllDigits(s)
    ensures s[0] == '0' ==> s == "0"
    ensures DecimalValue(s) == n
  {
    if n < 10 then [DigitChar(n)]
    else
      var prefix := NumberToString(n / 10);
      var s := prefix + [DigitChar(n % 10)];
      assert s[..|s| - 1] == prefix;
      s
  }

  /** Distinct numbers render differently. */
  lemma NumberToStringInjective(m: nat, n: nat)
    requires NumberToString(m) == NumberToString(n)
    ensures m == n
  {
    assert m == DecimalValue(NumberToString(m));
  }

  lemma MarkerAt(a: string, c: char, x: string)
    ensures (a + [c] + x)[|a|] == c
  {
  }

  lemma CharAt(a: string, c: char, x: string, k: int)
    ensures 0 <= k < |a| ==> (a + [c] + x)[k] == a[k]
  {
  }

  /**
   * A string that begins with a run of digits followed by a non-digit marker
   * splits uniquely at that marker.
   */
  lemma {:induction false} SplitAtMarker(a: string, x: string, b: string, y: string, c: char)
    requires AllDigits(a) && AllDigits(b) && !IsDigit(c)
    requires a + [c] + x == b + [c] + y
    ensures a == b && x == y
  {
    var s := a + [c] + x;
    if |a| < |b| {
      MarkerAt(a, c, x);
      CharAt(b, c, y, |a|);
      assert false;
    } else if |b| < |a| {
      MarkerAt(b, c, y);
      CharAt(a, c, x, |b|);
      assert false;
    }
    assert a == s[..|a|];
    assert b == (b + [c] + y)[..|b|];
    assert x == s[|a| + 1..];
    assert y == (b + [c] + y)[|b| + 1..];
  }
}
