/** String helpers standing in for the JavaScript built-ins the list screens call:
    String.prototype.toLowerCase (ASCII letters only), String.prototype.includes,
    String.prototype.startsWith and Number.prototype.toString on integers. */
module Text {

  predicate IsUpper(c: char) {
    'A' <= c <= 'Z'
  }

  /** toLowerCase on one character, restricted to ASCII: 'A'..'Z' become 'a'..'z'. */
  function LowerChar(c: char): (r: char)
    ensures !IsUpper(r)
    ensures !IsUpper(c) ==> r == c
    ensures IsUpper(c) ==> 'a' <= r <= 'z' && r as int - c as int == 'a' as int - 'A' as int
  {
    if IsUpper(c) then (c as int - 'A' as int + 'a' as int) as char else c
  }

  /** toLowerCase on a string: character by character, length preserved. */
  function Lower(s: string): (r: string)
    ensures |r| == |s|
    ensures forall i :: 0 <= i < |s| ==> r[i] == LowerChar(s[i])
  {
    seq(|s|, i requires 0 <= i < |s| => LowerChar(s[i]))
  }

  predicate NoUpper(s: string) {
    forall i :: 0 <= i < |s| ==> !IsUpper(s[i])
  }

  /** Lower-casing leaves no upper-case letter behind. */
  lemma LowerHasNoUpper(s: string)
    ensures NoUpper(Lower(s))
  {
  }

  /** A string without upper-case letters is its own lower-case form. */
  lemma LowerFixesCaseless(s: string)
    requires NoUpper(s)
    ensures Lower(s) == s
  {
  }

  /** Lower-casing twice is lower-casing once. */
  lemma LowerIdempotent(s: string)
    ensures Lower(Lower(s)) == Lower(s)
  {
    LowerHasNoUpper(s);
    LowerFixesCaseless(Lower(s));
  }

  /** `s.startsWith(p)`: p fits in s and agrees with s position by position. */
  predicate StartsWith(s: string, p: string)
    ensures StartsWith(s, p) <==> |p| <= |s| && forall i :: 0 <= i < |p| ==> s[i] == p[i]
  {
    |p| <= |s| && s[..|p|] == p
  }

  /** `h.includes(n)`: n occurs somewhere in h; the empty string occurs in every string. */
  predicate Contains(h: string, n: string)
    ensures Contains(h, n) ==> |n| <= |h|
    ensures |n| <= |h| && h[|h| - |n|..] == n ==> Contains(h, n)
    decreases |h|
  {
    StartsWith(h, n) || (|h| > 0 && Contains(h[1..], n))
  }

  /** n occurs in h starting at index k. */
  predicate OccursAt(h: string, n: string, k: int) {
    0 <= k && k + |n| <= |h| && h[k..k + |n|] == n
  }

  /** Contains agrees with the positional definition of a substring occurrence. */
  lemma {:induction false} ContainsIffOccurs(h: string, n: string)
    ensures Contains(h, n) <==> exists k :: OccursAt(h, n, k)
    decreases |h|
  {
    if StartsWith(h, n) {
      assert OccursAt(h, n, 0);
    } else if |h| > 0 {
      ContainsIffOccurs(h[1..], n);
      if Contains(h[1..], n) {
        var k :| OccursAt(h[1..], n, k);
        assert h[k + 1..k + 1 + |n|] == h[1..][k..k + |n|];
        assert OccursAt(h, n, k + 1);
      } else {
        forall k | OccursAt(h, n, k)
          ensures false
        {
          if k == 0 {
            assert false;
          } else {
            assert h[1..][k - 1..k - 1 + |n|] == h[k..k + |n|];
            assert OccursAt(h[1..], n, k - 1);
          }
        }
      }
    } else {
      assert |n| > 0;
    }
  }

  /** The empty search term occurs in every string. */
  lemma EmptyIsContained(h: string)
    ensures Contains(h, "")
  {
    assert StartsWith(h, "");
  }

  predicate IsDigit(c: char) {
    '0' <= c <= '9'
  }

  function DigitChar(d: nat): (c: char)
    requires d < 10
    ensures IsDigit(c)
  {
    ('0' as int + d) as char
  }

  /** The decimal digits of n, most significant first, without leading zeros. */
  function NatToDecimal(n: nat): (r: string)
    ensures |r| >= 1
    ensures forall i :: 0 <= i < |r| ==> IsDigit(r[i])
    ensures n >= 10 ==> r[0] != '0'
  {
    if n < 10 then [DigitChar(n)] else NatToDecimal(n / 10) + [DigitChar(n % 10)]
  }

  /** `n.toString()` for an integer: a '-' sign before the digits of |n| when n is negative. */
  function IntToDecimal(n: int): (r: string)
    ensures NoUpper(r)
    ensures |r| >= 1 && (r[0] == '-' <==> n < 0)
    ensures var digits := if n < 0 then r[1..] else r;
      && |digits| >= 1
      && (forall i :: 0 <= i < |digits| ==> IsDigit(digits[i]))
      && DecimalValue(digits) == if n < 0 then -n else n
  {
    var m: nat := if n < 0 then -n else n;
    DecimalRoundTrip(m);
    if n < 0 then
      assert ("-" + NatToDecimal(m))[1..] == NatToDecimal(m);
      "-" + NatToDecimal(m)
    else NatToDecimal(m)
  }

  /** Reads a string of decimal digits back as a number (the inverse of NatToDecimal). */
  function DecimalValue(s: string): nat
    requires forall i :: 0 <= i < |s| ==> IsDigit(s[i])
  {
    if s == [] then 0 else DecimalValue(s[..|s| - 1]) * 10 + DigitValue(s[|s| - 1])
  }

  function DigitValue(c: char): nat
    requires IsDigit(c)
  {
    c as int - '0' as int
  }

  /** Printing a number in decimal and reading it back gives the number. */
  lemma {:induction false} DecimalRoundTrip(n: nat)
    ensures DecimalValue(NatToDecimal(n)) == n
  {
    if n >= 10 {
      var s := NatToDecimal(n);
      DecimalRoundTrip(n / 10);
      assert s[..|s| - 1] == NatToDecimal(n / 10);
    }
  }

  /** Decimal strings have no letters, so lower-casing one changes nothing. */
  lemma DecimalIsCaseless(n: int)
    ensures Lower(IntToDecimal(n)) == IntToDecimal(n)
  {
    LowerFixesCaseless(IntToDecimal(n));
  }
}
