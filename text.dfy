/** The parts of Python's string handling the driver relies on: rendering an
    int inside an f-string, `p in s` and `s.startswith(p)`. */
module Text {

  function Digit(d: nat): (c: char)
    requires d < 10
    ensures '0' <= c <= '9'
  {
    "0123456789"[d]
  }

  /** Decimal digits of a natural number, most significant first, as `str(n)`. */
  function NatText(n: nat): (s: string)
    ensures s != []
    ensures forall i :: 0 <= i < |s| ==> '0' <= s[i] <= '9'
    decreases n
  {
    if n < 10 then [Digit(n)] else NatText(n / 10) + [Digit(n % 10)]
  }

  /** `str(i)` for any Python int: a minus sign before the digits of a negative number. */
  function IntText(i: int): (s: string)
    ensures s != []
    ensures s[0] == '-' <==> i < 0
  {
    if i < 0 then "-" + NatText(-i) else NatText(i)
  }

  /** The number a string of decimal digits denotes; the inverse of NatText. */
  function DigitsValue(s: string): nat
    requires forall i :: 0 <= i < |s| ==> '0' <= s[i] <= '9'
    decreases |s|
  {
    if s == [] then 0 else DigitsValue(s[..|s| - 1]) * 10 + (s[|s| - 1] as int - '0' as int)
  }

  /** Rendering a natural number and reading it back gives the number. */
  lemma {:induction false} NatTextRoundTrip(n: nat)
    ensures DigitsValue(NatText(n)) == n
    decreases n
  {
    if n >= 10 {
      NatTextRoundTrip(n / 10);
      var s := NatText(n);
      assert s[..|s| - 1] == NatText(n / 10);
    }
  }

  /** The text `str(i)` gives: an optional minus sign, then decimal digits. */
  predicate IsIntText(s: string) {
    if s != [] && s[0] == '-' then |s| > 1 && forall i :: 1 <= i < |s| ==> '0' <= s[i] <= '9'
    else s != [] && forall i :: 0 <= i < |s| ==> '0' <= s[i] <= '9'
  }

  /** `int(s)` on such a text. */
  function IntValue(s: string): int
    requires IsIntText(s)
  {
    if s[0] == '-' then 0 - DigitsValue(s[1..]) else DigitsValue(s)
  }

  /** Rendering any integer, negative ones included, and reading it back
      gives the integer: no two codes or slots print the same. */
  lemma IntTextRoundTrip(i: int)
    ensures IsIntText(IntText(i)) && IntValue(IntText(i)) == i
  {
    var s := IntText(i);
    if i < 0 {
      assert s[1..] == NatText(-i);
      NatTextRoundTrip(-i);
    } else {
      NatTextRoundTrip(i);
    }
  }

  /** Python's `s.startswith(p)`: the first `|p|` characters of `s` are those of `p`. */
  function StartsWith(s: string, p: string): (b: bool)
    ensures b <==> |p| <= |s| && forall k :: 0 <= k < |p| ==> s[k] == p[k]
  {
    |p| <= |s| && s[..|p|] == p
  }

  /** `p` occurs in `s` starting at position `k`. */
  predicate OccursAt(s: string, p: string, k: int) {
    0 <= k <= |s| - |p| && s[k..k + |p|] == p
  }

  /** Dropping the first character of `s` shifts every occurrence one place left. */
  lemma OccursShift(s: string, p: string)
    requires s != []
    ensures (exists k :: OccursAt(s[1..], p, k)) <==> (exists k :: 1 <= k && OccursAt(s, p, k))
  {
    forall k | OccursAt(s[1..], p, k)
      ensures OccursAt(s, p, k + 1)
    {
      assert s[1..][k..k + |p|] == s[k + 1..k + 1 + |p|];
    }
    forall k | 1 <= k && OccursAt(s, p, k)
      ensures OccursAt(s[1..], p, k - 1)
    {
      assert s[1..][k - 1..k - 1 + |p|] == s[k..k + |p|];
    }
  }

  /** Python's `p in s` on strings: `p` occurs in `s` at some position. */
  function Contains(s: string, p: string): (b: bool)
    ensures b <==> exists k :: OccursAt(s, p, k)
    decreases |s|
  {
    assert OccursAt(s, p, 0) <==> StartsWith(s, p);
    if StartsWith(s, p) then true
    else if s == [] then false
    else
      OccursShift(s, p);
      Contains(s[1..], p)
  }

  /** A string that lacks one of the characters of `p` cannot contain `p`. */
  lemma {:induction false} MissingCharNotContained(s: string, p: string, c: char)
    requires c in p && c !in s
    ensures !Contains(s, p)
    decreases |s|
  {
    var k :| 0 <= k < |p| && p[k] == c;
    if |p| <= |s| {
      assert s[..|p|][k] == s[k];
      assert s[k] in s;
    }
    if s != [] {
      MissingCharNotContained(s[1..], p, c);
    }
  }
}
