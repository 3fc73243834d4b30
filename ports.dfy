/** Serial-port selection in `reconfigure`: a `serial_port` attribute of
    string kind wins; otherwise the first of the `/dev/ttyUSB*` devices in
    sorted order; with neither, the call raises. */
module Ports {
  import opened Wrappers

  /** The `serial_port` attribute of the configuration: a string, or a
      value of some other kind (number, bool, list, struct, null). */
  datatype ConfigField = StringValue(s: string) | OtherKind

  const NoPortText := "No available serial ports found (e.g., /dev/ttyUSB0) and no serial_port was provided in config."

  /** `a` and `b` agree before position `k`, where `a` has the smaller code point. */
  predicate LessAt(a: string, b: string, k: int) {
    0 <= k < |a| && k < |b| && a[..k] == b[..k] && a[k] < b[k]
  }

  /** Past a common first character, prefixes and first differences are
      those of the rests. */
  lemma LessAtShift(a: string, b: string)
    requires a != [] && b != [] && a[0] == b[0]
    ensures (|a| <= |b| && a == b[..|a|]) <==> (|a[1..]| <= |b[1..]| && a[1..] == b[1..][..|a[1..]|])
    ensures (exists k :: LessAt(a[1..], b[1..], k)) <==> (exists k :: LessAt(a, b, k))
  {
    if |a| <= |b| {
      assert b[..|a|] == [b[0]] + b[1..][..|a| - 1];
      assert a == [a[0]] + a[1..];
    }
    forall k | LessAt(a[1..], b[1..], k)
      ensures LessAt(a, b, k + 1)
    {
      assert a[..k + 1] == [a[0]] + a[1..][..k];
      assert b[..k + 1] == [b[0]] + b[1..][..k];
    }
    forall k | LessAt(a, b, k)
      ensures LessAt(a[1..], b[1..], k - 1)
    {
      assert a[..k][1..] == a[1..][..k - 1];
      assert b[..k][1..] == b[1..][..k - 1];
    }
  }

  /** A string whose first code point is larger is below the other nowhere. */
  lemma GreaterFirstNeverLess(a: string, b: string)
    requires a != [] && b != [] && a[0] > b[0]
    ensures forall k :: !LessAt(a, b, k)
  {
    forall k
      ensures !LessAt(a, b, k)
    {
      if 0 < k < |a| && k < |b| {
        assert a[..k][0] == a[0] && b[..k][0] == b[0];
      }
    }
  }

  /** Python's `<=` on strings: `a` is a prefix of `b`, or at the first
      position where they differ `a` has the smaller code point. */
  predicate LexLe(a: string, b: string): (r: bool)
    ensures r <==> (|a| <= |b| && a == b[..|a|]) || exists k :: LessAt(a, b, k)
    decreases |a|
  {
    if a == [] then true
    else if b == [] then false
    else if a[0] < b[0] then
      assert LessAt(a, b, 0);
      true
    else if a[0] == b[0] then
      LessAtShift(a, b);
      LexLe(a[1..], b[1..])
    else
      GreaterFirstNeverLess(a, b);
      false
  }

  lemma {:induction false} LexLeReflexive(a: string)
    ensures LexLe(a, a)
    decreases |a|
  {
    if a != [] {
      LexLeReflexive(a[1..]);
    }
  }

  /** Any two strings are ordered one way or the other. */
  lemma {:induction false} LexLeTotal(a: string, b: string)
    ensures LexLe(a, b) || LexLe(b, a)
    decreases |a|
  {
    if a != [] && b != [] && a[0] == b[0] {
      LexLeTotal(a[1..], b[1..]);
    }
  }

  lemma {:induction false} LexLeTransitive(a: string, b: string, c: string)
    requires LexLe(a, b) && LexLe(b, c)
    ensures LexLe(a, c)
    decreases |a|
  {
    if a != [] && b != [] && c != [] && a[0] == b[0] && b[0] == c[0] {
      LexLeTransitive(a[1..], b[1..], c[1..]);
    }
  }

  lemma {:induction false} LexLeAntisymmetric(a: string, b: string)
    requires LexLe(a, b) && LexLe(b, a)
    ensures a == b
    decreases |a|
  {
    if a != [] {
      LexLeAntisymmetric(a[1..], b[1..]);
      assert a == [a[0]] + a[1..] && b == [b[0]] + b[1..];
    }
  }

  /** `sorted(found)[0]`: the element that sorts first. */
  function Smallest(found: seq<string>): (p: string)
    requires found != []
    ensures p in found
    ensures forall q :: q in found ==> LexLe(p, q)
    decreases |found|
  {
    if |found| == 1 then
      LexLeReflexive(found[0]);
      found[0]
    else
      var rest := Smallest(found[1..]);
      LexLeTotal(found[0], rest);
      if LexLe(found[0], rest) then
        LexLeReflexive(found[0]);
        forall q | q in found[1..] ensures LexLe(found[0], q) {
          LexLeTransitive(found[0], rest, q);
        }
        assert forall q :: q in found ==> q == found[0] || q in found[1..];
        found[0]
      else
        assert forall q :: q in found ==> q == found[0] || q in found[1..];
        rest
  }

  /** Only one string sorts first: any element of `found` at or below all
      the others is `Smallest(found)`, wherever it stands in the list. */
  lemma SmallestUnique(found: seq<string>, p: string)
    requires p in found && forall q :: q in found ==> LexLe(p, q)
    ensures Smallest(found) == p
  {
    LexLeAntisymmetric(p, Smallest(found));
  }

  /** The port `reconfigure` stores, or the exception it raises. */
  function SelectPort(field: Option<ConfigField>, found: seq<string>): (r: Try<string>)
    ensures field.Some? && field.value.StringValue? ==> r == Returned(field.value.s)
    ensures !(field.Some? && field.value.StringValue?) && found != [] ==>
              r.Returned? && r.value in found && forall q :: q in found ==> LexLe(r.value, q)
    ensures !(field.Some? && field.value.StringValue?) && found == [] ==> r == Raised(NoPortText)
  {
    if field.Some? && field.value.StringValue? then Returned(field.value.s)
    else if found != [] then Returned(Smallest(found))
    else Raised(NoPortText)
  }

  /** The glob's order does not matter: the same devices listed in any
      order give the same port. */
  lemma SelectPortIgnoresOrder(field: Option<ConfigField>, a: seq<string>, b: seq<string>)
    requires forall q :: q in a <==> q in b
    ensures SelectPort(field, a) == SelectPort(field, b)
  {
    if !(field.Some? && field.value.StringValue?) && a != [] {
      assert a[0] in b;
      SmallestUnique(b, Smallest(a));
    }
  }
}
