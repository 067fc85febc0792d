/**
 * Strings as the database compares them: ASCII case folding and substring search, used by the
 * `icontains` lookups of the search view, and decimal rendering used in notification messages.
 */
module Text {

  /** ASCII lower-casing of one character; every other character is left alone. */
  function LowerChar(c: char): char {
    if 'A' <= c <= 'Z' then (c as int + 32) as char else c
  }

  function Lower(s: string): (r: string)
    ensures |r| == |s|
  {
    seq(|s|, i requires 0 <= i < |s| => LowerChar(s[i]))
  }

  predicate StartsWith(s: string, p: string) {
    |p| <= |s| && s[..|p|] == p
  }

  /** `needle` occurs somewhere in `hay` (SQL `LIKE '%needle%'`). */
  predicate Contains(hay: string, needle: string)
    decreases |hay|
  {
    StartsWith(hay, needle) || (|hay| > 0 && Contains(hay[1..], needle))
  }

  /** Case-insensitive containment (Django's `icontains`). */
  predicate IContains(hay: string, needle: string) {
    Contains(Lower(hay), Lower(needle))
  }

  lemma LowerAppend(a: string, b: string)
    ensures Lower(a + b) == Lower(a) + Lower(b)
  {
    assert forall i :: 0 <= i < |a + b| ==> Lower(a + b)[i] == (Lower(a) + Lower(b))[i];
  }

  lemma ContainsSelf(s: string)
    ensures Contains(s, s)
  {
    assert s[..|s|] == s;
  }

  /** Text that occurs in `a` still occurs once more text is appended after `a`. */
  lemma {:induction false} ContainsAppendRight(a: string, b: string, n: string)
    requires Contains(a, n)
    ensures Contains(a + b, n)
    decreases |a|
  {
    if StartsWith(a, n) {
      assert (a + b)[..|n|] == a[..|n|];
    } else {
      ContainsAppendRight(a[1..], b, n);
      assert (a + b)[1..] == a[1..] + b;
    }
  }

  /** Text that occurs in `b` still occurs once more text is put in front of `b`. */
  lemma {:induction false} ContainsAppendLeft(a: string, b: string, n: string)
    requires Contains(b, n)
    ensures Contains(a + b, n)
    decreases |a|
  {
    if a != [] {
      ContainsAppendLeft(a[1..], b, n);
      assert (a + b)[1..] == a[1..] + b;
    } else {
      assert a + b == b;
    }
  }

  /** A piece of a concatenation is contained in the whole. */
  lemma ContainsMiddle(a: string, n: string, b: string)
    ensures Contains(a + n + b, n)
  {
    ContainsSelf(n);
    ContainsAppendRight(n, b, n);
    ContainsAppendLeft(a, n + b, n);
    assert a + n + b == a + (n + b);
  }

  /** Case-insensitive version of `ContainsMiddle`. */
  lemma IContainsMiddle(a: string, n: string, b: string)
    ensures IContains(a + n + b, n)
  {
    LowerAppend(a + n, b);
    LowerAppend(a, n);
    ContainsMiddle(Lower(a), Lower(n), Lower(b));
  }

  function DigitChar(d: nat): char
    requires d < 10
  {
    "0123456789"[d]
  }

  /** Decimal rendering of a natural number, as Python's f-string formats an `int`. */
  function NatToString(n: nat): (r: string)
    ensures |r| >= 1
    ensures forall i :: 0 <= i < |r| ==> '0' <= r[i] <= '9'
    ensures n < 10 ==> r == [DigitChar(n)]
  {
    if n < 10 then [DigitChar(n)] else NatToString(n / 10) + [DigitChar(n % 10)]
  }
}
