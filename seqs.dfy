/** Sequence operations shared by the tables of the store and the search filters. */
module Seqs {
  import opened Wrappers

  /** The elements of `s` that satisfy `p`, in their original order (a queryset `.filter`). */
  function Filter<T>(s: seq<T>, p: T -> bool): (r: seq<T>)
    ensures |r| <= |s|
    ensures forall i :: 0 <= i < |r| ==> r[i] in s && p(r[i])
    ensures forall i :: 0 <= i < |s| && p(s[i]) ==> s[i] in r
  {
    if s == [] then []
    else (if p(s[0]) then [s[0]] else []) + Filter(s[1..], p)
  }

  /** Index of the first element satisfying `p` (a queryset `.filter(...).first()`). */
  function Find<T>(s: seq<T>, p: T -> bool): (r: Option<nat>)
    ensures r.Some? ==> r.value < |s| && p(s[r.value])
    ensures r.Some? ==> forall j :: 0 <= j < r.value ==> !p(s[j])
    ensures r.None? <==> forall j :: 0 <= j < |s| ==> !p(s[j])
  {
    if s == [] then None
    else if p(s[0]) then Some(0)
    else match Find(s[1..], p)
      case None => None
      case Some(k) => Some(k + 1)
  }

  function Reverse<T>(s: seq<T>): (r: seq<T>)
    ensures |r| == |s|
  {
    seq(|s|, i requires 0 <= i < |s| => s[|s| - 1 - i])
  }

  /** `a` is obtained from `b` by deleting elements, keeping the order of the rest. */
  predicate IsSubseq<T(==)>(a: seq<T>, b: seq<T>)
    decreases |b|
  {
    if a == [] then true
    else if b == [] then false
    else (a[0] == b[0] && IsSubseq(a[1..], b[1..])) || IsSubseq(a, b[1..])
  }

  /** Keys strictly ascend along the sequence (rows in insertion order). */
  predicate Increasing<T>(s: seq<T>, key: T -> nat) {
    forall i, j :: 0 <= i < j < |s| ==> key(s[i]) < key(s[j])
  }

  /** Keys strictly descend along the sequence (`order_by("-key")`). */
  predicate Decreasing<T>(s: seq<T>, key: T -> nat) {
    forall i, j :: 0 <= i < j < |s| ==> key(s[i]) > key(s[j])
  }

  /** Every key is below `bound` (the next free id or the current time). */
  predicate Below<T>(s: seq<T>, key: T -> nat, bound: nat) {
    forall i :: 0 <= i < |s| ==> key(s[i]) < bound
  }

  /** The keys occurring in `s`. */
  function Keys<T>(s: seq<T>, key: T -> nat): (r: set<nat>)
    ensures forall i :: 0 <= i < |s| ==> key(s[i]) in r
    ensures forall k :: k in r ==> exists i :: 0 <= i < |s| && key(s[i]) == k
  {
    set i | 0 <= i < |s| :: key(s[i])
  }

  lemma {:induction false} FilterIsSubseq<T>(s: seq<T>, p: T -> bool)
    ensures IsSubseq(Filter(s, p), s)
    decreases |s|
  {
    if s != [] {
      FilterIsSubseq(s[1..], p);
      if p(s[0]) {
        assert Filter(s, p) == [s[0]] + Filter(s[1..], p);
        assert Filter(s, p)[1..] == Filter(s[1..], p);
      } else {
        assert Filter(s, p) == Filter(s[1..], p);
      }
    }
  }

  lemma SubseqRefl<T>(s: seq<T>)
    ensures IsSubseq(s, s)
    decreases |s|
  {
    if s != [] {
      SubseqRefl(s[1..]);
    }
  }

  lemma {:induction false} SubseqTrans<T>(a: seq<T>, b: seq<T>, c: seq<T>)
    requires IsSubseq(a, b) && IsSubseq(b, c)
    ensures IsSubseq(a, c)
    decreases |c|
  {
    if a != [] && c != [] {
      if b[0] == c[0] && IsSubseq(b[1..], c[1..]) {
        if a[0] == b[0] && IsSubseq(a[1..], b[1..]) {
          SubseqTrans(a[1..], b[1..], c[1..]);
        } else {
          SubseqTrans(a, b[1..], c[1..]);
        }
      } else {
        SubseqTrans(a, b, c[1..]);
      }
    }
  }

  lemma {:induction false} SubseqMembers<T>(a: seq<T>, b: seq<T>)
    requires IsSubseq(a, b)
    ensures forall x :: x in a ==> x in b
    decreases |b|
  {
    if a != [] {
      if a[0] == b[0] && IsSubseq(a[1..], b[1..]) {
        SubseqMembers(a[1..], b[1..]);
        assert forall x :: x in a ==> x == a[0] || x in a[1..];
      } else {
        SubseqMembers(a, b[1..]);
      }
    }
  }

  /** Every earlier element is related to every later one by `ok`. */
  predicate Pairwise<T>(s: seq<T>, ok: (T, T) -> bool) {
    forall i, j :: 0 <= i < j < |s| ==> ok(s[i], s[j])
  }

  /** Deleting elements never breaks a property of all ordered pairs. */
  lemma {:induction false} SubseqKeepsPairwise<T>(a: seq<T>, b: seq<T>, ok: (T, T) -> bool)
    requires IsSubseq(a, b) && Pairwise(b, ok)
    ensures Pairwise(a, ok)
    decreases |b|
  {
    if a != [] {
      if a[0] == b[0] && IsSubseq(a[1..], b[1..]) {
        SubseqKeepsPairwise(a[1..], b[1..], ok);
        SubseqMembers(a[1..], b[1..]);
        forall j | 0 < j < |a| ensures ok(a[0], a[j]) {
          assert a[j] in a[1..];
          var k :| 0 <= k < |b[1..]| && b[1..][k] == a[j];
          assert b[k + 1] == a[j];
        }
        forall i, j | 0 <= i < j < |a| ensures ok(a[i], a[j]) {
          if i > 0 {
            assert a[i] == a[1..][i - 1] && a[j] == a[1..][j - 1];
          }
        }
      } else {
        SubseqKeepsPairwise(a, b[1..], ok);
      }
    }
  }

  lemma FilterKeepsPairwise<T>(s: seq<T>, p: T -> bool, ok: (T, T) -> bool)
    requires Pairwise(s, ok)
    ensures Pairwise(Filter(s, p), ok)
  {
    FilterIsSubseq(s, p);
    SubseqKeepsPairwise(Filter(s, p), s, ok);
  }

  /** Deleting elements never breaks a descending order. */
  lemma SubseqKeepsDecreasing<T>(a: seq<T>, b: seq<T>, key: T -> nat)
    requires IsSubseq(a, b) && Decreasing(b, key)
    ensures Decreasing(a, key)
  {
    var gt := (x: T, y: T) => key(x) > key(y);
    assert Pairwise(b, gt);
    SubseqKeepsPairwise(a, b, gt);
    assert Pairwise(a, gt);
  }

  /** Deleting elements never breaks an ascending order. */
  lemma FilterKeepsIncreasing<T>(s: seq<T>, p: T -> bool, key: T -> nat)
    requires Increasing(s, key)
    ensures Increasing(Filter(s, p), key)
  {
    var lt := (x: T, y: T) => key(x) < key(y);
    assert Pairwise(s, lt);
    FilterKeepsPairwise(s, p, lt);
    assert Pairwise(Filter(s, p), lt);
  }

  lemma FilterKeepsBelow<T>(s: seq<T>, p: T -> bool, key: T -> nat, bound: nat)
    requires Below(s, key, bound)
    ensures Below(Filter(s, p), key, bound)
  {
    var r := Filter(s, p);
    forall i | 0 <= i < |r| ensures key(r[i]) < bound {
      var j :| 0 <= j < |s| && s[j] == r[i];
    }
  }

  lemma AppendKeepsPairwise<T>(s: seq<T>, x: T, ok: (T, T) -> bool)
    requires Pairwise(s, ok)
    requires forall i :: 0 <= i < |s| ==> ok(s[i], x)
    ensures Pairwise(s + [x], ok)
  {
    assert forall i :: 0 <= i < |s| ==> (s + [x])[i] == s[i];
  }

  /** Reading an ascending sequence backwards gives a descending one. */
  lemma ReverseOfIncreasing<T>(s: seq<T>, key: T -> nat)
    requires Increasing(s, key)
    ensures Decreasing(Reverse(s), key)
  {
  }

  /** Reversal keeps the elements. */
  lemma ReverseMembership<T>(s: seq<T>)
    ensures forall x :: x in Reverse(s) <==> x in s
  {
    var r := Reverse(s);
    forall x | x in s ensures x in r {
      var i :| 0 <= i < |s| && s[i] == x;
      assert r[|s| - 1 - i] == x;
    }
  }

  /** Appending a row whose key exceeds every key keeps the table ascending. */
  lemma AppendKeepsIncreasing<T>(s: seq<T>, x: T, key: T -> nat, bound: nat)
    requires Increasing(s, key) && Below(s, key, bound) && key(x) >= bound
    ensures Increasing(s + [x], key) && Below(s + [x], key, key(x) + 1)
  {
    assert forall i :: 0 <= i < |s| ==> (s + [x])[i] == s[i];
  }

  lemma KeysAppend<T>(s: seq<T>, x: T, key: T -> nat)
    ensures Keys(s + [x], key) == Keys(s, key) + {key(x)}
  {
    var t := s + [x];
    forall k | k in Keys(t, key) ensures k in Keys(s, key) + {key(x)} {
      var i :| 0 <= i < |t| && key(t[i]) == k;
      if i < |s| {
        assert t[i] == s[i];
      }
    }
    forall k | k in Keys(s, key) ensures k in Keys(t, key) {
      var i :| 0 <= i < |s| && key(s[i]) == k;
      assert t[i] == s[i];
    }
    assert key(t[|s|]) in Keys(t, key);
  }

  /** Filters whose predicates agree on every element give the same sequence. */
  lemma {:induction false} FilterAgrees<T>(s: seq<T>, p: T -> bool, p': T -> bool)
    requires forall x :: x in s ==> p(x) == p'(x)
    ensures Filter(s, p) == Filter(s, p')
  {
    if s != [] {
      FilterAgrees(s[1..], p, p');
    }
  }

  lemma FilterMembership<T>(s: seq<T>, p: T -> bool)
    ensures forall x :: x in Filter(s, p) <==> x in s && p(x)
  {
    var r := Filter(s, p);
    forall x | x in r ensures x in s && p(x) {
      var i :| 0 <= i < |r| && r[i] == x;
    }
    forall x | x in s && p(x) ensures x in r {
      var i :| 0 <= i < |s| && s[i] == x;
    }
  }

  /** Overwriting a row with one of the same key keeps the order and the bound. */
  lemma ReplaceKeepsKeyed<T>(s: seq<T>, k: nat, x: T, key: T -> nat, bound: nat)
    requires k < |s| && key(x) == key(s[k])
    requires Increasing(s, key) && Below(s, key, bound)
    ensures Increasing(s[k := x], key) && Below(s[k := x], key, bound)
    ensures Keys(s[k := x], key) == Keys(s, key)
  {
    var r := s[k := x];
    assert forall i :: 0 <= i < |s| ==> key(r[i]) == key(s[i]);
    forall n | n in Keys(r, key) ensures n in Keys(s, key) {
      var i :| 0 <= i < |r| && key(r[i]) == n;
    }
  }

  lemma ReplaceKeepsPairwise<T>(s: seq<T>, k: nat, x: T, ok: (T, T) -> bool)
    requires k < |s| && Pairwise(s, ok)
    requires forall i :: 0 <= i < k ==> ok(s[i], x)
    requires forall j :: k < j < |s| ==> ok(x, s[j])
    ensures Pairwise(s[k := x], ok)
  {
  }

  /** Appending one element never changes an existing first match. */
  lemma {:induction false} FindAppend<T>(s: seq<T>, x: T, p: T -> bool)
    ensures Find(s + [x], p) == if Find(s, p).Some? then Find(s, p) else if p(x) then Some(|s|) else None
  {
    if s != [] {
      assert (s + [x])[1..] == s[1..] + [x];
      FindAppend(s[1..], x, p);
    }
  }

  /** Replacing an element by one the predicate judges alike leaves the first match where it was. */
  lemma {:induction false} FindReplace<T>(s: seq<T>, k: nat, x: T, p: T -> bool)
    requires k < |s| && p(x) == p(s[k])
    ensures Find(s[k := x], p) == Find(s, p)
  {
    if k > 0 {
      assert s[k := x][1..] == s[1..][k - 1 := x];
      FindReplace(s[1..], k - 1, x, p);
    }
  }
}
