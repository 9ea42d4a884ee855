/** `Array.prototype.filter` and `slice(0, n)` over sequences. */
module Seqs {

  /** Keeps, in order, the elements that satisfy `p`. */
  function Filter<T(==)>(s: seq<T>, p: T -> bool): (r: seq<T>)
    ensures |r| <= |s|
    ensures forall i :: 0 <= i < |r| ==> r[i] in s && p(r[i])
    ensures forall i :: 0 <= i < |s| && p(s[i]) ==> s[i] in r
  {
    if s == [] then [] else (if p(s[0]) then [s[0]] else []) + Filter(s[1..], p)
  }

  /** Filtering a concatenation filters each part. */
  lemma {:induction false} FilterAppend<T>(a: seq<T>, b: seq<T>, p: T -> bool)
    ensures Filter(a + b, p) == Filter(a, p) + Filter(b, p)
  {
    if a == [] {
      assert a + b == b;
    } else {
      assert (a + b)[1..] == a[1..] + b;
      FilterAppend(a[1..], b, p);
    }
  }

  /** Nothing passes the filter when no element satisfies `p`. */
  lemma {:induction false} FilterNone<T>(s: seq<T>, p: T -> bool)
    requires forall i :: 0 <= i < |s| ==> !p(s[i])
    ensures Filter(s, p) == []
  {
    if s != [] {
      assert forall i :: 0 <= i < |s| - 1 ==> s[1..][i] == s[i + 1];
      FilterNone(s[1..], p);
    }
  }

  /** Filtering splits at any position: the part before `b` and the part from `b`. */
  lemma FilterOfMiddle<T>(s: seq<T>, a: nat, b: nat, p: T -> bool)
    requires a <= b <= |s|
    ensures Filter(s[a..], p) == Filter(s[a..b], p) + Filter(s[b..], p)
  {
    assert s[a..] == s[a..b] + s[b..];
    FilterAppend(s[a..b], s[b..], p);
  }

  /** When nothing outside `s[a..b]` passes, filtering the slice filters the whole. */
  lemma FilterOfMiddleOnly<T>(s: seq<T>, a: nat, b: nat, p: T -> bool)
    requires a <= b <= |s|
    requires forall i :: 0 <= i < a ==> !p(s[i])
    requires forall i :: b <= i < |s| ==> !p(s[i])
    ensures Filter(s[a..b], p) == Filter(s, p)
  {
    FilterOfMiddle(s, 0, a, p);
    FilterOfMiddle(s, a, b, p);
    assert s[0..] == s;
    assert s[0..a] == s[..a];
    FilterNone(s[..a], p);
    FilterNone(s[b..], p);
  }

  /** The filter keeps exactly the elements that satisfy `p`. */
  lemma FilterMembers<T>(s: seq<T>, p: T -> bool)
    ensures forall x :: x in Filter(s, p) <==> x in s && p(x)
  {
    var r := Filter(s, p);
    forall x | x in s && p(x) ensures x in r {
      var j :| 0 <= j < |s| && s[j] == x;
    }
  }

  /** `s.slice(0, n)`. */
  function Take<T>(s: seq<T>, n: nat): (r: seq<T>)
    ensures |r| == if |s| <= n then |s| else n
    ensures r <= s
  {
    if |s| <= n then s else s[..n]
  }
}
