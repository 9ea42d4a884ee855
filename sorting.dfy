/**
 * The stable `Array.prototype.sort` used by the core, with a comparator
 * that orders by an integer pair, lexicographically ascending. A descending
 * sort is an ascending sort on the negated key.
 */
module Sorting {

  predicate LexLess(a: (int, int), b: (int, int)) {
    a.0 < b.0 || (a.0 == b.0 && a.1 < b.1)
  }

  /** No element has a strictly smaller key than an element before it. */
  ghost predicate SortedBy<T>(s: seq<T>, key: T -> (int, int)) {
    forall i, j :: 0 <= i < j < |s| ==> !LexLess(key(s[j]), key(s[i]))
  }

  /**
   * Inserts `x` before the first element whose key is not smaller than its
   * own, so that `x` stays ahead of later elements with an equal key.
   */
  function Insert<T(==)>(x: T, s: seq<T>, key: T -> (int, int)): (r: seq<T>)
    ensures multiset(r) == multiset(s) + multiset{x}
    ensures |r| == |s| + 1
    ensures forall k :: 0 <= k < |r| ==> r[k] == x || r[k] in s
  {
    if s == [] then [x]
    else if LexLess(key(s[0]), key(x)) then
      assert s == [s[0]] + s[1..];
      [s[0]] + Insert(x, s[1..], key)
    else
      [x] + s
  }

  lemma {:induction false} InsertSorted<T>(x: T, s: seq<T>, key: T -> (int, int))
    requires SortedBy(s, key)
    ensures SortedBy(Insert(x, s, key), key)
  {
    if s != [] && LexLess(key(s[0]), key(x)) {
      InsertSorted(x, s[1..], key);
      var rest := Insert(x, s[1..], key);
      assert forall k :: 0 <= k < |rest| ==> !LexLess(key(rest[k]), key(s[0])) by {
        forall k | 0 <= k < |rest|
          ensures !LexLess(key(rest[k]), key(s[0]))
        {
          if rest[k] != x {
            var m :| 1 <= m < |s| && s[m] == rest[k];
          }
        }
      }
    }
  }

  /** Stable insertion sort, ascending by `key`. */
  function SortBy<T(==)>(s: seq<T>, key: T -> (int, int)): (r: seq<T>)
    ensures SortedBy(r, key)
    ensures multiset(r) == multiset(s)
    ensures |r| == |s|
  {
    if s == [] then []
    else
      assert s == [s[0]] + s[1..];
      InsertSorted(s[0], SortBy(s[1..], key), key);
      Insert(s[0], SortBy(s[1..], key), key)
  }

  /** The head of a sorted permutation carries a least key. */
  lemma {:induction false} SortByHeadIsLeast<T>(s: seq<T>, key: T -> (int, int), x: T)
    requires x in s
    ensures |SortBy(s, key)| > 0
    ensures !LexLess(key(x), key(SortBy(s, key)[0]))
  {
    var r := SortBy(s, key);
    assert x in multiset(s);
    assert x in multiset(r);
    var k :| 0 <= k < |r| && r[k] == x;
  }

  /** Sorting keeps exactly the elements it was given. */
  lemma SortByMembers<T>(s: seq<T>, key: T -> (int, int))
    ensures forall x :: x in SortBy(s, key) <==> x in s
  {
    var r := SortBy(s, key);
    forall x ensures x in r <==> x in s {
      assert x in r <==> x in multiset(r);
      assert x in s <==> x in multiset(s);
    }
  }
}
