/** `Collections.sort` with a comparator on an integer key, modelled by insertion sort
    on sequences: the result is sorted by the key and a permutation of the input. */
module Sorting {

  predicate SortedBy<T>(s: seq<T>, key: T -> int) {
    forall i, j :: 0 <= i < j < |s| ==> key(s[i]) <= key(s[j])
  }

  /** Inserts `x` before the first element whose key is not smaller than its own. */
  function InsertBy<T>(x: T, s: seq<T>, key: T -> int): (r: seq<T>)
    requires SortedBy(s, key)
    ensures SortedBy(r, key)
    ensures multiset(r) == multiset(s) + multiset{x}
    ensures |r| == |s| + 1
    ensures s != [] ==> forall k :: 0 <= k < |r| ==> key(r[k]) == key(x) || key(s[0]) <= key(r[k])
  {
    if s == [] then [x]
    else if key(x) <= key(s[0]) then
      assert ([x] + s)[0] == x;
      [x] + s
    else
      var rest := InsertBy(x, s[1..], key);
      assert forall k :: 0 <= k < |rest| ==> key(s[0]) <= key(rest[k]) by {
        forall k | 0 <= k < |rest| ensures key(s[0]) <= key(rest[k]) {
          if |s| > 1 { assert s[1..][0] == s[1]; }
        }
      }
      assert s == [s[0]] + s[1..];
      [s[0]] + rest
  }

  /** A permutation of `s` sorted by `key`. */
  function SortBy<T>(s: seq<T>, key: T -> int): (r: seq<T>)
    ensures SortedBy(r, key)
    ensures multiset(r) == multiset(s)
    ensures |r| == |s|
  {
    if s == [] then []
    else
      assert s == [s[0]] + s[1..];
      InsertBy(s[0], SortBy(s[1..], key), key)
  }

  /** The last element of a sorted permutation of `s` is an element of `s` whose key is
      the largest. */
  lemma {:induction false} LastOfSortedIsLargest<T>(s: seq<T>, r: seq<T>, key: T -> int)
    requires SortedBy(r, key) && multiset(r) == multiset(s) && s != []
    ensures |r| == |s|
    ensures r[|r| - 1] in s
    ensures forall y :: y in s ==> key(y) <= key(r[|r| - 1])
  {
    assert |r| == |multiset(r)| == |multiset(s)| == |s|;
    assert r[|r| - 1] in multiset(r);
    forall y | y in s ensures key(y) <= key(r[|r| - 1]) {
      assert y in multiset(r);
      var k :| 0 <= k < |r| && r[k] == y;
    }
  }
}
