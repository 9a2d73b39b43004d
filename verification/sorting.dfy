/**
 * Python's `sorted(xs, key=k)` and `xs.sort(key=k)`: a stable sort by an
 * integer key, written as an insertion sort on sequences.
 */
module Sorting {

  ghost predicate SortedBy<T>(s: seq<T>, key: T -> int)
  {
    forall i, j :: 0 <= i < j < |s| ==> key(s[i]) <= key(s[j])
  }

  /** Inserts `x` after every element whose key is not greater than its own. */
  function InsertByKey<T>(s: seq<T>, x: T, key: T -> int): (r: seq<T>)
    ensures multiset(r) == multiset(s) + multiset{x}
    ensures |r| == |s| + 1
    ensures SortedBy(s, key) ==> SortedBy(r, key)
    ensures forall y :: y in r ==> y in s || y == x
    decreases |s|
  {
    if s == [] then [x]
    else if key(s[|s| - 1]) <= key(x) then s + [x]
    else
      var init := s[..|s| - 1];
      assert s == init + [s[|s| - 1]];
      var last := s[|s| - 1];
      var rest := InsertByKey(init, x, key);
      assert SortedBy(s, key) ==> SortedBy(rest + [last], key) by {
        if SortedBy(s, key) {
          assert forall y :: y in init ==> key(y) <= key(last);
          assert forall y :: y in rest ==> key(y) <= key(last);
          assert forall i :: 0 <= i < |rest| ==> key(rest[i]) <= key(last);
        }
      }
      rest + [last]
  }

  /** Stable ascending sort of `s` by `key`. */
  function SortByKey<T>(s: seq<T>, key: T -> int): (r: seq<T>)
    ensures multiset(r) == multiset(s)
    ensures |r| == |s|
    ensures SortedBy(r, key)
    decreases |s|
  {
    if s == [] then []
    else
      var init := s[..|s| - 1];
      assert s == init + [s[|s| - 1]];
      InsertByKey(SortByKey(init, key), s[|s| - 1], key)
  }
}
