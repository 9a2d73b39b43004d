/** Small facts about sequence prefixes, used by the loops over Python lists and dict orders. */
module Sequences {

  lemma TakeSnoc<T>(s: seq<T>, i: nat)
    requires i < |s|
    ensures s[..i + 1] == s[..i] + [s[i]]
  {
  }

  lemma TakeAll<T>(s: seq<T>)
    ensures s[..|s|] == s
  {
  }

  lemma DropCons<T>(s: seq<T>, i: nat)
    requires i < |s|
    ensures s[i..][0] == s[i] && s[i..][1..] == s[i + 1..]
  {
  }

  /** Popping the head of a queue laid out as a suffix of `s` followed by `rest`. */
  lemma PopFront<T>(s: seq<T>, i: nat, rest: seq<T>)
    requires i < |s|
    ensures (s[i..] + rest)[0] == s[i] && (s[i..] + rest)[1..] == s[i + 1..] + rest
  {
  }

  /** Popping the head of such a queue once the suffix of `s` is used up. */
  lemma PopRest<T>(s: seq<T>, rest: seq<T>)
    requires rest != []
    ensures (s[|s|..] + rest)[0] == rest[0] && (s[|s|..] + rest)[1..] == s[|s|..] + rest[1..]
  {
  }

  /** Pushing onto such a queue extends `rest`. */
  lemma PushBack<T>(s: seq<T>, i: nat, rest: seq<T>, x: T)
    requires i <= |s|
    ensures (s[i..] + rest) + [x] == s[i..] + (rest + [x])
  {
  }

  /** Cutting `s` around position `i + 1` is cutting its tail around `i`, behind the head. */
  lemma ConsSlices<T>(s: seq<T>, i: nat)
    requires i + 1 < |s|
    ensures s[..i + 1] == [s[0]] + s[1..][..i] && s[i + 2..] == s[1..][i + 1..]
  {
  }

  /** Sequences with the same multiset have the same members. */
  lemma SameMembers<T>(a: seq<T>, b: seq<T>)
    requires multiset(a) == multiset(b)
    ensures forall x :: x in a <==> x in b
  {
    forall x
      ensures x in a <==> x in b
    {
      assert x in a <==> x in multiset(a);
      assert x in b <==> x in multiset(b);
    }
  }

  /** In a sequence without repeats, an element does not occur before its own position. */
  lemma DistinctNotBefore<T>(s: seq<T>, i: nat)
    requires forall a, b :: 0 <= a < b < |s| ==> s[a] != s[b]
    requires i < |s|
    ensures s[i] !in s[..i]
  {
  }
}
