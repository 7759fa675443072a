// `slice::sort_by`, as the model uses it: a stable sort under a comparator
// given as a "not greater than" relation.  The model sorts by insertion; only
// the result matters (a sorted permutation), not the algorithm Rust runs.

module Sorting {

  /** `le` is total, as a comparator derived from `Ord::cmp` is. */
  ghost predicate Total<T(!new)>(le: (T, T) -> bool) {
    forall a: T, b: T :: le(a, b) || le(b, a)
  }

  ghost predicate Transitive<T(!new)>(le: (T, T) -> bool) {
    forall a: T, b: T, c: T :: le(a, b) && le(b, c) ==> le(a, c)
  }

  /** Neighbours are in order. */
  predicate SortedBy<T>(s: seq<T>, le: (T, T) -> bool) {
    forall i :: 0 < i < |s| ==> le(s[i - 1], s[i])
  }

  /** Every earlier element is in order with every later one. */
  predicate SortedAll<T>(s: seq<T>, le: (T, T) -> bool) {
    forall i, j :: 0 <= i < j < |s| ==> le(s[i], s[j])
  }

  /** Inserts `x` after every element that is not greater than it. */
  function Insert<T>(x: T, s: seq<T>, le: (T, T) -> bool): (r: seq<T>)
    ensures |r| == |s| + 1
  {
    if |s| == 0 then [x]
    else if !le(s[0], x) then [x] + s
    else [s[0]] + Insert(x, s[1..], le)
  }

  /** Sorts by inserting the elements in their original order, so equal elements keep it. */
  function Sort<T>(s: seq<T>, le: (T, T) -> bool): (r: seq<T>)
    ensures |r| == |s|
  {
    if |s| == 0 then [] else Insert(s[|s| - 1], Sort(s[..|s| - 1], le), le)
  }

  lemma {:induction false} InsertPermutes<T>(x: T, s: seq<T>, le: (T, T) -> bool)
    ensures multiset(Insert(x, s, le)) == multiset(s) + multiset{x}
  {
    if |s| > 0 && le(s[0], x) {
      InsertPermutes(x, s[1..], le);
      assert s == [s[0]] + s[1..];
    }
  }

  lemma {:induction false} InsertSorted<T(!new)>(x: T, s: seq<T>, le: (T, T) -> bool)
    requires Total(le)
    requires SortedBy(s, le)
    ensures SortedBy(Insert(x, s, le), le)
    ensures |s| > 0 ==> Insert(x, s, le)[0] == x || Insert(x, s, le)[0] == s[0]
  {
    if |s| > 0 {
      if !le(s[0], x) {
        assert le(x, s[0]);
      } else {
        var t := s[1..];
        InsertSorted(x, t, le);
        var r := Insert(x, t, le);
        assert |t| > 0 ==> le(s[0], t[0]);
        assert le(s[0], r[0]);
        assert forall i :: 0 < i < |r| ==> ([s[0]] + r)[i] == r[i - 1];
      }
    }
  }

  /** The result is a permutation of the input. */
  lemma {:induction false} SortPermutes<T>(s: seq<T>, le: (T, T) -> bool)
    ensures multiset(Sort(s, le)) == multiset(s)
  {
    if |s| > 0 {
      var init := s[..|s| - 1];
      SortPermutes(init, le);
      InsertPermutes(s[|s| - 1], Sort(init, le), le);
      assert s == init + [s[|s| - 1]];
    }
  }

  /** The result is in order under a total comparator. */
  lemma {:induction false} SortSorted<T(!new)>(s: seq<T>, le: (T, T) -> bool)
    requires Total(le)
    ensures SortedBy(Sort(s, le), le)
  {
    if |s| > 0 {
      SortSorted(s[..|s| - 1], le);
      InsertSorted(s[|s| - 1], Sort(s[..|s| - 1], le), le);
    }
  }

  /** Under a transitive comparator, ordered neighbours mean the whole sequence is ordered. */
  lemma SortedByAll<T(!new)>(s: seq<T>, le: (T, T) -> bool)
    requires Transitive(le)
    requires SortedBy(s, le)
    ensures SortedAll(s, le)
  {
    forall i, j | 0 <= i < j < |s|
      ensures le(s[i], s[j])
    {
      var k := i + 1;
      while k < j
        invariant i < k <= j
        invariant le(s[i], s[k])
      {
        k := k + 1;
      }
    }
  }

  /** The sorted sequence holds the same elements. */
  lemma SortSameElements<T>(s: seq<T>, le: (T, T) -> bool)
    ensures forall x :: x in Sort(s, le) <==> x in s
  {
    SortPermutes(s, le);
    forall x
      ensures x in Sort(s, le) <==> x in s
    {
      assert x in Sort(s, le) <==> x in multiset(Sort(s, le));
      assert x in s <==> x in multiset(s);
    }
  }
}
