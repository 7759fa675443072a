// The orders on discovery results: by stars inside a deduplication group, by
// stars then name for the merged list and the Discover tab, by name, and by
// source rank then name.  Each is a "not greater than" relation for
// `Sorting.Sort`.

module ResultOrder {
  import opened Text
  import opened AppTypes
  import Sorting

  /** `Option<u64>` ordered as Rust does, `None` below every `Some`: "x is at least y". */
  predicate StarsAtLeast(x: Option<nat>, y: Option<nat>) {
    y.None? || (x.Some? && x.value >= y.value)
  }

  /** `sort_by(|a, b| b.stars.cmp(&a.stars))`: most stars first, `None` last. */
  predicate ByStars(a: DiscoverResult, b: DiscoverResult) {
    StarsAtLeast(a.stars, b.stars)
  }

  /** The lower-cased names in order. */
  predicate ByName(a: DiscoverResult, b: DiscoverResult) {
    LexLe(Lower(a.name), Lower(b.name))
  }

  /** Starred results by stars, most first, then every unstarred one by lower-cased name. */
  predicate ByStarsThenName(a: DiscoverResult, b: DiscoverResult) {
    match (a.stars, b.stars)
    case (Some(x), Some(y)) => x >= y
    case (Some(_), None) => true
    case (None, Some(_)) => false
    case (None, None) => ByName(a, b)
  }

  /** The stars comparator as the source writes it: the `(Some, None)` and `(None, Some)` arms
      return `Less` and `Greater` with `b` and `a` swapped, so unstarred results come first. */
  predicate ByStarsAsWritten(a: DiscoverResult, b: DiscoverResult) {
    match (b.stars, a.stars)
    case (Some(bs), Some(as_)) => bs <= as_
    case (Some(_), None) => true
    case (None, Some(_)) => false
    case (None, None) => ByName(a, b)
  }

  /** The fixed source rank, then the lower-cased name. */
  predicate BySource(a: DiscoverResult, b: DiscoverResult) {
    SourceRank(a.source) < SourceRank(b.source)
    || (SourceRank(a.source) == SourceRank(b.source) && ByName(a, b))
  }

  lemma ByStarsOrder()
    ensures Sorting.Total(ByStars) && Sorting.Transitive(ByStars)
  {
  }

  lemma ByNameOrder()
    ensures Sorting.Total(ByName) && Sorting.Transitive(ByName)
  {
    forall a: DiscoverResult, b: DiscoverResult
      ensures ByName(a, b) || ByName(b, a)
    {
      LexLeTotal(Lower(a.name), Lower(b.name));
    }
    forall a: DiscoverResult, b: DiscoverResult, c: DiscoverResult | ByName(a, b) && ByName(b, c)
      ensures ByName(a, c)
    {
      LexLeTransitive(Lower(a.name), Lower(b.name), Lower(c.name));
    }
  }

  lemma ByStarsThenNameOrder()
    ensures Sorting.Total(ByStarsThenName) && Sorting.Transitive(ByStarsThenName)
  {
    ByNameOrder();
  }

  lemma BySourceOrder()
    ensures Sorting.Total(BySource) && Sorting.Transitive(BySource)
  {
    ByNameOrder();
    forall a: DiscoverResult, b: DiscoverResult
      ensures BySource(a, b) || BySource(b, a)
    {
      assert ByName(a, b) || ByName(b, a);
    }
    forall a: DiscoverResult, b: DiscoverResult, c: DiscoverResult | BySource(a, b) && BySource(b, c)
      ensures BySource(a, c)
    {
      if SourceRank(a.source) == SourceRank(b.source) == SourceRank(c.source) {
        assert ByName(a, b) && ByName(b, c);
      }
    }
  }

  /** What a list in `ByStarsThenName` order looks like, pair by pair: stars never increase,
      no unstarred result comes before a starred one, and unstarred results are in name order. */
  lemma ByStarsThenNameMeaning(s: seq<DiscoverResult>)
    requires Sorting.SortedAll(s, ByStarsThenName)
    ensures forall i, j :: 0 <= i < j < |s| && s[i].stars.Some? && s[j].stars.Some? ==> s[i].stars.value >= s[j].stars.value
    ensures forall i, j :: 0 <= i < j < |s| && s[i].stars.None? ==> s[j].stars.None?
    ensures forall i, j :: 0 <= i < j < |s| && s[i].stars.None? && s[j].stars.None? ==> ByName(s[i], s[j])
  {
    assert forall i, j :: 0 <= i < j < |s| ==> ByStarsThenName(s[i], s[j]);
  }

  /** Sorting with `ByStarsThenName` gives a list ordered in that sense, holding the same results. */
  lemma SortByStarsThenName(s: seq<DiscoverResult>)
    ensures Sorting.SortedAll(Sorting.Sort(s, ByStarsThenName), ByStarsThenName)
    ensures multiset(Sorting.Sort(s, ByStarsThenName)) == multiset(s)
  {
    ByStarsThenNameOrder();
    Sorting.SortSorted(s, ByStarsThenName);
    Sorting.SortedByAll(Sorting.Sort(s, ByStarsThenName), ByStarsThenName);
    Sorting.SortPermutes(s, ByStarsThenName);
  }

  lemma ByStarsAsWrittenOrder()
    ensures Sorting.Total(ByStarsAsWritten) && Sorting.Transitive(ByStarsAsWritten)
  {
    ByNameOrder();
  }

  /** What a list in the as-written order looks like: every unstarred result comes before every
      starred one, unstarred results are in name order, and stars never increase. */
  lemma ByStarsAsWrittenMeaning(s: seq<DiscoverResult>)
    requires Sorting.SortedAll(s, ByStarsAsWritten)
    ensures forall i, j :: 0 <= i < j < |s| && s[i].stars.Some? && s[j].stars.Some? ==> s[i].stars.value >= s[j].stars.value
    ensures forall i, j :: 0 <= i < j < |s| && s[i].stars.Some? ==> s[j].stars.Some?
    ensures forall i, j :: 0 <= i < j < |s| && s[i].stars.None? && s[j].stars.None? ==> ByName(s[i], s[j])
  {
    assert forall i, j :: 0 <= i < j < |s| ==> ByStarsAsWritten(s[i], s[j]);
  }

  /** Sorting with the comparator as written gives a list ordered in that sense, holding the
      same results. */
  lemma SortByStarsAsWritten(s: seq<DiscoverResult>)
    ensures Sorting.SortedAll(Sorting.Sort(s, ByStarsAsWritten), ByStarsAsWritten)
    ensures multiset(Sorting.Sort(s, ByStarsAsWritten)) == multiset(s)
  {
    ByStarsAsWrittenOrder();
    Sorting.SortSorted(s, ByStarsAsWritten);
    Sorting.SortedByAll(Sorting.Sort(s, ByStarsAsWritten), ByStarsAsWritten);
    Sorting.SortPermutes(s, ByStarsAsWritten);
  }

  /** The comparator as written sorts a starred result behind an unstarred one; the intended
      order keeps the starred result first. */
  lemma AsWrittenPutsUnstarredFirst(starred: DiscoverResult, unstarred: DiscoverResult)
    requires starred.stars.Some? && unstarred.stars.None?
    ensures Sorting.Sort([starred, unstarred], ByStarsAsWritten) == [unstarred, starred]
    ensures Sorting.Sort([starred, unstarred], ByStarsThenName) == [starred, unstarred]
  {
    assert [starred, unstarred][..1] == [starred];
    assert Sorting.Sort([starred], ByStarsAsWritten) == [starred];
    assert Sorting.Sort([starred], ByStarsThenName) == [starred];
    assert [starred][1..] == [];
    assert Sorting.Insert(unstarred, [starred], ByStarsThenName) == [starred] + [unstarred];
  }
}
