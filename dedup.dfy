// `deduplicate_results`: discovery hits from several sources are grouped by
// normalised name; each group becomes one result, the member with the most
// stars, carrying every other member's install options for sources it lacks
// and the first GitHub URL when its own URL is not one; the merged results
// are then sorted by stars and name.

module Dedup {
  import opened Text
  import opened AppTypes
  import Sorting
  import opened ResultOrder
  import opened Discovery

  // ---------------------------------------------------------------------
  // Install options.

  /** `is_github_url`: a URL mentioning "github.com" or "github.io". */
  predicate IsGithubUrl(url: Option<string>) {
    url.Some? && (Contains(url.value, "github.com") || Contains(url.value, "github.io"))
  }

  function SourcesOf(opts: seq<InstallOption>): set<DiscoverSource> {
    set i | 0 <= i < |opts| :: opts[i].source
  }

  /** Every source some result of `rs` can be installed from. */
  function AllSources(rs: seq<DiscoverResult>): set<DiscoverSource> {
    set r, o | r in rs && o in r.installOptions :: o.source
  }

  /** `primary.install_options.iter().any(|o| o.source == opt.source)`. */
  predicate HasSource(opts: seq<InstallOption>, s: DiscoverSource) {
    exists i :: 0 <= i < |opts| && opts[i].source == s
  }

  /** The options of `extra` appended in their order, each only when no option with its source
      is present yet (counting the ones appended before it). */
  function AddOptions(opts: seq<InstallOption>, extra: seq<InstallOption>): seq<InstallOption>
    decreases |extra|
  {
    if |extra| == 0 then opts
    else
      var acc := AddOptions(opts, extra[..|extra| - 1]);
      var o := extra[|extra| - 1];
      if HasSource(acc, o.source) then acc else acc + [o]
  }

  lemma SourcesOfAppend(opts: seq<InstallOption>, o: InstallOption)
    ensures SourcesOf(opts + [o]) == SourcesOf(opts) + {o.source}
  {
    var t := opts + [o];
    forall s | s in SourcesOf(t)
      ensures s in SourcesOf(opts) + {o.source}
    {
      var i :| 0 <= i < |t| && t[i].source == s;
      if i < |opts| {
        assert opts[i] == t[i];
      }
    }
    forall s | s in SourcesOf(opts)
      ensures s in SourcesOf(t)
    {
      var i :| 0 <= i < |opts| && opts[i].source == s;
      assert t[i] == opts[i];
    }
    assert t[|opts|] == o;
  }

  /** The original options stay in front, the sources become the union, and every appended
      option brings a source not present before it. */
  lemma {:induction false} AddOptionsSpec(opts: seq<InstallOption>, extra: seq<InstallOption>)
    ensures var r := AddOptions(opts, extra);
      && |opts| <= |r| && r[..|opts|] == opts
      && SourcesOf(r) == SourcesOf(opts) + SourcesOf(extra)
      && (forall i :: |opts| <= i < |r| ==> r[i].source !in SourcesOf(r[..i]))
    decreases |extra|
  {
    if |extra| > 0 {
      var init := extra[..|extra| - 1];
      var o := extra[|extra| - 1];
      AddOptionsSpec(opts, init);
      var acc := AddOptions(opts, init);
      assert extra == init + [o];
      SourcesOfAppend(init, o);
      if !HasSource(acc, o.source) {
        var r := acc + [o];
        SourcesOfAppend(acc, o);
        assert r[..|opts|] == acc[..|opts|];
        assert r[..|acc|] == acc;
        forall i | |opts| <= i < |r|
          ensures r[i].source !in SourcesOf(r[..i])
        {
          if i < |acc| {
            assert r[..i] == acc[..i];
          }
        }
      }
    }
  }

  // ---------------------------------------------------------------------
  // Merging one group.

  /** One step of the loop over the other members: their options, then the URL (and with it
      the description, when there is one) if theirs is a GitHub URL and the primary's is not. */
  function MergeOne(p: DiscoverResult, o: DiscoverResult): DiscoverResult {
    var q := p.(installOptions := AddOptions(p.installOptions, o.installOptions));
    if IsGithubUrl(o.url) && !IsGithubUrl(q.url) then
      q.(url := o.url, description := if o.description.Some? then o.description else q.description)
    else q
  }

  /** The primary after merging every other member in order. */
  function MergeAll(p: DiscoverResult, others: seq<DiscoverResult>): DiscoverResult
    decreases |others|
  {
    if |others| == 0 then p else MergeOne(MergeAll(p, others[..|others| - 1]), others[|others| - 1])
  }

  predicate NoGithubUrl(others: seq<DiscoverResult>) {
    forall j :: 0 <= j < |others| ==> !IsGithubUrl(others[j].url)
  }

  /** `others[i]` is the first member with a GitHub URL. */
  predicate FirstGithubAt(others: seq<DiscoverResult>, i: nat) {
    i < |others| && IsGithubUrl(others[i].url) && NoGithubUrl(others[..i])
  }

  lemma AllSourcesAppend(rs: seq<DiscoverResult>, x: DiscoverResult)
    ensures AllSources(rs + [x]) == AllSources(rs) + SourcesOf(x.installOptions)
  {
    var t := rs + [x];
    forall s | s in AllSources(t)
      ensures s in AllSources(rs) + SourcesOf(x.installOptions)
    {
      var r, o :| r in t && o in r.installOptions && o.source == s;
      if r != x {
        assert r in rs;
      } else {
        var i :| 0 <= i < |x.installOptions| && x.installOptions[i] == o;
      }
    }
    forall s | s in SourcesOf(x.installOptions)
      ensures s in AllSources(t)
    {
      var i :| 0 <= i < |x.installOptions| && x.installOptions[i].source == s;
      assert x in t && x.installOptions[i] in x.installOptions;
    }
    forall s | s in AllSources(rs)
      ensures s in AllSources(t)
    {
      var r, o :| r in rs && o in r.installOptions && o.source == s;
      assert r in t;
    }
  }

  /** Name, stars, source and language stay the primary's; its options stay in front and the
      sources become the union over all members. */
  lemma {:induction false} MergeAllOptions(p: DiscoverResult, others: seq<DiscoverResult>)
    ensures var r := MergeAll(p, others);
      && r.name == p.name && r.stars == p.stars && r.source == p.source && r.language == p.language
      && |p.installOptions| <= |r.installOptions| && r.installOptions[..|p.installOptions|] == p.installOptions
      && SourcesOf(r.installOptions) == SourcesOf(p.installOptions) + AllSources(others)
    decreases |others|
  {
    if |others| > 0 {
      var init := others[..|others| - 1];
      var x := others[|others| - 1];
      MergeAllOptions(p, init);
      var q := MergeAll(p, init);
      assert others == init + [x];
      AddOptionsSpec(q.installOptions, x.installOptions);
      AllSourcesAppend(init, x);
      var r := MergeAll(p, others);
      assert r.installOptions == AddOptions(q.installOptions, x.installOptions);
      assert r.installOptions[..|p.installOptions|] == q.installOptions[..|p.installOptions|];
    }
  }

  /** The URL and description change at most once, to those of the first member with a GitHub
      URL, and only if the primary's URL is not one. */
  lemma {:induction false} MergeAllUrl(p: DiscoverResult, others: seq<DiscoverResult>)
    ensures var r := MergeAll(p, others);
      IsGithubUrl(p.url) || NoGithubUrl(others) ==> r.url == p.url && r.description == p.description
    ensures var r := MergeAll(p, others);
      forall i: nat :: !IsGithubUrl(p.url) && FirstGithubAt(others, i) ==>
        r.url == others[i].url
        && r.description == (if others[i].description.Some? then others[i].description else p.description)
    decreases |others|
  {
    if |others| > 0 {
      var init := others[..|others| - 1];
      var x := others[|others| - 1];
      MergeAllUrl(p, init);
      var q := MergeAll(p, init);
      var r := MergeAll(p, others);
      assert r == MergeOne(q, x);
      forall i: nat | !IsGithubUrl(p.url) && FirstGithubAt(others, i)
        ensures r.url == others[i].url
        ensures r.description == (if others[i].description.Some? then others[i].description else p.description)
      {
        if i < |init| {
          assert init[..i] == others[..i];
          assert FirstGithubAt(init, i);
          assert IsGithubUrl(q.url);
        } else {
          assert init == others[..i];
        }
      }
      if NoGithubUrl(others) {
        assert NoGithubUrl(init);
      }
    }
  }

  /** Position of the primary: the most stars (`None` lowest), the earliest on ties. */
  function FirstMaxIndex(s: seq<DiscoverResult>): (k: nat)
    requires |s| > 0
    ensures k < |s|
    decreases |s|
  {
    if |s| == 1 then 0
    else
      var k := FirstMaxIndex(s[..|s| - 1]);
      if ByStars(s[k], s[|s| - 1]) then k else |s| - 1
  }

  /** No member has more stars than the primary, and every member before it has fewer. */
  lemma {:induction false} FirstMaxSpec(s: seq<DiscoverResult>)
    requires |s| > 0
    ensures var k := FirstMaxIndex(s);
      && (forall j :: 0 <= j < |s| ==> StarsAtLeast(s[k].stars, s[j].stars))
      && (forall j :: 0 <= j < k ==> !StarsAtLeast(s[j].stars, s[k].stars))
    decreases |s|
  {
    if |s| > 1 {
      var init := s[..|s| - 1];
      FirstMaxSpec(init);
      var k := FirstMaxIndex(init);
      assert forall j :: 0 <= j < |init| ==> s[j] == init[j];
    }
  }

  /** The stable sort by stars puts the primary first. */
  lemma {:induction false} SortHead(s: seq<DiscoverResult>)
    requires |s| > 0
    ensures Sorting.Sort(s, ByStars)[0] == s[FirstMaxIndex(s)]
    decreases |s|
  {
    var init := s[..|s| - 1];
    var x := s[|s| - 1];
    if |s| == 1 {
      assert Sorting.Sort(s, ByStars) == Sorting.Insert(x, [], ByStars);
    } else {
      SortHead(init);
      var t := Sorting.Sort(init, ByStars);
      assert t[0] == init[FirstMaxIndex(init)] == s[FirstMaxIndex(init)];
    }
  }

  /** The primary, merged with the rest of the group in descending order of stars. */
  function MergeGroup(group: seq<DiscoverResult>): DiscoverResult
    requires |group| > 0
  {
    var sorted := Sorting.Sort(group, ByStars);
    MergeAll(sorted[0], sorted[1..])
  }

  lemma AllSourcesSameElements(a: seq<DiscoverResult>, b: seq<DiscoverResult>)
    requires forall x :: x in a <==> x in b
    ensures AllSources(a) == AllSources(b)
  {
    forall s | s in AllSources(a)
      ensures s in AllSources(b)
    {
      var r, o :| r in a && o in r.installOptions && o.source == s;
    }
    forall s | s in AllSources(b)
      ensures s in AllSources(a)
    {
      var r, o :| r in b && o in r.installOptions && o.source == s;
    }
  }

  lemma AllSourcesCons(x: DiscoverResult, rs: seq<DiscoverResult>)
    ensures AllSources([x] + rs) == SourcesOf(x.installOptions) + AllSources(rs)
  {
    var t := [x] + rs;
    forall s | s in AllSources(t)
      ensures s in SourcesOf(x.installOptions) + AllSources(rs)
    {
      var r, o :| r in t && o in r.installOptions && o.source == s;
      if r != x {
        assert r in rs;
      } else {
        var i :| 0 <= i < |x.installOptions| && x.installOptions[i] == o;
      }
    }
    forall s | s in SourcesOf(x.installOptions)
      ensures s in AllSources(t)
    {
      var i :| 0 <= i < |x.installOptions| && x.installOptions[i].source == s;
      assert x in t && x.installOptions[i] in x.installOptions;
    }
    forall s | s in AllSources(rs)
      ensures s in AllSources(t)
    {
      var r, o :| r in rs && o in r.installOptions && o.source == s;
      assert r in t;
    }
  }

  /** The merged result has the name and stars of the primary and its options in front, can be
      installed from every source any member offers and from no other, and keeps the primary's
      URL and description when that URL is a GitHub one; otherwise it ends with a GitHub URL
      whenever any member has one. */
  lemma MergeGroupSpec(group: seq<DiscoverResult>)
    requires |group| > 0
    ensures var r := MergeGroup(group); var p := group[FirstMaxIndex(group)];
      && r.name == p.name && r.stars == p.stars && r.source == p.source
      && |p.installOptions| <= |r.installOptions| && r.installOptions[..|p.installOptions|] == p.installOptions
      && SourcesOf(r.installOptions) == AllSources(group)
    ensures var r := MergeGroup(group); var p := group[FirstMaxIndex(group)];
      IsGithubUrl(p.url) ==> r.url == p.url && r.description == p.description
    ensures var r := MergeGroup(group);
      (exists m :: m in group && IsGithubUrl(m.url)) ==> IsGithubUrl(r.url)
  {
    var sorted := Sorting.Sort(group, ByStars);
    SortHead(group);
    Sorting.SortSameElements(group, ByStars);
    var p := sorted[0];
    var others := sorted[1..];
    assert sorted == [p] + others;
    MergeAllOptions(p, others);
    MergeAllUrl(p, others);
    AllSourcesSameElements(sorted, group);
    AllSourcesCons(p, others);
    var r := MergeGroup(group);
    if exists m :: m in group && IsGithubUrl(m.url) {
      if !IsGithubUrl(p.url) {
        var m :| m in group && IsGithubUrl(m.url);
        assert m in sorted;
        assert !NoGithubUrl(others);
        var i := FirstGithub(others);
        assert FirstGithubAt(others, i);
      }
    }
  }

  /** The first member with a GitHub URL, when there is one. */
  function FirstGithub(others: seq<DiscoverResult>): (i: nat)
    requires !NoGithubUrl(others)
    ensures FirstGithubAt(others, i)
  {
    if IsGithubUrl(others[0].url) then 0
    else
      assert !NoGithubUrl(others[1..]) by {
        var j :| 0 <= j < |others| && IsGithubUrl(others[j].url);
        assert others[1..][j - 1] == others[j];
      }
      var i := FirstGithub(others[1..]);
      var pre := others[..i + 1];
      var rest := others[1..][..i];
      assert NoGithubUrl(pre) by {
        forall j | 0 < j < |pre|
          ensures !IsGithubUrl(pre[j].url)
        {
          assert pre[j] == rest[j - 1];
        }
      }
      i + 1
  }

  // ---------------------------------------------------------------------
  // Grouping.

  /** The grouping key of `deduplicate_results`. */
  function Key(r: DiscoverResult): string {
    NormalizeName(r.name)
  }

  // The grouping functions take the key as a parameter; the model always passes `Key`.

  function KeysOf(rs: seq<DiscoverResult>, keyOf: DiscoverResult -> string): set<string> {
    set r | r in rs :: keyOf(r)
  }

  /** The members of `rs` with key `k`, in their order. */
  function Group(rs: seq<DiscoverResult>, keyOf: DiscoverResult -> string, k: string): (g: seq<DiscoverResult>)
    ensures forall x :: x in g <==> x in rs && keyOf(x) == k
    decreases |rs|
  {
    if |rs| == 0 then []
    else
      var x := rs[|rs| - 1];
      assert rs == rs[..|rs| - 1] + [x];
      Group(rs[..|rs| - 1], keyOf, k) + (if keyOf(x) == k then [x] else [])
  }

  lemma GroupNonEmpty(rs: seq<DiscoverResult>, keyOf: DiscoverResult -> string, k: string)
    requires k in KeysOf(rs, keyOf)
    ensures |Group(rs, keyOf, k)| > 0
  {
    var x :| x in rs && keyOf(x) == k;
    assert x in Group(rs, keyOf, k);
  }

  lemma GroupOutside(rs: seq<DiscoverResult>, keyOf: DiscoverResult -> string, k: string)
    requires k !in KeysOf(rs, keyOf)
    ensures Group(rs, keyOf, k) == []
  {
    var g := Group(rs, keyOf, k);
    assert forall j :: 0 <= j < |g| ==> keyOf(g[j]) in KeysOf(rs, keyOf);
  }

  lemma GroupAppend(rs: seq<DiscoverResult>, keyOf: DiscoverResult -> string, x: DiscoverResult, k: string)
    ensures Group(rs + [x], keyOf, k) == Group(rs, keyOf, k) + (if keyOf(x) == k then [x] else [])
    ensures KeysOf(rs + [x], keyOf) == KeysOf(rs, keyOf) + {keyOf(x)}
  {
    assert (rs + [x])[..|rs|] == rs;
  }

  /** The order in which the group map hands out its groups: every key exactly once. */
  predicate KeyOrder(rs: seq<DiscoverResult>, keyOf: DiscoverResult -> string, keys: seq<string>) {
    && (forall i, j :: 0 <= i < j < |keys| ==> keys[i] != keys[j])
    && (forall k :: k in keys ==> k in KeysOf(rs, keyOf))
    && (forall r :: r in rs ==> keyOf(r) in keys)
  }

  /** The keys in order of first occurrence: one order the group map may hand out. */
  function FirstKeys(rs: seq<DiscoverResult>, keyOf: DiscoverResult -> string): seq<string>
    decreases |rs|
  {
    if |rs| == 0 then []
    else
      var init := FirstKeys(rs[..|rs| - 1], keyOf);
      var k := keyOf(rs[|rs| - 1]);
      if k in init then init else init + [k]
  }

  lemma {:induction false} FirstKeysSpec(rs: seq<DiscoverResult>, keyOf: DiscoverResult -> string)
    ensures KeyOrder(rs, keyOf, FirstKeys(rs, keyOf))
    decreases |rs|
  {
    if |rs| > 0 {
      var pre := rs[..|rs| - 1];
      var x := rs[|rs| - 1];
      FirstKeysSpec(pre, keyOf);
      assert rs == pre + [x];
      GroupAppend(pre, keyOf, x, keyOf(x));
    }
  }

  lemma GroupsNonEmpty(rs: seq<DiscoverResult>, keyOf: DiscoverResult -> string, keys: seq<string>)
    requires forall k :: k in keys ==> k in KeysOf(rs, keyOf)
    ensures forall i :: 0 <= i < |keys| ==> |Group(rs, keyOf, keys[i])| > 0
  {
    forall i | 0 <= i < |keys|
      ensures |Group(rs, keyOf, keys[i])| > 0
    {
      assert keys[i] in keys;
      GroupNonEmpty(rs, keyOf, keys[i]);
    }
  }

  /** One merged result per key, in the order of `keys`. */
  function MergedGroups(rs: seq<DiscoverResult>, keyOf: DiscoverResult -> string, keys: seq<string>): (m: seq<DiscoverResult>)
    requires forall k :: k in keys ==> k in KeysOf(rs, keyOf)
    ensures |m| == |keys|
  {
    GroupsNonEmpty(rs, keyOf, keys);
    seq(|keys|, i requires 0 <= i < |keys| && |Group(rs, keyOf, keys[i])| > 0 => MergeGroup(Group(rs, keyOf, keys[i])))
  }

  /** `deduplicate_results`, with the final order the comment above it describes. */
  function Deduplicated(rs: seq<DiscoverResult>, keys: seq<string>): seq<DiscoverResult>
    requires KeyOrder(rs, Key, keys)
  {
    Sorting.Sort(MergedGroups(rs, Key, keys), ByStarsThenName)
  }

  /** `deduplicate_results` as written: the same merged groups, sorted with the source's
      comparator, which puts unstarred results first. */
  function DeduplicatedAsWritten(rs: seq<DiscoverResult>, keys: seq<string>): seq<DiscoverResult>
    requires KeyOrder(rs, Key, keys)
  {
    Sorting.Sort(MergedGroups(rs, Key, keys), ByStarsAsWritten)
  }

  // ---------------------------------------------------------------------
  // The method.

  /** The group loops: install options of each other member pushed one by one. */
  method MergeGroupLoop(group: seq<DiscoverResult>) returns (primary: DiscoverResult)
    requires |group| > 0
    ensures primary == MergeGroup(group)
  {
    var sorted := Sorting.Sort(group, ByStars);
    primary := sorted[0];
    for i := 1 to |sorted|
      invariant primary == MergeAll(sorted[0], sorted[1..i])
    {
      var other := sorted[i];
      var opts := primary.installOptions;
      for j := 0 to |other.installOptions|
        invariant opts == AddOptions(primary.installOptions, other.installOptions[..j])
      {
        var opt := other.installOptions[j];
        assert other.installOptions[..j + 1][..j] == other.installOptions[..j];
        if !HasSource(opts, opt.source) {
          opts := opts + [opt];
        }
      }
      assert other.installOptions[..|other.installOptions|] == other.installOptions;
      primary := primary.(installOptions := opts);
      if IsGithubUrl(other.url) && !IsGithubUrl(primary.url) {
        primary := primary.(url := other.url);
        if other.description.Some? {
          primary := primary.(description := other.description);
        }
      }
      assert sorted[1..i + 1][..i - 1] == sorted[1..i];
    }
    assert sorted[1..|sorted|] == sorted[1..];
  }

  /** The grouping loop: each result pushed onto the group of its normalised name. */
  method GroupResults(results: seq<DiscoverResult>) returns (groups: map<string, seq<DiscoverResult>>)
    ensures groups.Keys == KeysOf(results, Key)
    ensures forall k :: k in groups ==> groups[k] == Group(results, Key, k)
  {
    groups := map[];
    for i := 0 to |results|
      invariant groups.Keys == KeysOf(results[..i], Key)
      invariant forall k :: k in groups ==> groups[k] == Group(results[..i], Key, k)
    {
      var r := results[i];
      var key := NormalizeName(r.name);
      var group := if key in groups then groups[key] else [];
      GroupStep(results, Key, i, groups, key);
      groups := groups[key := group + [r]];
    }
    assert results[..|results|] == results;
  }

  /** One push onto the group map keeps it equal to the grouping of the prefix read so far. */
  lemma GroupStep(results: seq<DiscoverResult>, keyOf: DiscoverResult -> string, i: nat,
                  groups: map<string, seq<DiscoverResult>>, key: string)
    requires i < |results| && key == keyOf(results[i])
    requires groups.Keys == KeysOf(results[..i], keyOf)
    requires forall k :: k in groups ==> groups[k] == Group(results[..i], keyOf, k)
    ensures var g := groups[key := (if key in groups then groups[key] else []) + [results[i]]];
      && g.Keys == KeysOf(results[..i + 1], keyOf)
      && forall k :: k in g ==> g[k] == Group(results[..i + 1], keyOf, k)
  {
    var r := results[i];
    var pre := results[..i];
    assert results[..i + 1] == pre + [r];
    var g := groups[key := (if key in groups then groups[key] else []) + [r]];
    GroupAppend(pre, keyOf, r, key);
    assert g.Keys == groups.Keys + {key};
    forall k | k in g
      ensures g[k] == Group(results[..i + 1], keyOf, k)
    {
      GroupAppend(pre, keyOf, r, k);
      if k == key && key !in groups {
        GroupOutside(pre, keyOf, key);
      }
    }
  }

  /** `deduplicate_results`: the group map filled in input order, one merged result per group in
      the map's order `keys`, then the final sort. */
  method DeduplicateResults(results: seq<DiscoverResult>, keys: seq<string>) returns (merged: seq<DiscoverResult>)
    requires KeyOrder(results, Key, keys)
    ensures merged == Deduplicated(results, keys)
  {
    var groups := GroupResults(results);
    var ms := MergeGroups(results, keys, groups);
    merged := Sorting.Sort(ms, ByStarsThenName);
  }

  /** The `into_values().map(...)` loop: one merged result per group, in the map's order. */
  method MergeGroups(results: seq<DiscoverResult>, keys: seq<string>, groups: map<string, seq<DiscoverResult>>)
    returns (ms: seq<DiscoverResult>)
    requires forall k :: k in keys ==> k in KeysOf(results, Key)
    requires groups.Keys == KeysOf(results, Key)
    requires forall k :: k in groups ==> groups[k] == Group(results, Key, k)
    ensures ms == MergedGroups(results, Key, keys)
  {
    ms := [];
    for k := 0 to |keys|
      invariant ms == MergedGroups(results, Key, keys[..k])
    {
      var key := keys[k];
      MergedGroupsStep(results, Key, keys, k);
      var m := MergeGroupLoop(groups[key]);
      ms := ms + [m];
    }
    assert keys[..|keys|] == keys;
  }

  lemma MergedGroupsStep(rs: seq<DiscoverResult>, keyOf: DiscoverResult -> string, keys: seq<string>, k: nat)
    requires forall k :: k in keys ==> k in KeysOf(rs, keyOf)
    requires k < |keys|
    ensures keys[k] in KeysOf(rs, keyOf) && |Group(rs, keyOf, keys[k])| > 0
    ensures MergedGroups(rs, keyOf, keys[..k + 1]) == MergedGroups(rs, keyOf, keys[..k]) + [MergeGroup(Group(rs, keyOf, keys[k]))]
  {
    assert keys[k] in keys;
    GroupNonEmpty(rs, keyOf, keys[k]);
    GroupsNonEmpty(rs, keyOf, keys[..k + 1]);
    assert keys[..k + 1][..k] == keys[..k];
  }
}

module DedupProperties {
  import opened Text
  import opened AppTypes
  import Sorting
  import opened ResultOrder
  import opened Discovery
  import opened Dedup

  // The properties are proved for any grouping key that depends on the name alone, and then
  // stated for `Key`.

  ghost predicate NameKeyed(keyOf: DiscoverResult -> string) {
    forall a: DiscoverResult, b: DiscoverResult :: a.name == b.name ==> keyOf(a) == keyOf(b)
  }

  /** The merged result of a group carries the group's key. */
  lemma MergedKey(rs: seq<DiscoverResult>, keyOf: DiscoverResult -> string, k: string)
    requires NameKeyed(keyOf)
    requires |Group(rs, keyOf, k)| > 0
    ensures keyOf(MergeGroup(Group(rs, keyOf, k))) == k
  {
    var g := Group(rs, keyOf, k);
    MergeGroupSpec(g);
    assert g[FirstMaxIndex(g)] in g;
  }

  /** Entry `i` before the final sort is the merge of the group of `keys[i]`, and carries
      that key. */
  lemma MergedGroupsSpec(rs: seq<DiscoverResult>, keyOf: DiscoverResult -> string, keys: seq<string>)
    requires NameKeyed(keyOf)
    requires forall k :: k in keys ==> k in KeysOf(rs, keyOf)
    ensures var m := MergedGroups(rs, keyOf, keys);
      forall i :: 0 <= i < |keys| ==>
        |Group(rs, keyOf, keys[i])| > 0 && m[i] == MergeGroup(Group(rs, keyOf, keys[i])) && keyOf(m[i]) == keys[i]
  {
    GroupsNonEmpty(rs, keyOf, keys);
    forall i | 0 <= i < |keys|
      ensures keyOf(MergedGroups(rs, keyOf, keys)[i]) == keys[i]
    {
      MergedKey(rs, keyOf, keys[i]);
    }
  }

  lemma {:induction false} DistinctCount<T>(s: seq<T>, x: T)
    requires forall i, j :: 0 <= i < j < |s| ==> s[i] != s[j]
    ensures multiset(s)[x] <= 1
    decreases |s|
  {
    if |s| > 0 {
      var init := s[..|s| - 1];
      assert s == init + [s[|s| - 1]];
      DistinctCount(init, x);
      if x == s[|s| - 1] {
        assert x !in init;
      }
    }
  }

  lemma TwiceCount<T>(s: seq<T>, i: nat, j: nat)
    requires i < j < |s| && s[i] == s[j]
    ensures multiset(s)[s[i]] >= 2
  {
    assert s == s[..j] + s[j..];
    assert s[i] in s[..j];
    assert s[j..][0] == s[j];
  }

  /** A reordering of a sequence without repeated elements has none either. */
  lemma PermutationDistinct<T>(a: seq<T>, b: seq<T>)
    requires multiset(a) == multiset(b)
    requires forall i, j :: 0 <= i < j < |a| ==> a[i] != a[j]
    ensures forall i, j :: 0 <= i < j < |b| ==> b[i] != b[j]
  {
    forall i, j | 0 <= i < j < |b|
      ensures b[i] != b[j]
    {
      if b[i] == b[j] {
        TwiceCount(b, i, j);
        DistinctCount(a, b[i]);
      }
    }
  }

  /** Every merged result is the merge of the group of its own key, and that key occurs in
      the input. */
  lemma MergedMembers(rs: seq<DiscoverResult>, keyOf: DiscoverResult -> string, keys: seq<string>)
    requires NameKeyed(keyOf)
    requires forall k :: k in keys ==> k in KeysOf(rs, keyOf)
    ensures forall x :: x in MergedGroups(rs, keyOf, keys) ==>
      keyOf(x) in KeysOf(rs, keyOf) && |Group(rs, keyOf, keyOf(x))| > 0 && x == MergeGroup(Group(rs, keyOf, keyOf(x)))
  {
    var m := MergedGroups(rs, keyOf, keys);
    MergedGroupsSpec(rs, keyOf, keys);
    forall x | x in m
      ensures keyOf(x) in KeysOf(rs, keyOf) && |Group(rs, keyOf, keyOf(x))| > 0 && x == MergeGroup(Group(rs, keyOf, keyOf(x)))
    {
      var p :| 0 <= p < |m| && m[p] == x;
      assert keys[p] in keys;
    }
  }

  /** Every key of the input has its merged result. */
  lemma MergedCovers(rs: seq<DiscoverResult>, keyOf: DiscoverResult -> string, keys: seq<string>)
    requires NameKeyed(keyOf)
    requires KeyOrder(rs, keyOf, keys)
    ensures forall k :: k in KeysOf(rs, keyOf) ==>
      |Group(rs, keyOf, k)| > 0 && MergeGroup(Group(rs, keyOf, k)) in MergedGroups(rs, keyOf, keys)
  {
    var m := MergedGroups(rs, keyOf, keys);
    MergedGroupsSpec(rs, keyOf, keys);
    forall k | k in KeysOf(rs, keyOf)
      ensures |Group(rs, keyOf, k)| > 0 && MergeGroup(Group(rs, keyOf, k)) in m
    {
      var x :| x in rs && keyOf(x) == k;
      var p :| 0 <= p < |keys| && keys[p] == k;
      assert m[p] in m;
    }
  }

  /** Before sorting, no two entries are equal, as their keys differ. */
  lemma MergedDistinct(rs: seq<DiscoverResult>, keyOf: DiscoverResult -> string, keys: seq<string>)
    requires NameKeyed(keyOf)
    requires KeyOrder(rs, keyOf, keys)
    ensures var m := MergedGroups(rs, keyOf, keys);
      forall i, j :: 0 <= i < j < |m| ==> m[i] != m[j]
  {
    var m := MergedGroups(rs, keyOf, keys);
    MergedGroupsSpec(rs, keyOf, keys);
    forall i, j | 0 <= i < j < |m|
      ensures m[i] != m[j]
    {
      assert keyOf(m[i]) == keys[i] && keyOf(m[j]) == keys[j];
    }
  }

  /** Every entry of a reordering of the merged list is the merge of the group of its own key. */
  lemma ReorderedMembers(rs: seq<DiscoverResult>, keyOf: DiscoverResult -> string, keys: seq<string>, r: seq<DiscoverResult>)
    requires NameKeyed(keyOf)
    requires KeyOrder(rs, keyOf, keys)
    requires forall x :: x in r ==> x in MergedGroups(rs, keyOf, keys)
    ensures forall i :: 0 <= i < |r| ==>
      keyOf(r[i]) in KeysOf(rs, keyOf) && |Group(rs, keyOf, keyOf(r[i]))| > 0
      && r[i] == MergeGroup(Group(rs, keyOf, keyOf(r[i])))
  {
    MergedMembers(rs, keyOf, keys);
    assert forall i :: 0 <= i < |r| ==> r[i] in MergedGroups(rs, keyOf, keys);
  }

  /** A reordering of the merged list has an entry for every key of the input. */
  lemma ReorderedCovers(rs: seq<DiscoverResult>, keyOf: DiscoverResult -> string, keys: seq<string>, r: seq<DiscoverResult>)
    requires NameKeyed(keyOf)
    requires KeyOrder(rs, keyOf, keys)
    requires forall x :: x in MergedGroups(rs, keyOf, keys) ==> x in r
    ensures forall k :: k in KeysOf(rs, keyOf) ==> exists i :: 0 <= i < |r| && keyOf(r[i]) == k
  {
    MergedCovers(rs, keyOf, keys);
    forall k | k in KeysOf(rs, keyOf)
      ensures exists i :: 0 <= i < |r| && keyOf(r[i]) == k
    {
      var e := MergeGroup(Group(rs, keyOf, k));
      assert e in r;
      var i :| 0 <= i < |r| && r[i] == e;
      MergedKey(rs, keyOf, k);
    }
  }

  /** In a permutation of the merged list no two entries share a key. */
  lemma ReorderedDistinct(rs: seq<DiscoverResult>, keyOf: DiscoverResult -> string, keys: seq<string>, r: seq<DiscoverResult>)
    requires NameKeyed(keyOf)
    requires KeyOrder(rs, keyOf, keys)
    requires multiset(r) == multiset(MergedGroups(rs, keyOf, keys))
    ensures forall i, j :: 0 <= i < j < |r| ==> keyOf(r[i]) != keyOf(r[j])
  {
    var m := MergedGroups(rs, keyOf, keys);
    MergedGroupsSpec(rs, keyOf, keys);
    MergedDistinct(rs, keyOf, keys);
    PermutationDistinct(m, r);
    forall i, j | 0 <= i < j < |r|
      ensures keyOf(r[i]) != keyOf(r[j])
    {
      assert r[i] in multiset(m) && r[j] in multiset(m);
      var p :| 0 <= p < |m| && m[p] == r[i];
      var q :| 0 <= q < |m| && m[q] == r[j];
    }
  }

  /** Grouped, merged and sorted by a name-determined key: every result is the merge of the
      group of its own key, there is exactly one result per key of the input, and the list is
      in stars-then-name order. */
  lemma DedupBySpec(rs: seq<DiscoverResult>, keyOf: DiscoverResult -> string, keys: seq<string>)
    requires NameKeyed(keyOf)
    requires KeyOrder(rs, keyOf, keys)
    ensures var r := Sorting.Sort(MergedGroups(rs, keyOf, keys), ByStarsThenName);
      forall i :: 0 <= i < |r| ==>
        keyOf(r[i]) in KeysOf(rs, keyOf) && |Group(rs, keyOf, keyOf(r[i]))| > 0
        && r[i] == MergeGroup(Group(rs, keyOf, keyOf(r[i])))
    ensures var r := Sorting.Sort(MergedGroups(rs, keyOf, keys), ByStarsThenName);
      forall k :: k in KeysOf(rs, keyOf) ==> exists i :: 0 <= i < |r| && keyOf(r[i]) == k
    ensures var r := Sorting.Sort(MergedGroups(rs, keyOf, keys), ByStarsThenName);
      forall i, j :: 0 <= i < j < |r| ==> keyOf(r[i]) != keyOf(r[j])
    ensures Sorting.SortedAll(Sorting.Sort(MergedGroups(rs, keyOf, keys), ByStarsThenName), ByStarsThenName)
  {
    var m := MergedGroups(rs, keyOf, keys);
    var r := Sorting.Sort(m, ByStarsThenName);
    SortByStarsThenName(m);
    Sorting.SortPermutes(m, ByStarsThenName);
    Sorting.SortSameElements(m, ByStarsThenName);
    ReorderedMembers(rs, keyOf, keys, r);
    ReorderedCovers(rs, keyOf, keys, r);
    ReorderedDistinct(rs, keyOf, keys, r);
  }

  /** No origin is lost: the merged list can be installed from exactly the sources the input
      offered. */
  lemma DedupBySources(rs: seq<DiscoverResult>, keyOf: DiscoverResult -> string, keys: seq<string>)
    requires NameKeyed(keyOf)
    requires KeyOrder(rs, keyOf, keys)
    ensures AllSources(Sorting.Sort(MergedGroups(rs, keyOf, keys), ByStarsThenName)) == AllSources(rs)
  {
    var m := MergedGroups(rs, keyOf, keys);
    var r := Sorting.Sort(m, ByStarsThenName);
    Sorting.SortSameElements(m, ByStarsThenName);
    AllSourcesSameElements(r, m);
    MergedSources(rs, keyOf, keys);
  }

  /** Merging the groups keeps the set of sources the input offered. */
  lemma MergedSources(rs: seq<DiscoverResult>, keyOf: DiscoverResult -> string, keys: seq<string>)
    requires NameKeyed(keyOf)
    requires KeyOrder(rs, keyOf, keys)
    ensures AllSources(MergedGroups(rs, keyOf, keys)) == AllSources(rs)
  {
    var m := MergedGroups(rs, keyOf, keys);
    MergedMembers(rs, keyOf, keys);
    MergedCovers(rs, keyOf, keys);
    forall s | s in AllSources(rs)
      ensures s in AllSources(m)
    {
      var x, o :| x in rs && o in x.installOptions && o.source == s;
      var g := Group(rs, keyOf, keyOf(x));
      var e := MergeGroup(g);
      MergeGroupSpec(g);
      assert s in AllSources(g);
      var t :| 0 <= t < |e.installOptions| && e.installOptions[t].source == s;
      assert e.installOptions[t] in e.installOptions;
    }
    forall s | s in AllSources(m)
      ensures s in AllSources(rs)
    {
      var e, o :| e in m && o in e.installOptions && o.source == s;
      var g := Group(rs, keyOf, keyOf(e));
      MergeGroupSpec(g);
      var t :| 0 <= t < |e.installOptions| && e.installOptions[t] == o;
      assert s in SourcesOf(e.installOptions);
      var x, o' :| x in g && o' in x.installOptions && o'.source == s;
    }
  }

  lemma KeyNameKeyed()
    ensures NameKeyed(Key)
  {
  }

  /** `deduplicate_results`: every result is the merge of the group of its normalised name,
      there is exactly one result per normalised name of the input, and the list is in
      stars-then-name order. */
  lemma DeduplicatedSpec(rs: seq<DiscoverResult>, keys: seq<string>)
    requires KeyOrder(rs, Key, keys)
    ensures var r := Deduplicated(rs, keys);
      forall i :: 0 <= i < |r| ==>
        Key(r[i]) in KeysOf(rs, Key) && |Group(rs, Key, Key(r[i]))| > 0
        && r[i] == MergeGroup(Group(rs, Key, Key(r[i])))
    ensures var r := Deduplicated(rs, keys);
      forall k :: k in KeysOf(rs, Key) ==> exists i :: 0 <= i < |r| && Key(r[i]) == k
    ensures var r := Deduplicated(rs, keys);
      forall i, j :: 0 <= i < j < |r| ==> Key(r[i]) != Key(r[j])
    ensures Sorting.SortedAll(Deduplicated(rs, keys), ByStarsThenName)
  {
    KeyNameKeyed();
    DedupBySpec(rs, Key, keys);
    var r := Deduplicated(rs, keys);
    forall i | 0 <= i < |r|
      ensures Key(r[i]) in KeysOf(rs, Key) && |Group(rs, Key, Key(r[i]))| > 0
      ensures r[i] == MergeGroup(Group(rs, Key, Key(r[i])))
    {
      var k := Key(r[i]);
      assert k in KeysOf(rs, Key) && |Group(rs, Key, k)| > 0;
    }
  }

  /** No origin is lost by `deduplicate_results`. */
  lemma DeduplicatedSources(rs: seq<DiscoverResult>, keys: seq<string>)
    requires KeyOrder(rs, Key, keys)
    ensures AllSources(Deduplicated(rs, keys)) == AllSources(rs)
  {
    KeyNameKeyed();
    DedupBySources(rs, Key, keys);
  }

  /** The list as written holds exactly the entries of the model's list; only their order
      differs: every unstarred entry first, by name, then the starred ones, most stars first. */
  lemma DeduplicatedAsWrittenSpec(rs: seq<DiscoverResult>, keys: seq<string>)
    requires KeyOrder(rs, Key, keys)
    ensures multiset(DeduplicatedAsWritten(rs, keys)) == multiset(Deduplicated(rs, keys))
    ensures var r := DeduplicatedAsWritten(rs, keys);
      && (forall i, j :: 0 <= i < j < |r| && r[i].stars.Some? ==> r[j].stars.Some?)
      && (forall i, j :: 0 <= i < j < |r| && r[i].stars.Some? && r[j].stars.Some? ==> r[i].stars.value >= r[j].stars.value)
      && (forall i, j :: 0 <= i < j < |r| && r[i].stars.None? && r[j].stars.None? ==> ByName(r[i], r[j]))
  {
    var m := MergedGroups(rs, Key, keys);
    SortByStarsAsWritten(m);
    SortByStarsThenName(m);
    ByStarsAsWrittenMeaning(DeduplicatedAsWritten(rs, keys));
  }
}
