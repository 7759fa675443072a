// The fuzzy scorer behind the tool filter and the match highlighting.
//
// Both entry points lower-case their arguments, then scan the target once,
// greedily matching the next query character. A match earns 1 point, a match
// right after the previous one earns a growing run bonus (2, 4, 6, ...), and a
// match at a word boundary (first character, or after a non-alphanumeric one)
// earns 3 more. A complete match of a whole target earns 100, of a prefix 50.

module Fuzzy {
  import opened Text

  /** The scan's variables after some prefix of the target. */
  datatype ScanState = ScanState(
    matched: nat,          // query_idx
    score: int,
    prev: Option<nat>,     // prev_match_idx
    bonus: int,            // consecutive_bonus
    positions: seq<nat>)   // only fuzzy_match_positions keeps these

  const Start := ScanState(0, 0, None, 0, [])

  predicate AtWordBoundary(t: string, i: nat)
    requires i < |t|
  {
    i == 0 || !IsAlphanumeric(t[i - 1])
  }

  /** One iteration of the scan loop, at target index `i`. */
  function Step(q: string, t: string, st: ScanState, i: nat): ScanState
    requires i < |t|
  {
    if st.matched < |q| && t[i] == q[st.matched] then
      var run := st.prev.Some? && i == st.prev.value + 1;
      var bonus := if run then st.bonus + 2 else if st.prev.Some? then 0 else st.bonus;
      var score := st.score + 1 + (if run then bonus else 0);
      var score' := if AtWordBoundary(t, i) then score + 3 else score;
      ScanState(st.matched + 1, score', Some(i), bonus, st.positions + [i])
    else st
  }

  /** The scan state after the first `k` target characters. */
  function Scan(q: string, t: string, k: nat): ScanState
    requires k <= |t|
  {
    if k == 0 then Start else Step(q, t, Scan(q, t, k - 1), k - 1)
  }

  /** The exact-match and prefix-match bonus. */
  function EndBonus(q: string, t: string): int {
    if q == t then 100 else if StartsWith(t, q) then 50 else 0
  }

  /** The result for an already lower-cased query and target. */
  function ScanResult(q: string, t: string): Option<(int, seq<nat>)> {
    if |q| == 0 then Some((0, []))
    else
      var st := Scan(q, t, |t|);
      if st.matched == |q| then Some((st.score + EndBonus(q, t), st.positions)) else None
  }

  /** What `fuzzy_match_positions` returns. */
  function ScoreAndPositions(query: string, target: string): Option<(int, seq<nat>)> {
    ScanResult(Lower(query), Lower(target))
  }

  /** What `fuzzy_match` returns: the score part of the same scan. */
  function Score(query: string, target: string): Option<int> {
    var r := ScoreAndPositions(query, target);
    if r.Some? then Some(r.value.0) else None
  }

  method FuzzyMatch(query: string, target: string) returns (r: Option<int>)
    ensures r == Score(query, target)
  {
    var q := Lower(query);
    var t := Lower(target);
    if |q| == 0 {
      return Some(0);
    }
    var queryIdx := 0;
    var score := 0;
    var prevMatch: Option<nat> := None;
    var bonus := 0;
    for i := 0 to |t|
      invariant queryIdx == Scan(q, t, i).matched
      invariant score == Scan(q, t, i).score
      invariant prevMatch == Scan(q, t, i).prev
      invariant bonus == Scan(q, t, i).bonus
    {
      if queryIdx < |q| && t[i] == q[queryIdx] {
        score := score + 1;
        if prevMatch.Some? {
          if i == prevMatch.value + 1 {
            bonus := bonus + 2;
            score := score + bonus;
          } else {
            bonus := 0;
          }
        }
        if i == 0 || !IsAlphanumeric(t[i - 1]) {
          score := score + 3;
        }
        prevMatch := Some(i);
        queryIdx := queryIdx + 1;
      }
    }
    if queryIdx == |q| {
      if q == t {
        score := score + 100;
      } else if StartsWith(t, q) {
        score := score + 50;
      }
      r := Some(score);
    } else {
      r := None;
    }
  }

  method FuzzyMatchPositions(query: string, target: string) returns (r: Option<(int, seq<nat>)>)
    ensures r == ScoreAndPositions(query, target)
  {
    var q := Lower(query);
    var t := Lower(target);
    if |q| == 0 {
      return Some((0, []));
    }
    var queryIdx := 0;
    var score := 0;
    var prevMatch: Option<nat> := None;
    var bonus := 0;
    var positions: seq<nat> := [];
    for i := 0 to |t|
      invariant ScanState(queryIdx, score, prevMatch, bonus, positions) == Scan(q, t, i)
    {
      if queryIdx < |q| && t[i] == q[queryIdx] {
        positions := positions + [i];
        score := score + 1;
        if prevMatch.Some? {
          if i == prevMatch.value + 1 {
            bonus := bonus + 2;
            score := score + bonus;
          } else {
            bonus := 0;
          }
        }
        if i == 0 || !IsAlphanumeric(t[i - 1]) {
          score := score + 3;
        }
        prevMatch := Some(i);
        queryIdx := queryIdx + 1;
      }
    }
    if queryIdx == |q| {
      if q == t {
        score := score + 100;
      } else if StartsWith(t, q) {
        score := score + 50;
      }
      r := Some((score, positions));
    } else {
      r := None;
    }
  }

  // ---------------------------------------------------------------------
  // Reference definition: `q` occurs in `t` as a subsequence.

  /** `e` lists, in increasing order, target positions spelling out `q`. */
  predicate Embedding(e: seq<nat>, q: string, t: string) {
    && |e| == |q|
    && (forall i :: 0 <= i < |e| ==> e[i] < |t| && t[e[i]] == q[i])
    && (forall i, j :: 0 <= i < j < |e| ==> e[i] < e[j])
  }

  ghost predicate IsSubsequence(q: string, t: string) {
    exists e :: Embedding(e, q, t)
  }

  /** What the scan keeps true: the positions spell the matched query prefix. */
  lemma {:induction false} ScanInvariant(q: string, t: string, k: nat)
    requires k <= |t|
    ensures var st := Scan(q, t, k);
      && st.matched <= |q|
      && |st.positions| == st.matched
      && (forall i :: 0 <= i < st.matched ==> st.positions[i] < k && t[st.positions[i]] == q[i])
      && (forall i, j :: 0 <= i < j < st.matched ==> st.positions[i] < st.positions[j])
      && st.prev == (if st.matched == 0 then None else Some(st.positions[st.matched - 1]))
      && st.bonus >= 0
      && st.score >= st.matched
  {
    if k > 0 {
      ScanInvariant(q, t, k - 1);
    }
  }

  /** The score never decreases while the target is scanned. */
  lemma ScanScoreNonDecreasing(q: string, t: string, k: nat)
    requires k < |t|
    ensures Scan(q, t, k).score <= Scan(q, t, k + 1).score
    ensures Scan(q, t, k).matched <= Scan(q, t, k + 1).matched
  {
    ScanInvariant(q, t, k);
  }

  /** Greedy matching is never behind any embedding of the query. */
  lemma {:induction false} GreedyDominates(q: string, t: string, e: seq<nat>, k: nat, c: nat)
    requires Embedding(e, q, t)
    requires k <= |t| && c <= |e| && (c == 0 || e[c - 1] < k)
    ensures Scan(q, t, k).matched >= c
    decreases k
  {
    if c > 0 {
      ScanInvariant(q, t, k - 1);
      if e[c - 1] < k - 1 {
        GreedyDominates(q, t, e, k - 1, c);
      } else {
        assert c - 1 == 0 || e[c - 2] < e[c - 1];
        GreedyDominates(q, t, e, k - 1, c - 1);
      }
    }
  }

  /** The full scan matches every query character iff the query is a subsequence. */
  lemma ScanMatchesIffSubsequence(q: string, t: string)
    ensures Scan(q, t, |t|).matched == |q| <==> IsSubsequence(q, t)
  {
    ScanInvariant(q, t, |t|);
    var st := Scan(q, t, |t|);
    if st.matched == |q| {
      assert Embedding(st.positions, q, t);
    }
    if IsSubsequence(q, t) {
      var e :| Embedding(e, q, t);
      if |e| > 0 {
        assert e[|e| - 1] < |t|;
      }
      GreedyDominates(q, t, e, |t|, |e|);
    }
  }

  /** `fuzzy_match` succeeds exactly when the lower-cased query is a subsequence of the lower-cased target. */
  lemma MatchIffSubsequence(query: string, target: string)
    ensures Score(query, target).Some? <==> IsSubsequence(Lower(query), Lower(target))
  {
    var q := Lower(query);
    ScanMatchesIffSubsequence(q, Lower(target));
    if |q| == 0 {
      assert Embedding([], q, Lower(target));
    }
  }

  lemma EmptyQueryScoresZero(query: string, target: string)
    requires query == ""
    ensures Score(query, target) == Some(0)
    ensures ScoreAndPositions(query, target) == Some((0, []))
  {
  }

  /** Neither argument's letter case matters. */
  lemma CaseInsensitive(query: string, target: string)
    ensures Score(query, target) == Score(Lower(query), target)
    ensures Score(query, target) == Score(query, Lower(target))
    ensures ScoreAndPositions(query, target) == ScoreAndPositions(Lower(query), Lower(target))
  {
    LowerIdempotent(query);
    LowerIdempotent(target);
  }

  /** Every query character earns at least one point. */
  lemma ScoreAtLeastQueryLength(query: string, target: string)
    requires Score(query, target).Some?
    ensures Score(query, target).value >= |query|
  {
    var q := Lower(query);
    var t := Lower(target);
    ScanInvariant(q, t, |t|);
  }

  /** A target that starts with the query (in any case) always matches and scores above 50. */
  lemma PrefixMatchScoresAbove50(query: string, target: string)
    requires query != ""
    requires StartsWith(Lower(target), Lower(query))
    ensures Score(query, target).Some?
    ensures Score(query, target).value > 50
  {
    var q := Lower(query);
    var t := Lower(target);
    var e := seq(|q|, i => i);
    assert Embedding(e, q, t);
    ScanMatchesIffSubsequence(q, t);
    ScanInvariant(q, t, |t|);
  }

  /** Equal strings (in any case) score above 100. */
  lemma ExactMatchScoresAbove100(query: string, target: string)
    requires query != ""
    requires Lower(query) == Lower(target)
    ensures Score(query, target).Some?
    ensures Score(query, target).value > 100
  {
    PrefixMatchScoresAbove50(query, target);
    ScanInvariant(Lower(query), Lower(target), |target|);
  }

  /** The positions variant agrees with the plain scorer. */
  lemma PositionsAgree(query: string, target: string)
    ensures ScoreAndPositions(query, target).Some? <==> Score(query, target).Some?
    ensures Score(query, target).Some? ==> ScoreAndPositions(query, target).value.0 == Score(query, target).value
  {
  }

  /** The matched positions: strictly increasing, one per query character, each on an equal target character. */
  lemma PositionsSpellQuery(query: string, target: string)
    requires ScoreAndPositions(query, target).Some?
    ensures var p := ScoreAndPositions(query, target).value.1;
      Embedding(p, Lower(query), Lower(target))
  {
    ScanInvariant(Lower(query), Lower(target), |target|);
  }

  /** Once the whole query has matched, the rest of the scan changes nothing. */
  lemma {:induction false} ScanFinished(q: string, t: string, k: nat, j: nat)
    requires k <= j <= |t|
    requires Scan(q, t, k).matched == |q|
    ensures Scan(q, t, j) == Scan(q, t, k)
    decreases j
  {
    if j > k {
      ScanFinished(q, t, k, j - 1);
    }
  }

  lemma OnLowerCase(q: string, t: string)
    requires IsLower(q) && IsLower(t)
    ensures Score(q, t) == if ScanResult(q, t).Some? then Some(ScanResult(q, t).value.0) else None
  {
    LowerOfLower(q);
    LowerOfLower(t);
  }

  lemma RgIsSubsequence() ensures IsSubsequence("rg", "ripgrep") {
    assert Embedding([0, 3], "rg", "ripgrep");
  }

  lemma GrIsSubsequence() ensures IsSubsequence("gr", "ripgrep") {
    assert Embedding([3, 4], "gr", "ripgrep");
  }

  lemma FdfIsSubsequence() ensures IsSubsequence("fdf", "fd-find") {
    assert Embedding([0, 1, 3], "fdf", "fd-find");
  }

  /** Unit-test expectations: a subsequence matches. */
  lemma RgMatches()
    ensures Score("rg", "ripgrep").Some?
  {
    LowerOfLower("ripgrep");
    LowerOfLower("rg");
    RgIsSubsequence();
    MatchIffSubsequence("rg", "ripgrep");
  }

  lemma GrMatches()
    ensures Score("gr", "ripgrep").Some?
  {
    LowerOfLower("ripgrep");
    LowerOfLower("gr");
    GrIsSubsequence();
    MatchIffSubsequence("gr", "ripgrep");
  }

  lemma FdfMatches()
    ensures Score("fdf", "fd-find").Some?
  {
    LowerOfLower("fd-find");
    LowerOfLower("fdf");
    FdfIsSubsequence();
    MatchIffSubsequence("fdf", "fd-find");
  }

  /** A query whose first character is absent from the target is no subsequence of it. */
  lemma FirstMissingNoSubsequence(q: string, t: string)
    requires |q| > 0 && q[0] !in t
    ensures !IsSubsequence(q, t)
  {
  }

  /** Unit-test expectation: characters absent from the target never match. */
  lemma NonSubsequenceFails()
    ensures Score("xyz", "ripgrep").None?
  {
    LowerOfLower("xyz");
    LowerOfLower("ripgrep");
    FirstMissingNoSubsequence("xyz", "ripgrep");
    MatchIffSubsequence("xyz", "ripgrep");
  }

  // The scans below take query and target as parameters fixed by `requires`, and follow
  // the loop one index at a time.

  lemma ScanBoundary(q: string, t: string)
    requires q == "f" && t == "fd-find"
    ensures ScanResult(q, t) == Some((54, [0]))
  {
    assert Scan(q, t, 0) == Start;
    assert Scan(q, t, 1) == ScanState(1, 4, Some(0), 0, [0]);
    ScanFinished(q, t, 1, 7);
    assert t[..1] == q;
  }

  lemma ScanMidWord(q: string, t: string)
    requires q == "i" && t == "fd-find"
    ensures ScanResult(q, t) == Some((1, [4]))
  {
    assert Scan(q, t, 0) == Start;
    assert Scan(q, t, 1) == Start;
    assert Scan(q, t, 2) == Start;
    assert Scan(q, t, 3) == Start;
    assert Scan(q, t, 4) == Start;
    assert Scan(q, t, 5) == ScanState(1, 1, Some(4), 0, [4]);
    ScanFinished(q, t, 5, 7);
    assert t[0] != q[0];
  }

  /** A word-boundary match ("f" in "fd-find") beats a mid-word one ("i"). */
  lemma BoundaryBeatsMidWord()
    ensures Score("f", "fd-find") == Some(54)
    ensures Score("i", "fd-find") == Some(1)
  {
    ScanBoundary("f", "fd-find");
    ScanMidWord("i", "fd-find");
    OnLowerCase("f", "fd-find");
    OnLowerCase("i", "fd-find");
  }

  lemma ScanRun(q: string, t: string)
    requires q == "rip" && t == "ripgrep"
    ensures ScanResult(q, t) == Some((62, [0, 1, 2]))
  {
    assert Scan(q, t, 0) == Start;
    assert Scan(q, t, 1) == ScanState(1, 4, Some(0), 0, [0]);
    assert Scan(q, t, 2) == ScanState(2, 7, Some(1), 2, [0, 1]);
    assert Scan(q, t, 3) == ScanState(3, 12, Some(2), 4, [0, 1, 2]);
    ScanFinished(q, t, 3, 7);
    assert t[..3] == q;
  }

  lemma ScanSpread(q: string, t: string)
    requires q == "rgp" && t == "ripgrep"
    ensures ScanResult(q, t) == Some((6, [0, 3, 6]))
  {
    var one := ScanState(1, 4, Some(0), 0, [0]);
    var two := ScanState(2, 5, Some(3), 0, [0, 3]);
    assert Scan(q, t, 0) == Start;
    assert Scan(q, t, 1) == one;
    assert Scan(q, t, 2) == one;
    assert Scan(q, t, 3) == one;
    assert Scan(q, t, 4) == two;
    assert Scan(q, t, 5) == two;
    assert Scan(q, t, 6) == two;
    assert Scan(q, t, 7) == ScanState(3, 6, Some(6), 0, [0, 3, 6]);
    assert t[1] != q[1];
  }

  /** A run of consecutive matches ("rip" in "ripgrep") beats a spread-out one ("rgp"). */
  lemma RunBeatsSpread()
    ensures Score("rip", "ripgrep") == Some(62)
    ensures Score("rgp", "ripgrep") == Some(6)
  {
    ScanRun("rip", "ripgrep");
    ScanSpread("rgp", "ripgrep");
    OnLowerCase("rip", "ripgrep");
    OnLowerCase("rgp", "ripgrep");
  }
}
