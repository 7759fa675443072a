// Display helpers: label colours, match highlighting and the usage-health dot.
//
// Colours are the theme's palette roles; which RGB value a role has is a
// rendering concern and is not modelled.

module UiHelpers {
  import opened Text
  import Fuzzy

  datatype Color = Blue | Green | Yellow | Mauve | Peach | Teal | Red

  /** The label palette, in the order `label_color` indexes it. */
  const LabelPalette: seq<Color> := [Blue, Green, Yellow, Mauve, Peach, Teal, Red]

  /** The UTF-8 encoding of one character. */
  function Utf8(c: char): (r: seq<nat>)
    ensures 1 <= |r| <= 4
    ensures forall i :: 0 <= i < |r| ==> r[i] < 256
  {
    var cp := c as int;
    if cp < 0x80 then [cp]
    else if cp < 0x800 then [0xC0 + cp / 64, 0x80 + cp % 64]
    else if cp < 0x1_0000 then [0xE0 + cp / 4096, 0x80 + (cp / 64) % 64, 0x80 + cp % 64]
    else [0xF0 + cp / 262144, 0x80 + (cp / 4096) % 64, 0x80 + (cp / 64) % 64, 0x80 + cp % 64]
  }

  function SumOf(bs: seq<nat>): nat {
    if |bs| == 0 then 0 else bs[0] + SumOf(bs[1..])
  }

  /** The sum of the label's UTF-8 bytes. */
  function ByteSum(tag: string): nat {
    if |tag| == 0 then 0 else SumOf(Utf8(tag[0])) + ByteSum(tag[1..])
  }

  /** `label_color`: the palette entry at (byte sum) mod 7. */
  function LabelColor(tag: string): (c: Color)
    ensures c in LabelPalette
  {
    LabelPalette[ByteSum(tag) % |LabelPalette|]
  }

  lemma {:induction false} ByteSumConcat(a: string, b: string)
    ensures ByteSum(a + b) == ByteSum(a) + ByteSum(b)
  {
    if |a| == 0 {
      assert a + b == b;
    } else {
      assert (a + b)[0] == a[0];
      assert (a + b)[1..] == a[1..] + b;
      ByteSumConcat(a[1..], b);
    }
  }

  /** The colour depends only on the bytes, not on their order: `ab` and `ba` share a colour. */
  lemma LabelColorIgnoresOrder(a: string, b: string)
    ensures LabelColor(a + b) == LabelColor(b + a)
  {
    ByteSumConcat(a, b);
    ByteSumConcat(b, a);
  }

  // ---------------------------------------------------------------------
  // Health indicator.  The source computes the whole days since the last use
  // from a timestamp and the clock; the model takes that number as input.

  /** `health_indicator`'s decision table. */
  function HealthColor(useCount: int, daysSinceUse: Option<int>): (c: Color)
    ensures useCount == 0 ==> c == Red
    ensures useCount != 0 && daysSinceUse.None? ==> c == Green
    ensures useCount != 0 && daysSinceUse.Some? ==>
      c == (if daysSinceUse.value < 7 then Green else if daysSinceUse.value < 30 then Yellow else Red)
  {
    match (useCount, daysSinceUse)
    case (0, _) => Red
    case (_, Some(days)) => if days < 7 then Green else if days < 30 then Yellow else Red
    case (_, None) => Green
  }

  function Staleness(c: Color): nat {
    match c
    case Green => 0
    case Yellow => 1
    case _ => 2
  }

  /** A tool that has not been used for longer never looks healthier. */
  lemma HealthWorsensWithAge(useCount: int, d1: int, d2: int)
    requires d1 <= d2
    ensures Staleness(HealthColor(useCount, Some(d1))) <= Staleness(HealthColor(useCount, Some(d2)))
  {
  }

  // ---------------------------------------------------------------------
  // Match highlighting.

  datatype Span = Span(text: string, highlighted: bool)

  function Concat(spans: seq<Span>): string {
    if |spans| == 0 then "" else Concat(spans[..|spans| - 1]) + spans[|spans| - 1].text
  }

  function Repeat(n: nat, b: bool): (r: seq<bool>)
    ensures |r| == n && forall i :: 0 <= i < n ==> r[i] == b
  {
    if n == 0 then [] else Repeat(n - 1, b) + [b]
  }

  /** One flag per character of `Concat(spans)`: is it drawn in the highlight colour. */
  function Marks(spans: seq<Span>): seq<bool> {
    if |spans| == 0 then []
    else
      var last := spans[|spans| - 1];
      Marks(spans[..|spans| - 1]) + Repeat(|last.text|, last.highlighted)
  }

  lemma AppendSpan(spans: seq<Span>, s: Span)
    ensures Concat(spans + [s]) == Concat(spans) + s.text
    ensures Marks(spans + [s]) == Marks(spans) + Repeat(|s.text|, s.highlighted)
  {
    assert (spans + [s])[..|spans|] == spans;
  }

  predicate NonEmptySpans(spans: seq<Span>) {
    forall j :: 0 <= j < |spans| ==> |spans[j].text| > 0
  }

  predicate Alternating(spans: seq<Span>) {
    forall j :: 0 < j < |spans| ==> spans[j - 1].highlighted != spans[j].highlighted
  }

  /** `highlight_matches`: splits `name` into runs of matched and unmatched characters. */
  method HighlightMatches(name: string, query: string) returns (spans: seq<Span>)
    ensures query == "" || Fuzzy.ScoreAndPositions(query, name).None? ==> spans == [Span(name, false)]
    ensures query != "" && Fuzzy.ScoreAndPositions(query, name).Some? ==>
      var positions := Fuzzy.ScoreAndPositions(query, name).value.1;
      && Concat(spans) == name
      && Marks(spans) == seq(|name|, i => i in positions)
      && NonEmptySpans(spans)
      && Alternating(spans)
  {
    if query == "" {
      return [Span(name, false)];
    }
    var m := Fuzzy.FuzzyMatchPositions(query, name);
    if m.None? {
      return [Span(name, false)];
    }
    spans := SplitRuns(name, m.value.1);
  }

  /** Non-empty spans whose colours alternate, stated span by span from the end. */
  predicate WellFormedRuns(spans: seq<Span>) {
    |spans| == 0 ||
    (var n := |spans| - 1;
     && |spans[n].text| > 0
     && (n > 0 ==> spans[n - 1].highlighted != spans[n].highlighted)
     && WellFormedRuns(spans[..n]))
  }

  lemma {:induction false} WellFormedRunsShape(spans: seq<Span>)
    requires WellFormedRuns(spans)
    ensures NonEmptySpans(spans) && Alternating(spans)
  {
    if |spans| > 0 {
      var n := |spans| - 1;
      WellFormedRunsShape(spans[..n]);
      assert forall j :: 0 <= j < n ==> spans[..n][j] == spans[j];
    }
  }

  /** Closing the current run appends one span of the opposite colour to the last one. */
  lemma PushRun(spans: seq<Span>, current: string, b: bool)
    requires |current| > 0
    requires WellFormedRuns(spans)
    requires |spans| > 0 ==> spans[|spans| - 1].highlighted != b
    ensures WellFormedRuns(spans + [Span(current, b)])
  {
    assert (spans + [Span(current, b)])[..|spans|] == spans;
  }

  /** A run of equal marks is the repetition of that mark. */
  lemma RunMarks(want: seq<bool>, done: nat, i: nat, b: bool)
    requires done <= i <= |want|
    requires forall k :: done <= k < i ==> want[k] == b
    ensures want[..done] + Repeat(i - done, b) == want[..i]
  {
  }

  /** What the loop of `highlight_matches` keeps true after `i` characters: the closed spans
      cover `name[..done]`, the open run `current` covers `name[done..i]` in colour `inHighlight`. */
  ghost predicate RunsSoFar(name: string, want: seq<bool>, i: nat, done: nat,
                            spans: seq<Span>, current: string, inHighlight: bool)
  {
    && done <= i <= |name| == |want|
    && (i > 0 ==> done < i)
    && Concat(spans) == name[..done]
    && Marks(spans) == want[..done]
    && current == name[done..i]
    && (forall k :: done <= k < i ==> want[k] == inHighlight)
    && WellFormedRuns(spans)
    && (|spans| > 0 ==> spans[|spans| - 1].highlighted != inHighlight)
  }

  /** Closing the open run. */
  lemma CloseRun(name: string, want: seq<bool>, i: nat, done: nat,
                 spans: seq<Span>, current: string, inHighlight: bool)
    requires RunsSoFar(name, want, i, done, spans, current, inHighlight)
    requires |current| > 0
    ensures var spans' := spans + [Span(current, inHighlight)];
      && Concat(spans') == name[..i]
      && Marks(spans') == want[..i]
      && WellFormedRuns(spans')
  {
    PushRun(spans, current, inHighlight);
    AppendSpan(spans, Span(current, inHighlight));
    RunMarks(want, done, i, inHighlight);
    assert name[..done] + name[done..i] == name[..i];
  }

  /** One iteration of the loop, in each of its three cases. */
  lemma RunsStep(name: string, want: seq<bool>, i: nat, done: nat,
                 spans: seq<Span>, current: string, inHighlight: bool)
    requires RunsSoFar(name, want, i, done, spans, current, inHighlight)
    requires i < |name|
    ensures want[i] != inHighlight && |current| > 0 ==>
      RunsSoFar(name, want, i + 1, i, spans + [Span(current, inHighlight)], [name[i]], want[i])
    ensures want[i] != inHighlight && |current| == 0 ==>
      RunsSoFar(name, want, i + 1, done, spans, current + [name[i]], want[i])
    ensures want[i] == inHighlight ==>
      RunsSoFar(name, want, i + 1, done, spans, current + [name[i]], inHighlight)
  {
    assert name[done..i + 1] == name[done..i] + [name[i]];
    if want[i] != inHighlight && |current| > 0 {
      CloseRun(name, want, i, done, spans, current, inHighlight);
      assert name[i..i + 1] == [name[i]];
    }
  }

  /** The loop of `highlight_matches`: one span per maximal run of equally marked characters. */
  method SplitRuns(name: string, positions: seq<nat>) returns (spans: seq<Span>)
    ensures Concat(spans) == name
    ensures Marks(spans) == seq(|name|, i => i in positions)
    ensures NonEmptySpans(spans) && Alternating(spans)
  {
    ghost var want := seq(|name|, i => i in positions);
    ghost var done := 0;
    spans := [];
    var current := "";
    var inHighlight := false;
    for i := 0 to |name|
      invariant RunsSoFar(name, want, i, done, spans, current, inHighlight)
    {
      var shouldHighlight := i in positions;
      assert shouldHighlight == want[i];
      RunsStep(name, want, i, done, spans, current, inHighlight);
      if shouldHighlight != inHighlight {
        if |current| > 0 {
          spans := spans + [Span(current, inHighlight)];
          current := "";
          done := i;
        }
        inHighlight := shouldHighlight;
      }
      current := current + [name[i]];
    }
    if |current| > 0 {
      CloseRun(name, want, |name|, done, spans, current, inHighlight);
      spans := spans + [Span(current, inHighlight)];
    }
    assert name[..|name|] == name;
    assert want[..|name|] == want;
    WellFormedRunsShape(spans);
  }
}
