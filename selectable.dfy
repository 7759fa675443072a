// List cursors: the default methods every navigable list shares, stated on
// the pair (selected index, list length), and the bundle list that uses them.

module Selectable {
  import opened Text
  import opened AppTypes

  /** `select_next`: one further, but not past the last item; nothing on an empty list. */
  function SelectNext(idx: nat, len: nat): nat {
    if len == 0 then idx else if idx + 1 < len - 1 then idx + 1 else len - 1
  }

  /** `select_prev`: one back, stopping at 0, whatever the length. */
  function SelectPrev(idx: nat): nat {
    if idx == 0 then 0 else idx - 1
  }

  function SelectFirst(): nat { 0 }

  /** `select_last`: the last item; nothing on an empty list. */
  function SelectLast(idx: nat, len: nat): nat {
    if len == 0 then idx else len - 1
  }

  /** `select(index)`: `index` clamped to the last item; nothing on an empty list. */
  function SelectAt(idx: nat, index: nat, len: nat): nat {
    if len == 0 then idx else if index < len - 1 then index else len - 1
  }

  /** Each move leaves a valid cursor valid, and moves onto the list from anywhere when it is
      not empty (all but `select_prev`, which only ever decreases the index). */
  lemma MovesStayInRange(idx: nat, index: nat, len: nat)
    ensures len > 0 ==> SelectNext(idx, len) < len && SelectLast(idx, len) < len && SelectAt(idx, index, len) < len
    ensures idx < len ==> SelectPrev(idx) < len && SelectFirst() < len
    ensures len == 0 ==> SelectNext(idx, len) == idx && SelectLast(idx, len) == idx && SelectAt(idx, index, len) == idx
  {
  }

  /** Next and previous undo each other away from the ends; next never moves back, previous
      never moves forward, and both stop at the ends. */
  lemma NextPrevInverse(idx: nat, len: nat)
    requires idx < len
    ensures idx + 1 < len ==> SelectPrev(SelectNext(idx, len)) == idx
    ensures idx > 0 ==> SelectNext(SelectPrev(idx), len) == idx
    ensures idx <= SelectNext(idx, len) && SelectPrev(idx) <= idx
    ensures idx == len - 1 <==> SelectNext(idx, len) == idx
    ensures idx == 0 <==> SelectPrev(idx) == idx
  {
  }

  /** `select(index)` picks `index` itself whenever it is on the list, and choosing twice is
      choosing once. */
  lemma SelectAtSpec(idx: nat, index: nat, len: nat)
    ensures index < len ==> SelectAt(idx, index, len) == index
    ensures index >= len && len > 0 ==> SelectAt(idx, index, len) == len - 1
    ensures SelectAt(SelectAt(idx, index, len), index, len) == SelectAt(idx, index, len)
  {
  }

  /** The bundle list of the Bundles tab. */
  class BundleState {
    var items: seq<Bundle>
    var selected: nat

    /** `BundleState::new`: the given bundles, cursor on the first. */
    constructor (bundles: seq<Bundle>)
      ensures items == bundles && selected == 0
    {
      items := bundles;
      selected := 0;
    }

    function Len(): nat
      reads this
    {
      |items|
    }

    predicate IsEmpty()
      reads this
    {
      |items| == 0
    }

    method Next()
      modifies this
      ensures items == old(items) && selected == SelectNext(old(selected), |items|)
    {
      if |items| > 0 {
        selected := if selected + 1 < |items| - 1 then selected + 1 else |items| - 1;
      }
    }

    method Prev()
      modifies this
      ensures items == old(items) && selected == SelectPrev(old(selected))
    {
      selected := if selected == 0 then 0 else selected - 1;
    }

    method First()
      modifies this
      ensures items == old(items) && selected == SelectFirst()
    {
      selected := 0;
    }

    method Last()
      modifies this
      ensures items == old(items) && selected == SelectLast(old(selected), |items|)
    {
      if |items| > 0 {
        selected := |items| - 1;
      }
    }

    method Select(index: nat)
      modifies this
      ensures items == old(items) && selected == SelectAt(old(selected), index, |items|)
    {
      if |items| > 0 {
        selected := if index < |items| - 1 then index else |items| - 1;
      }
    }

    /** `selected_bundle`: the bundle under the cursor, if the cursor is on the list. */
    function SelectedBundle(): (r: Option<Bundle>)
      reads this
      ensures r.Some? <==> selected < |items|
      ensures r.Some? ==> r.value == items[selected]
    {
      Get(selected)
    }

    function Get(index: nat): (r: Option<Bundle>)
      reads this
      ensures r.Some? <==> index < |items|
      ensures r.Some? ==> r.value == items[index]
    {
      if index < |items| then Some(items[index]) else None
    }

    /** `reload`: a failed database read changes nothing; otherwise the new list, the cursor kept
        but clamped to the last bundle, or 0 when the list is empty. */
    method Reload(loaded: Option<seq<Bundle>>) returns (ok: bool)
      modifies this
      ensures ok <==> loaded.Some?
      ensures loaded.None? ==> items == old(items) && selected == old(selected)
      ensures loaded.Some? ==> items == loaded.value && selected == ReloadedIndex(old(selected), |items|)
    {
      if loaded.None? {
        return false;
      }
      items := loaded.value;
      var upper := if |items| == 0 then 0 else |items| - 1;
      selected := if selected < upper then selected else upper;
      return true;
    }
  }

  /** The cursor after a reload: `min(old, len - 1)` with `len - 1` saturating at 0. */
  function ReloadedIndex(old_: nat, len: nat): nat {
    var upper := if len == 0 then 0 else len - 1;
    if old_ < upper then old_ else upper
  }

  /** After a reload the cursor is on the list whenever the list is non-empty, and it stays
      where it was when that position still exists. */
  lemma ReloadedIndexSpec(old_: nat, len: nat)
    ensures len > 0 ==> ReloadedIndex(old_, len) < len
    ensures len == 0 ==> ReloadedIndex(old_, len) == 0
    ensures old_ < len ==> ReloadedIndex(old_, len) == old_
  {
  }
}
