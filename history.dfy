// The undo/redo log: two stacks of `UndoableAction`, each bounded by the
// same size, the oldest entry dropped first.

module UndoHistory {
  import opened Text
  import opened AppTypes

  /** The log's fields; the top of a stack is its last element. */
  datatype HistoryState = HistoryState(undo: seq<UndoableAction>, redo: seq<UndoableAction>, maxSize: nat)

  /** Each stack is within the bound. */
  predicate Bounded(h: HistoryState) {
    |h.undo| <= h.maxSize && |h.redo| <= h.maxSize
  }

  /** The stronger bound the App keeps: both stacks together are within the bound. */
  predicate JointlyBounded(h: HistoryState) {
    |h.undo| + |h.redo| <= h.maxSize
  }

  /** `remove(0)` on a full but empty stack (a bound of 0) panics; `push` may only run when
      that cannot happen. */
  predicate CanDropOldest(stack: seq<UndoableAction>, maxSize: nat) {
    |stack| < maxSize || |stack| > 0
  }

  /** Drops the oldest entry when the stack is full, then pushes. */
  function PushBounded(stack: seq<UndoableAction>, maxSize: nat, a: UndoableAction): seq<UndoableAction>
    requires CanDropOldest(stack, maxSize)
  {
    (if |stack| >= maxSize then stack[1..] else stack) + [a]
  }

  /** `push`: records a new action and forgets everything that could be redone. */
  function Push(h: HistoryState, a: UndoableAction): HistoryState
    requires CanDropOldest(h.undo, h.maxSize)
  {
    h.(undo := PushBounded(h.undo, h.maxSize, a), redo := [])
  }

  function PushRedo(h: HistoryState, a: UndoableAction): HistoryState
    requires CanDropOldest(h.redo, h.maxSize)
  {
    h.(redo := PushBounded(h.redo, h.maxSize, a))
  }

  /** `pop_undo`: the newest undo entry, if any, and the log without it. */
  function PopUndo(h: HistoryState): (Option<UndoableAction>, HistoryState) {
    if |h.undo| == 0 then (None, h)
    else (Some(h.undo[|h.undo| - 1]), h.(undo := h.undo[..|h.undo| - 1]))
  }

  function PopRedo(h: HistoryState): (Option<UndoableAction>, HistoryState) {
    if |h.redo| == 0 then (None, h)
    else (Some(h.redo[|h.redo| - 1]), h.(redo := h.redo[..|h.redo| - 1]))
  }

  function CanUndo(h: HistoryState): bool { |h.undo| > 0 }
  function CanRedo(h: HistoryState): bool { |h.redo| > 0 }

  class ActionHistory {
    var undoStack: seq<UndoableAction>
    var redoStack: seq<UndoableAction>
    var maxSize: nat

    function State(): HistoryState
      reads this
    {
      HistoryState(undoStack, redoStack, maxSize)
    }

    /** `ActionHistory::new(max_size)`: both stacks empty. */
    constructor (maxSize: nat)
      ensures State() == HistoryState([], [], maxSize)
    {
      undoStack := [];
      redoStack := [];
      this.maxSize := maxSize;
    }

    method PushAction(a: UndoableAction)
      requires CanDropOldest(undoStack, maxSize)
      modifies this
      ensures State() == Push(old(State()), a)
    {
      if |undoStack| >= maxSize {
        undoStack := undoStack[1..];
      }
      undoStack := undoStack + [a];
      redoStack := [];
    }

    method PopUndoAction() returns (a: Option<UndoableAction>)
      modifies this
      ensures (a, State()) == PopUndo(old(State()))
    {
      if |undoStack| == 0 {
        return None;
      }
      a := Some(undoStack[|undoStack| - 1]);
      undoStack := undoStack[..|undoStack| - 1];
    }

    method PushRedoAction(a: UndoableAction)
      requires CanDropOldest(redoStack, maxSize)
      modifies this
      ensures State() == PushRedo(old(State()), a)
    {
      if |redoStack| >= maxSize {
        redoStack := redoStack[1..];
      }
      redoStack := redoStack + [a];
    }

    method PopRedoAction() returns (a: Option<UndoableAction>)
      modifies this
      ensures (a, State()) == PopRedo(old(State()))
    {
      if |redoStack| == 0 {
        return None;
      }
      a := Some(redoStack[|redoStack| - 1]);
      redoStack := redoStack[..|redoStack| - 1];
    }

    /** `redo` pushes straight onto the undo stack, without the bound check. */
    method PushUndoUnbounded(a: UndoableAction)
      modifies this
      ensures State() == old(State()).(undo := old(undoStack) + [a])
    {
      undoStack := undoStack + [a];
    }
  }

  // ---------------------------------------------------------------------
  // Properties.

  /** A bounded push keeps the stack within the bound, keeps the newest entries in order and
      puts the new one on top. */
  lemma PushBoundedSpec(stack: seq<UndoableAction>, maxSize: nat, a: UndoableAction)
    requires CanDropOldest(stack, maxSize) && |stack| <= maxSize
    ensures var r := PushBounded(stack, maxSize, a);
      |r| <= maxSize
    ensures var r := PushBounded(stack, maxSize, a);
      && r[|r| - 1] == a
      && r[..|r| - 1] == (if |stack| >= maxSize then stack[1..] else stack)
      && |r| == (if |stack| >= maxSize then |stack| else |stack| + 1)
  {
    var base := if |stack| >= maxSize then stack[1..] else stack;
    assert (base + [a])[..|base|] == base;
  }

  /** With a bound of at least one, `push` and `push_redo` keep both stacks bounded,
      and `push` empties the redo stack. */
  lemma PushKeepsBounded(h: HistoryState, a: UndoableAction)
    requires Bounded(h) && h.maxSize >= 1
    ensures CanDropOldest(h.undo, h.maxSize) && CanDropOldest(h.redo, h.maxSize)
    ensures Bounded(Push(h, a)) && Push(h, a).redo == [] && CanUndo(Push(h, a))
    ensures Bounded(PushRedo(h, a)) && PushRedo(h, a).undo == h.undo
  {
  }

  /** With a bound of 0, a first `push` finds a full, empty stack: `remove(0)` would panic,
      which is why a bound of at least one is needed. */
  lemma ZeroBoundCannotPush()
    ensures !CanDropOldest([], 0)
  {
  }

  /** Popping returns what was pushed last (LIFO), and the stack below is unchanged. */
  lemma PopAfterPush(h: HistoryState, a: UndoableAction)
    requires CanDropOldest(h.undo, h.maxSize) && CanDropOldest(h.redo, h.maxSize)
    ensures PopUndo(Push(h, a)).0 == Some(a)
    ensures PopUndo(Push(h, a)).1.undo == (if |h.undo| >= h.maxSize then h.undo[1..] else h.undo)
    ensures PopRedo(PushRedo(h, a)).0 == Some(a)
    ensures PopRedo(PushRedo(h, a)).1 == h.(redo := if |h.redo| >= h.maxSize then h.redo[1..] else h.redo)
  {
    var u := if |h.undo| >= h.maxSize then h.undo[1..] else h.undo;
    assert (u + [a])[..|u|] == u;
    var r := if |h.redo| >= h.maxSize then h.redo[1..] else h.redo;
    assert (r + [a])[..|r|] == r;
  }

  /** `can_undo`/`can_redo` hold exactly when popping yields an entry. */
  lemma CanIffPopSome(h: HistoryState)
    ensures CanUndo(h) <==> PopUndo(h).0.Some?
    ensures CanRedo(h) <==> PopRedo(h).0.Some?
    ensures !CanUndo(h) ==> PopUndo(h).1 == h
    ensures !CanRedo(h) ==> PopRedo(h).1 == h
  {
  }

  /** The App's undo step moves one entry from the undo stack to the redo stack, its redo step
      moves one back; with the joint bound in place, neither step nor a new push breaks it,
      and on those paths `push_redo` never has to drop anything. */
  lemma JointBoundPreserved(h: HistoryState, a: UndoableAction, current: UndoableAction)
    requires JointlyBounded(h) && h.maxSize >= 1
    ensures CanDropOldest(h.undo, h.maxSize) && JointlyBounded(Push(h, a))
    ensures CanUndo(h) ==>
      var h1 := PopUndo(h).1;
      && CanDropOldest(h1.redo, h1.maxSize)
      && |h1.redo| < h1.maxSize
      && JointlyBounded(PushRedo(h1, current))
    ensures CanRedo(h) ==>
      var h1 := PopRedo(h).1;
      JointlyBounded(h1.(undo := h1.undo + [current]))
  {
  }

  /** The joint bound implies each stack's own bound. */
  lemma JointImpliesBounded(h: HistoryState)
    requires JointlyBounded(h)
    ensures Bounded(h)
  {
  }

  /** The size-3 scenario: two pushes, pop gives "b", push it for redo, pop redo gives "b". */
  lemma ScenarioPushPop()
    ensures var h0 := HistoryState([], [], 3);
      && !CanUndo(h0) && !CanRedo(h0)
      && var h2 := Push(Push(h0, Filter("a")), Filter("b"));
      && CanUndo(h2)
      && PopUndo(h2).0 == Some(Filter("b"))
      && var h3 := PushRedo(PopUndo(h2).1, Filter("b"));
      && CanRedo(h3)
      && PopRedo(h3).0 == Some(Filter("b"))
  {
  }

  /** The size-2 scenario: three pushes keep only "b" and "c". */
  lemma ScenarioMaxSize()
    ensures var h := Push(Push(Push(HistoryState([], [], 2), Filter("a")), Filter("b")), Filter("c"));
      h.undo == [Filter("b"), Filter("c")]
  {
    var h1 := Push(HistoryState([], [], 2), Filter("a"));
    assert h1.undo == [Filter("a")];
    var h2 := Push(h1, Filter("b"));
    assert h2.undo == [Filter("a"), Filter("b")];
    var h3 := Push(h2, Filter("c"));
    assert h2.undo[1..] == [Filter("b")];
  }
}
