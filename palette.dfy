// The command palette: the text typed after ':' and a bounded history of
// executed commands that Up/Down walk through.

module Palette {
  import opened Text
  import opened AppTypes

  /** The palette's fields. `index` is `None` while the user is not walking the history. */
  datatype PaletteState = PaletteState(
    input: string,
    history: seq<string>,
    index: Option<nat>,
    temp: string,
    maxHistory: nat)

  /** The history fits its bound and the walk position points into it. */
  predicate Inv(s: PaletteState) {
    && |s.history| <= s.maxHistory
    && (s.index.Some? ==> s.index.value < |s.history|)
  }

  /** Up arrow: start walking from the newest entry, or step to an older one. */
  function HistoryPrev(s: PaletteState): PaletteState
    requires Inv(s)
  {
    if |s.history| == 0 then s
    else
      var s' := match s.index
        case None => s.(temp := s.input, index := Some(|s.history| - 1))
        case Some(i) => if i == 0 then s else s.(index := Some(i - 1));
      s'.(input := s.history[s'.index.value])
  }

  /** Down arrow: step to a newer entry, or leave the history and restore the saved input. */
  function HistoryNext(s: PaletteState): PaletteState
    requires Inv(s)
  {
    match s.index
    case None => s
    case Some(i) =>
      if i + 1 >= |s.history| then s.(index := None, input := s.temp)
      else s.(index := Some(i + 1), input := s.history[i + 1])
  }

  /** Appends `cmd` unless it is empty or repeats the newest entry; drops the oldest when over the bound. */
  function AddToHistory(s: PaletteState, cmd: string): PaletteState {
    if cmd == "" then s
    else if |s.history| > 0 && s.history[|s.history| - 1] == cmd then s
    else
      var h := s.history + [cmd];
      s.(history := if |h| > s.maxHistory then h[1..] else h)
  }

  function ClearHistoryNav(s: PaletteState): PaletteState {
    s.(index := None, temp := "")
  }

  function Clear(s: PaletteState): PaletteState {
    ClearHistoryNav(s.(input := ""))
  }

  class CommandPalette {
    var input: string
    var history: seq<string>
    var historyIndex: Option<nat>
    var historyTemp: string
    var maxHistory: nat

    function State(): PaletteState
      reads this
    {
      PaletteState(input, history, historyIndex, historyTemp, maxHistory)
    }

    predicate Valid()
      reads this
    {
      Inv(State())
    }

    /** `CommandPalette::new`: empty, with room for 50 commands. */
    constructor ()
      ensures Valid()
      ensures State() == PaletteState("", [], None, "", 50)
    {
      input := "";
      history := [];
      historyIndex := None;
      historyTemp := "";
      maxHistory := 50;
    }

    method HistoryPrevious()
      requires Valid()
      modifies this
      ensures Valid()
      ensures State() == HistoryPrev(old(State()))
    {
      if |history| == 0 {
        return;
      }
      match historyIndex {
        case None =>
          historyTemp := input;
          historyIndex := Some(|history| - 1);
        case Some(idx) =>
          if idx != 0 {
            historyIndex := Some(idx - 1);
          }
      }
      if historyIndex.Some? {
        input := history[historyIndex.value];
      }
      HistoryPrevKeepsInv(old(State()));
    }

    method HistoryNextEntry()
      requires Valid()
      modifies this
      ensures Valid()
      ensures State() == HistoryNext(old(State()))
    {
      match historyIndex {
        case None =>
        case Some(idx) =>
          if idx + 1 >= |history| {
            historyIndex := None;
            input := historyTemp;
          } else {
            historyIndex := Some(idx + 1);
            input := history[idx + 1];
          }
      }
    }

    method AddToHistoryEntry(cmd: string)
      requires Valid()
      modifies this
      ensures Valid()
      ensures State() == AddToHistory(old(State()), cmd)
    {
      if cmd == "" {
        return;
      }
      if |history| == 0 || history[|history| - 1] != cmd {
        history := history + [cmd];
        if |history| > maxHistory {
          history := history[1..];
        }
      }
    }

    method ClearHistoryNavigation()
      requires Valid()
      modifies this
      ensures Valid()
      ensures State() == ClearHistoryNav(old(State()))
    {
      historyIndex := None;
      historyTemp := "";
    }

    method ClearInput()
      requires Valid()
      modifies this
      ensures Valid()
      ensures State() == Clear(old(State()))
    {
      input := "";
      ClearHistoryNavigation();
    }
  }

  // ---------------------------------------------------------------------
  // Properties.

  lemma HistoryPrevKeepsInv(s: PaletteState)
    requires Inv(s)
    ensures Inv(HistoryPrev(s))
    ensures |s.history| > 0 ==> HistoryPrev(s).index.Some?
  {
  }

  /** Every operation keeps the history within its bound and the walk position in range. */
  lemma OperationsKeepInv(s: PaletteState, cmd: string)
    requires Inv(s)
    ensures Inv(HistoryPrev(s)) && Inv(HistoryNext(s)) && Inv(AddToHistory(s, cmd))
    ensures Inv(ClearHistoryNav(s)) && Inv(Clear(s))
  {
  }

  /** While walking, the input shows the entry the walk points at. */
  lemma PrevShowsEntry(s: PaletteState)
    requires Inv(s) && |s.history| > 0
    ensures var s' := HistoryPrev(s);
      s'.index.Some? && s'.input == s'.history[s'.index.value]
  {
  }

  /** Up then Down from outside the history gives back what the user had typed. */
  lemma PrevThenNextRestoresInput(s: PaletteState)
    requires Inv(s) && s.index.None?
    ensures HistoryNext(HistoryPrev(s)).input == s.input
    ensures HistoryNext(HistoryPrev(s)).index.None?
  {
  }

  /** Up moves towards older entries and stops at the oldest; Down moves towards newer ones. */
  lemma WalkDirection(s: PaletteState)
    requires Inv(s) && s.index.Some?
    ensures HistoryPrev(s).index.Some?
    ensures HistoryPrev(s).index.value == if s.index.value == 0 then 0 else s.index.value - 1
    ensures HistoryNext(s).index.Some? ==> HistoryNext(s).index.value == s.index.value + 1
  {
  }

  predicate NoAdjacentDuplicates(h: seq<string>) {
    forall i :: 0 < i < |h| ==> h[i - 1] != h[i]
  }

  /** Adding commands never creates two equal neighbours, and blank commands are ignored. */
  lemma AddKeepsNoAdjacentDuplicates(s: PaletteState, cmd: string)
    requires NoAdjacentDuplicates(s.history)
    ensures NoAdjacentDuplicates(AddToHistory(s, cmd).history)
    ensures cmd == "" ==> AddToHistory(s, cmd) == s
  {
    var h := s.history + [cmd];
    if cmd != "" && !(|s.history| > 0 && s.history[|s.history| - 1] == cmd) {
      assert NoAdjacentDuplicates(h);
      if |h| > s.maxHistory {
        assert forall i :: 0 < i < |h| - 1 ==> h[1..][i - 1] == h[i] && h[1..][i] == h[i + 1];
      }
    }
  }

  /** A new command becomes the newest entry; the rest is the newest part of the old history. */
  lemma AddAppendsNewest(s: PaletteState, cmd: string)
    requires cmd != "" && s.maxHistory >= 1 && |s.history| <= s.maxHistory
    requires |s.history| == 0 || s.history[|s.history| - 1] != cmd
    ensures var h := AddToHistory(s, cmd).history;
      && |h| == (if |s.history| < s.maxHistory then |s.history| + 1 else s.maxHistory)
      && h[|h| - 1] == cmd
      && h[..|h| - 1] == s.history[|s.history| + 1 - |h|..]
  {
    var h := s.history + [cmd];
    if |h| > s.maxHistory {
      assert h[1..][..|h| - 2] == s.history[1..];
    } else {
      assert h[..|h| - 1] == s.history;
    }
  }

  /** Clearing empties the input and ends history navigation. */
  lemma ClearResets(s: PaletteState)
    ensures Clear(s).input == "" && Clear(s).index.None? && Clear(s).temp == ""
    ensures Clear(s).history == s.history
  {
  }

  // ---------------------------------------------------------------------
  // The older inline copy of the same logic on the App itself: commands are
  // trimmed first, the bound is a fixed 50, and Up at the oldest entry
  // returns before rewriting the input.

  const InlineHistoryLimit := 50

  function InlineHistoryPrev(s: PaletteState): PaletteState
    requires Inv(s)
  {
    if |s.history| == 0 then s
    else match s.index
      case None => s.(temp := s.input, index := Some(|s.history| - 1), input := s.history[|s.history| - 1])
      case Some(i) => if i == 0 then s else s.(index := Some(i - 1), input := s.history[i - 1])
  }

  function InlineAddToHistory(s: PaletteState, cmd: string): PaletteState {
    var c := Trim(cmd);
    if c == "" then s
    else if |s.history| > 0 && s.history[|s.history| - 1] == c then s
    else
      var h := s.history + [c];
      s.(history := if |h| > InlineHistoryLimit then h[1..] else h)
  }

  /** The two copies agree, except that at the oldest entry the palette also rewrites the input. */
  lemma InlinePrevAgrees(s: PaletteState)
    requires Inv(s)
    ensures s.index == Some(0) && |s.history| > 0 ==>
      InlineHistoryPrev(s) == HistoryPrev(s).(input := s.input)
    ensures s.index != Some(0) ==> InlineHistoryPrev(s) == HistoryPrev(s)
  {
  }

  /** They differ only when the user has edited the recalled oldest entry. */
  lemma InlinePrevDiffersAfterEdit()
    ensures var s := PaletteState("edited", ["ls"], Some(0), "", 50);
      InlineHistoryPrev(s).input == "edited" && HistoryPrev(s).input == "ls"
  {
  }

  /** With the trimmed command and a bound of 50, the inline copy adds exactly what the palette adds. */
  lemma InlineAddAgrees(s: PaletteState, cmd: string)
    requires s.maxHistory == InlineHistoryLimit
    ensures InlineAddToHistory(s, cmd) == AddToHistory(s, Trim(cmd))
  {
  }

  /** The older copy keeps the walk position in range too. */
  lemma InlineOperationsKeepInv(s: PaletteState, cmd: string)
    requires Inv(s) && s.maxHistory == InlineHistoryLimit
    ensures Inv(InlineHistoryPrev(s)) && Inv(InlineAddToHistory(s, cmd))
  {
    InlineAddAgrees(s, cmd);
    OperationsKeepInv(s, Trim(cmd));
  }

  // ---------------------------------------------------------------------
  // Command suggestions.

  /** The command words of `COMMANDS`, in table order (descriptions are display text). */
  const Commands: seq<string> := [
    "q", "quit", "exit", "h", "help", "r", "refresh", "t", "theme", "s", "sort",
    "filter", "source", "src", "fav", "favorites", "starred",
    "1", "installed", "2", "available", "3", "updates", "4", "bundles", "5", "discover",
    "i", "install", "d", "delete", "uninstall", "u", "update", "upgrade",
    "undo", "z", "redo", "y", "c", "config", "settings", "cfg",
    "create-theme", "new-theme", "edit-theme"]

  const MaxSuggestions := 5

  /** The entries of `cmds` that start with `p`, in order. */
  function Matching(cmds: seq<string>, p: string): (r: seq<string>)
    ensures |r| <= |cmds|
  {
    if |cmds| == 0 then []
    else (if StartsWith(cmds[0], p) then [cmds[0]] else []) + Matching(cmds[1..], p)
  }

  /** `get_command_suggestions`: the first five commands that start with the trimmed,
      lowercased input; none for blank input. */
  function Suggestions(input: string): (r: seq<string>)
    ensures |r| <= MaxSuggestions
  {
    var p := Lower(Trim(input));
    if p == "" then []
    else
      var m := Matching(Commands, p);
      if |m| <= MaxSuggestions then m else m[..MaxSuggestions]
  }

  /** `s` occurs in `t` in order, possibly with gaps. */
  predicate InOrder(s: seq<string>, t: seq<string>)
    decreases |t|
  {
    if |s| == 0 then true
    else if |t| == 0 then false
    else if s[0] == t[0] then InOrder(s[1..], t[1..])
    else InOrder(s, t[1..])
  }

  lemma {:induction false} MatchingSpec(cmds: seq<string>, p: string)
    ensures forall x :: x in Matching(cmds, p) <==> x in cmds && StartsWith(x, p)
    ensures InOrder(Matching(cmds, p), cmds)
  {
    if |cmds| > 0 {
      MatchingSpec(cmds[1..], p);
      var m := Matching(cmds[1..], p);
      if StartsWith(cmds[0], p) {
        assert Matching(cmds, p) == [cmds[0]] + m;
      } else {
        assert Matching(cmds, p) == m;
        assert |m| > 0 ==> m[0] in m && m[0] != cmds[0];
      }
      assert cmds == [cmds[0]] + cmds[1..];
    }
  }

  lemma {:induction false} InOrderPrefix(s: seq<string>, t: seq<string>, k: nat)
    requires InOrder(s, t) && k <= |s|
    ensures InOrder(s[..k], t)
    decreases |t|
  {
    if k > 0 && |t| > 0 {
      if s[0] == t[0] {
        InOrderPrefix(s[1..], t[1..], k - 1);
        assert s[1..][..k - 1] == s[..k][1..];
      } else {
        InOrderPrefix(s, t[1..], k);
      }
    }
  }

  /** Suggestions are table commands that start with the normalised input, in table order;
      when fewer than five commands match, every match is suggested. */
  lemma SuggestionsSpec(input: string)
    ensures var r := Suggestions(input);
      && (forall x :: x in r ==> x in Commands && StartsWith(x, Lower(Trim(input))))
      && InOrder(r, Commands)
      && (|r| < MaxSuggestions ==>
            forall x :: x in Commands && StartsWith(x, Lower(Trim(input))) && Lower(Trim(input)) != "" ==> x in r)
  {
    var p := Lower(Trim(input));
    MatchingSpec(Commands, p);
    var m := Matching(Commands, p);
    if p != "" && |m| > MaxSuggestions {
      InOrderPrefix(m, Commands, MaxSuggestions);
      assert forall x :: x in m[..MaxSuggestions] ==> x in m;
    }
  }

  /** Blank input gets no suggestions. */
  lemma BlankInputNoSuggestions(input: string)
    requires AllWhitespace(input)
    ensures Suggestions(input) == []
  {
    TrimEmptyIffBlank(input);
  }

  // ---------------------------------------------------------------------
  // The command line on the App itself (the older copy), with the input mode.

  /** The new input after `autocomplete_command`: the first suggestion, if any. */
  function Autocomplete(input: string): (r: string)
    ensures Suggestions(input) == [] ==> r == input
    ensures Suggestions(input) != [] ==> r in Commands && StartsWith(r, Lower(Trim(input)))
  {
    SuggestionsSpec(input);
    var sg := Suggestions(input);
    if |sg| > 0 then sg[0] else input
  }

  class CommandLine {
    var mode: InputMode
    var commandInput: string
    var commandHistory: seq<string>
    var historyIndex: Option<nat>
    var historyTemp: string

    /** The command fields as a palette with the fixed bound of 50. */
    function State(): PaletteState
      reads this
    {
      PaletteState(commandInput, commandHistory, historyIndex, historyTemp, InlineHistoryLimit)
    }

    predicate Valid()
      reads this
    {
      Inv(State())
    }

    constructor ()
      ensures Valid() && mode == Normal
      ensures State() == PaletteState("", [], None, "", InlineHistoryLimit)
    {
      mode := Normal;
      commandInput := "";
      commandHistory := [];
      historyIndex := None;
      historyTemp := "";
    }

    /** `enter_command`: command mode with an empty line and history navigation reset. */
    method EnterCommand()
      requires Valid()
      modifies this
      ensures Valid() && mode == Command
      ensures State() == Clear(old(State()))
    {
      mode := Command;
      commandInput := "";
      ResetHistoryNav();
    }

    /** `exit_command`: back to normal mode with an empty line. */
    method ExitCommand()
      requires Valid()
      modifies this
      ensures Valid() && mode == Normal
      ensures State() == old(State()).(input := "")
    {
      mode := Normal;
      commandInput := "";
    }

    method CommandPush(c: char)
      requires Valid()
      modifies this
      ensures Valid() && mode == old(mode)
      ensures State() == old(State()).(input := old(commandInput) + [c])
    {
      commandInput := commandInput + [c];
    }

    /** Removes the last character; an empty line stays empty. */
    method CommandPop()
      requires Valid()
      modifies this
      ensures Valid() && mode == old(mode)
      ensures |old(commandInput)| > 0 ==> State() == old(State()).(input := old(commandInput)[..|old(commandInput)| - 1])
      ensures |old(commandInput)| == 0 ==> State() == old(State())
    {
      if |commandInput| > 0 {
        commandInput := commandInput[..|commandInput| - 1];
      }
    }

    method AutocompleteCommand()
      requires Valid()
      modifies this
      ensures Valid() && mode == old(mode)
      ensures State() == old(State()).(input := Autocomplete(old(commandInput)))
    {
      var suggestions := Suggestions(commandInput);
      if |suggestions| > 0 {
        commandInput := suggestions[0];
      }
    }

    method CommandHistoryPrev()
      requires Valid()
      modifies this
      ensures Valid() && mode == old(mode)
      ensures State() == InlineHistoryPrev(old(State()))
    {
      if |commandHistory| == 0 {
        return;
      }
      match historyIndex {
        case None =>
          historyTemp := commandInput;
          historyIndex := Some(|commandHistory| - 1);
        case Some(idx) =>
          if idx == 0 {
            return;
          }
          historyIndex := Some(idx - 1);
      }
      commandInput := commandHistory[historyIndex.value];
    }

    method CommandHistoryNext()
      requires Valid()
      modifies this
      ensures Valid() && mode == old(mode)
      ensures State() == HistoryNext(old(State()))
    {
      match historyIndex {
        case None =>
        case Some(idx) =>
          if idx + 1 >= |commandHistory| {
            historyIndex := None;
            commandInput := historyTemp;
          } else {
            historyIndex := Some(idx + 1);
            commandInput := commandHistory[idx + 1];
          }
      }
    }

    method AddToCommandHistory(cmd: string)
      requires Valid()
      modifies this
      ensures Valid() && mode == old(mode)
      ensures State() == InlineAddToHistory(old(State()), cmd)
    {
      var c := Trim(cmd);
      if c == "" {
        return;
      }
      if |commandHistory| == 0 || commandHistory[|commandHistory| - 1] != c {
        commandHistory := commandHistory + [c];
        if |commandHistory| > InlineHistoryLimit {
          commandHistory := commandHistory[1..];
        }
      }
    }

    method ResetHistoryNav()
      requires Valid()
      modifies this
      ensures Valid() && mode == old(mode)
      ensures State() == ClearHistoryNav(old(State()))
    {
      historyIndex := None;
      historyTemp := "";
    }
  }

  /** The App's history stays within 50 entries and never holds a blank command. */
  lemma InlineAddSpec(s: PaletteState, cmd: string)
    requires Inv(s) && s.maxHistory == InlineHistoryLimit
    ensures |InlineAddToHistory(s, cmd).history| <= 50
    ensures AllWhitespace(cmd) ==> InlineAddToHistory(s, cmd) == s
    ensures !AllWhitespace(cmd) && (|s.history| == 0 || s.history[|s.history| - 1] != Trim(cmd)) ==>
      var h := InlineAddToHistory(s, cmd).history; h[|h| - 1] == Trim(cmd)
  {
    TrimEmptyIffBlank(cmd);
    if !AllWhitespace(cmd) && (|s.history| == 0 || s.history[|s.history| - 1] != Trim(cmd)) {
      AddAppendsNewest(s, Trim(cmd));
    }
  }
}
