// The tool list of the TUI: filtering and sorting the inventory, the cursor,
// tabs, multi-selection, undo/redo of view changes, and the install /
// uninstall / update requests that wait for confirmation.

module ToolList {
  import opened Text
  import opened AppTypes
  import Fuzzy
  import Sorting
  import opened UndoHistory

  // ---------------------------------------------------------------------
  // Filtering and sorting (`apply_filter_and_sort`).

  /** The source filter compares the lowercased source name; the favourites filter keeps
      favourites only. */
  predicate PassesFilters(t: Tool, sourceFilter: Option<string>, favoritesOnly: bool) {
    && (sourceFilter.Some? ==> Lower(t.source) == sourceFilter.value)
    && (favoritesOnly ==> t.isFavorite)
  }

  function FieldScore(query: string, field: Option<string>): Option<int> {
    if field.None? then None else Fuzzy.Score(query, field.value)
  }

  function MaxOpt(a: Option<int>, b: Option<int>): (r: Option<int>)
    ensures r.Some? <==> a.Some? || b.Some?
    ensures r.Some? ==> (a.Some? ==> a.value <= r.value) && (b.Some? ==> b.value <= r.value)
    ensures r.Some? ==> r == a || r == b
  {
    if a.None? then b
    else if b.None? then a
    else if a.value >= b.value then a else b
  }

  /** The name score plus 10, and the description and category scores; the best of those that match. */
  function BestScore(query: string, t: Tool): Option<int> {
    var nameScore := Fuzzy.Score(query, t.name);
    MaxOpt(MaxOpt(if nameScore.Some? then Some(nameScore.value + 10) else None,
                  FieldScore(query, t.description)),
           FieldScore(query, t.category))
  }

  /** A tool is found by a query when its name, description or category matches. */
  lemma BestScoreSpec(query: string, t: Tool)
    ensures BestScore(query, t).Some? <==>
      Fuzzy.Score(query, t.name).Some? || FieldScore(query, t.description).Some? || FieldScore(query, t.category).Some?
    ensures Fuzzy.Score(query, t.name).Some? ==> BestScore(query, t).value >= Fuzzy.Score(query, t.name).value + 10
  {
  }

  /** Whether `apply_filter_and_sort` keeps the tool. */
  predicate Keep(t: Tool, sourceFilter: Option<string>, favoritesOnly: bool, query: string) {
    PassesFilters(t, sourceFilter, favoritesOnly) && (query == "" || BestScore(query, t).Some?)
  }

  function Kept(tools: seq<Tool>, sourceFilter: Option<string>, favoritesOnly: bool, query: string): seq<Tool> {
    if |tools| == 0 then []
    else
      (if Keep(tools[0], sourceFilter, favoritesOnly, query) then [tools[0]] else [])
      + Kept(tools[1..], sourceFilter, favoritesOnly, query)
  }

  function ScoreOf(query: string, t: Tool): int {
    var s := BestScore(query, t);
    if s.Some? then s.value else 0
  }

  function UseCount(usage: map<string, nat>, name: string): nat {
    if name in usage then usage[name] else 0
  }

  /** The "not after" relation of the comparator in use: best score descending while searching,
      otherwise name ascending, use count descending, or most recently updated first. */
  function ToolLe(query: string, sortBy: SortBy, usage: map<string, nat>): (Tool, Tool) -> bool {
    if query != "" then (a: Tool, b: Tool) => ScoreOf(query, a) >= ScoreOf(query, b)
    else match sortBy
      case Name => (a: Tool, b: Tool) => LexLe(a.name, b.name)
      case Usage => (a: Tool, b: Tool) => UseCount(usage, a.name) >= UseCount(usage, b.name)
      case Recent => (a: Tool, b: Tool) => a.updatedAt >= b.updatedAt
  }

  function FilterAndSort(all: seq<Tool>, sourceFilter: Option<string>, favoritesOnly: bool,
                         query: string, sortBy: SortBy, usage: map<string, nat>): seq<Tool>
  {
    Sorting.Sort(Kept(all, sourceFilter, favoritesOnly, query), ToolLe(query, sortBy, usage))
  }

  lemma {:induction false} KeptSpec(tools: seq<Tool>, sf: Option<string>, fav: bool, query: string)
    ensures multiset(Kept(tools, sf, fav, query)) <= multiset(tools)
    ensures forall t :: t in Kept(tools, sf, fav, query) <==> t in tools && Keep(t, sf, fav, query)
  {
    if |tools| > 0 {
      var head := if Keep(tools[0], sf, fav, query) then [tools[0]] else [];
      var rest := Kept(tools[1..], sf, fav, query);
      assert Kept(tools, sf, fav, query) == head + rest;
      KeptSpec(tools[1..], sf, fav, query);
      assert tools == [tools[0]] + tools[1..];
      assert multiset(head) <= multiset([tools[0]]);
      assert multiset(head + rest) == multiset(head) + multiset(rest);
      assert multiset(tools) == multiset([tools[0]]) + multiset(tools[1..]);
      forall t
        ensures t in head + rest <==> t in tools && Keep(t, sf, fav, query)
      {
        assert t in head + rest <==> t in head || t in rest;
        assert t in tools <==> t == tools[0] || t in tools[1..];
      }
    }
  }

  lemma ToolLeTotal(query: string, sortBy: SortBy, usage: map<string, nat>)
    ensures Sorting.Total(ToolLe(query, sortBy, usage))
    ensures Sorting.Transitive(ToolLe(query, sortBy, usage))
  {
    var le := ToolLe(query, sortBy, usage);
    if query == "" && sortBy == Name {
      forall a: Tool, b: Tool
        ensures le(a, b) || le(b, a)
      {
        LexLeTotal(a.name, b.name);
      }
      forall a: Tool, b: Tool, c: Tool | le(a, b) && le(b, c)
        ensures le(a, c)
      {
        LexLeTransitive(a.name, b.name, c.name);
      }
    }
  }

  /** The list shown holds tools of the inventory that pass the source and favourites filters
      (each at most as often as in the inventory) and, while searching, exactly those whose
      name, description or category match the query. */
  lemma FilterAndSortMembers(all: seq<Tool>, sf: Option<string>, fav: bool, query: string,
                             sortBy: SortBy, usage: map<string, nat>)
    ensures var r := FilterAndSort(all, sf, fav, query, sortBy, usage);
      && multiset(r) <= multiset(all)
      && (forall t :: t in r <==> t in all && PassesFilters(t, sf, fav) && (query == "" || BestScore(query, t).Some?))
  {
    var k := Kept(all, sf, fav, query);
    KeptSpec(all, sf, fav, query);
    Sorting.SortPermutes(k, ToolLe(query, sortBy, usage));
    Sorting.SortSameElements(k, ToolLe(query, sortBy, usage));
  }

  /** While searching, the best matches come first: scores never increase along the list. */
  lemma FilterAndSortByScore(all: seq<Tool>, sf: Option<string>, fav: bool, query: string,
                             sortBy: SortBy, usage: map<string, nat>)
    requires query != ""
    ensures var r := FilterAndSort(all, sf, fav, query, sortBy, usage);
      forall t :: t in r ==> BestScore(query, t).Some?
    ensures var r := FilterAndSort(all, sf, fav, query, sortBy, usage);
      forall i, j :: 0 <= i < j < |r| ==> ScoreOf(query, r[i]) >= ScoreOf(query, r[j])
  {
    var le := ToolLe(query, sortBy, usage);
    var k := Kept(all, sf, fav, query);
    var r := Sorting.Sort(k, le);
    FilterAndSortMembers(all, sf, fav, query, sortBy, usage);
    ToolLeTotal(query, sortBy, usage);
    Sorting.SortSorted(k, le);
    Sorting.SortedByAll(r, le);
    assert forall i :: 0 <= i < |r| ==> r[i] in r;
  }

  /** Without a query the list is ordered by the chosen sort key. */
  lemma FilterAndSortByKey(all: seq<Tool>, sf: Option<string>, fav: bool,
                           sortBy: SortBy, usage: map<string, nat>)
    ensures var r := FilterAndSort(all, sf, fav, "", sortBy, usage);
      && (sortBy == Name ==> forall i, j :: 0 <= i < j < |r| ==> LexLe(r[i].name, r[j].name))
      && (sortBy == Usage ==> forall i, j :: 0 <= i < j < |r| ==> UseCount(usage, r[i].name) >= UseCount(usage, r[j].name))
      && (sortBy == Recent ==> forall i, j :: 0 <= i < j < |r| ==> r[i].updatedAt >= r[j].updatedAt)
  {
    var le := ToolLe("", sortBy, usage);
    var r := Sorting.Sort(Kept(all, sf, fav, ""), le);
    ToolLeTotal("", sortBy, usage);
    Sorting.SortSorted(Kept(all, sf, fav, ""), le);
    Sorting.SortedByAll(r, le);
  }

  /** The cursor after the list changed: kept when still on the list, else the last item, or 0. */
  function ClampIndex(idx: nat, len: nat): (r: nat)
    ensures len > 0 ==> r < len
    ensures len == 0 ==> r == 0
    ensures idx < len ==> r == idx
  {
    if idx >= len then (if len == 0 then 0 else len - 1) else idx
  }

  // ---------------------------------------------------------------------
  // Cursor moves on the tool list.

  /** `search_next`: the next item, wrapping from the last to the first. */
  function SearchNextIndex(idx: nat, len: nat): (r: nat)
    requires len > 0
    ensures r < len
    ensures idx + 1 < len ==> r == idx + 1
  {
    if idx + 1 >= len then 0 else idx + 1
  }

  /** `search_prev`: the previous item, wrapping from the first to the last. */
  function SearchPrevIndex(idx: nat, len: nat): (r: nat)
    requires len > 0
    ensures idx <= len ==> r < len
    ensures 0 < idx ==> r == idx - 1
  {
    if idx == 0 then len - 1 else idx - 1
  }

  /** Going forward then back, or back then forward, returns to a valid cursor. */
  lemma SearchWrapInverse(idx: nat, len: nat)
    requires idx < len
    ensures SearchPrevIndex(SearchNextIndex(idx, len), len) == idx
    ensures SearchNextIndex(SearchPrevIndex(idx, len), len) == idx
  {
  }

  /** Index of the first tool whose lowercased name starts with the letter. */
  function FirstWithInitial(tools: seq<Tool>, letter: char): (r: Option<nat>)
    ensures r.Some? ==> r.value < |tools| && StartsWith(Lower(tools[r.value].name), [letter])
    ensures r.Some? ==> forall j :: 0 <= j < r.value ==> !StartsWith(Lower(tools[j].name), [letter])
    ensures r.None? ==> forall j :: 0 <= j < |tools| ==> !StartsWith(Lower(tools[j].name), [letter])
  {
    if |tools| == 0 then None
    else if StartsWith(Lower(tools[0].name), [letter]) then Some(0)
    else
      var r := FirstWithInitial(tools[1..], letter);
      if r.Some? then Some(r.value + 1) else None
  }

  // ---------------------------------------------------------------------
  // Undo and redo of view changes.

  /** The fields an undo entry can restore. */
  datatype ViewFields = ViewFields(selected: set<string>, query: string, tab: Tab, sortBy: SortBy)

  datatype StatusMessage = StatusMessage(text: string, isError: bool)

  /** The current value of the field `a` is about, as an entry of the same kind. */
  function Snapshot(a: UndoableAction, f: ViewFields): (r: UndoableAction)
    ensures r.Selection? == a.Selection? && r.Filter? == a.Filter?
    ensures r.TabSwitch? == a.TabSwitch? && r.Sort? == a.Sort?
  {
    match a
    case Selection(_) => Selection(f.selected)
    case Filter(_) => Filter(f.query)
    case TabSwitch(_) => TabSwitch(f.tab)
    case Sort(_) => Sort(f.sortBy)
  }

  /** Puts the entry's value back into its field. */
  function Restore(a: UndoableAction, f: ViewFields): ViewFields {
    match a
    case Selection(s) => f.(selected := s)
    case Filter(q) => f.(query := q)
    case TabSwitch(t) => f.(tab := t)
    case Sort(s) => f.(sortBy := s)
  }

  function TabName(t: Tab): string {
    match t
    case Installed => "Installed"
    case Available => "Available"
    case Updates => "Updates"
    case Bundles => "Bundles"
    case Discover => "Discover"
  }

  function SortName(s: SortBy): string {
    match s
    case Name => "Name"
    case Usage => "Usage"
    case Recent => "Recent"
  }

  function RestoredStatus(a: UndoableAction, f: ViewFields, redo: bool): StatusMessage {
    match a
    case Selection(_) => StatusMessage(if redo then "Selection redone" else "Selection restored", false)
    case Filter(_) => StatusMessage(if redo then "Filter redone" else "Filter restored", false)
    case TabSwitch(_) => StatusMessage("Tab: " + TabName(f.tab), false)
    case Sort(_) => StatusMessage("Sort: " + SortName(f.sortBy), false)
  }

  /** `undo`: pop an entry, save the current value of its field for redo, restore the entry. */
  function UndoStep(f: ViewFields, h: HistoryState): (ViewFields, HistoryState, StatusMessage)
    requires JointlyBounded(h) && h.maxSize >= 1
  {
    var (a, h1) := PopUndo(h);
    if a.None? then (f, h, StatusMessage("Nothing to undo", true))
    else
      JointBoundPreserved(h, a.value, Snapshot(a.value, f));
      var f1 := Restore(a.value, f);
      (f1, PushRedo(h1, Snapshot(a.value, f)), RestoredStatus(a.value, f1, false))
  }

  /** `redo`: the mirror image, pushing straight onto the undo stack. */
  function RedoStep(f: ViewFields, h: HistoryState): (ViewFields, HistoryState, StatusMessage) {
    var (a, h1) := PopRedo(h);
    if a.None? then (f, h, StatusMessage("Nothing to redo", true))
    else
      var f1 := Restore(a.value, f);
      (f1, h1.(undo := h1.undo + [Snapshot(a.value, f)]), RestoredStatus(a.value, f1, true))
  }

  /** Undo and redo keep the App's joint bound on the two stacks. */
  lemma StepsKeepJointBound(f: ViewFields, h: HistoryState)
    requires JointlyBounded(h) && h.maxSize >= 1
    ensures JointlyBounded(UndoStep(f, h).1) && UndoStep(f, h).1.maxSize == h.maxSize
    ensures JointlyBounded(RedoStep(f, h).1) && RedoStep(f, h).1.maxSize == h.maxSize
  {
    var (a, h1) := PopRedo(h);
    if a.Some? {
      JointBoundPreserved(h, a.value, Snapshot(a.value, f));
    }
  }

  /** With nothing to undo (redo), only an error status is set. */
  lemma EmptyStepsOnlyReport(f: ViewFields, h: HistoryState)
    requires JointlyBounded(h) && h.maxSize >= 1
    ensures !CanUndo(h) ==> UndoStep(f, h) == (f, h, StatusMessage("Nothing to undo", true))
    ensures !CanRedo(h) ==> RedoStep(f, h) == (f, h, StatusMessage("Nothing to redo", true))
  {
  }

  /** Undo puts back the recorded value of that one field; redo after undo gives back the
      fields and both stacks as they were. */
  lemma UndoThenRedo(f: ViewFields, h: HistoryState)
    requires JointlyBounded(h) && h.maxSize >= 1 && CanUndo(h)
    ensures var (f1, h1, _) := UndoStep(f, h);
      && f1 == Restore(h.undo[|h.undo| - 1], f)
      && var (f2, h2, _) := RedoStep(f1, h1);
      && f2 == f && h2 == h
  {
    var a := h.undo[|h.undo| - 1];
    var (f1, h1, _) := UndoStep(f, h);
    assert h1.redo == h.redo + [Snapshot(a, f)];
    assert h1.undo == h.undo[..|h.undo| - 1];
    var (f2, h2, _) := RedoStep(f1, h1);
    assert (h.redo + [Snapshot(a, f)])[..|h.redo|] == h.redo;
    assert Snapshot(Snapshot(a, f), f1) == a;
    assert h.undo[..|h.undo| - 1] + [a] == h.undo;
  }

  /** The recorded scenario: record "filter1", change to "filter2", undo gives "filter1",
      redo gives "filter2". */
  lemma FilterUndoRedoScenario(f: ViewFields)
    requires f.query == "filter1"
    ensures var h := Push(HistoryState([], [], 50), Filter(f.query));
      var (f1, h1, _) := UndoStep(f.(query := "filter2"), h);
      && f1.query == "filter1"
      && RedoStep(f1, h1).0.query == "filter2"
  {
  }

  // ---------------------------------------------------------------------
  // Selection and pending actions.

  function SelectedToolAt(tools: seq<Tool>, idx: nat): Option<Tool> {
    if idx < |tools| then Some(tools[idx]) else None
  }

  /** `toggle_selection`'s new set: the name's membership flips, nothing else changes. */
  function Toggle(s: set<string>, name: string): (r: set<string>)
    ensures name in r <==> name !in s
    ensures forall x :: x != name ==> (x in r <==> x in s)
  {
    if name in s then s - {name} else s + {name}
  }

  lemma ToggleTwice(s: set<string>, name: string)
    ensures Toggle(Toggle(s, name), name) == s
  {
  }

  predicate IsVisibleWith(tools: seq<Tool>, name: string, installed: bool) {
    exists i :: 0 <= i < |tools| && tools[i].name == name && tools[i].isInstalled == installed
  }

  /** The names among `order` (the selection, in the set's iteration order) that are visible
      and have the given installed flag. */
  function VisibleSelected(order: seq<string>, tools: seq<Tool>, installed: bool): (r: seq<string>)
    ensures forall x :: x in r <==> x in order && IsVisibleWith(tools, x, installed)
    ensures |r| <= |order|
  {
    if |order| == 0 then []
    else (if IsVisibleWith(tools, order[0], installed) then [order[0]] else [])
         + VisibleSelected(order[1..], tools, installed)
  }

  /** Whom `request_uninstall` and `request_install` act on: without a selection, the tool under
      the cursor if its installed flag fits; otherwise the fitting selected names. */
  function RequestTargets(selection: set<string>, order: seq<string>, tools: seq<Tool>, idx: nat, installed: bool): seq<string> {
    if selection == {} then
      var t := SelectedToolAt(tools, idx);
      if t.Some? && t.value.isInstalled == installed then [t.value.name] else []
    else VisibleSelected(order, tools, installed)
  }

  lemma RequestTargetsSpec(selection: set<string>, order: seq<string>, tools: seq<Tool>, idx: nat, installed: bool)
    requires forall x :: x in order <==> x in selection
    ensures var r := RequestTargets(selection, order, tools, idx, installed);
      && (selection == {} ==> |r| <= 1 && (|r| == 1 <==> idx < |tools| && tools[idx].isInstalled == installed))
      && (selection != {} ==> forall x :: x in r <==> x in selection && IsVisibleWith(tools, x, installed))
  {
  }

  /** `build_install_task_with_metadata`: the command shown is regenerated from name, source and
      version by the package layer (`installCommand`, not part of this model), falling back to
      "<source> install <name>[@<version>]". */
  function BuildInstallTask(installCommand: (string, string, Option<string>) -> Option<string>,
                            name: string, source: string, version: Option<string>,
                            meta: DiscoverMetadata): (t: InstallTask)
    ensures t.name == name && t.source == source && t.version == version
    ensures t.description == meta.description && t.stars == meta.stars && t.url == meta.url
    ensures installCommand(name, source, version).Some? ==> t.displayCommand == installCommand(name, source, version).value
    ensures installCommand(name, source, version).None? && version.None? ==>
      t.displayCommand == source + " install " + name
    ensures installCommand(name, source, version).None? && version.Some? ==>
      t.displayCommand == source + " install " + name + "@" + version.value
  {
    var cmd := installCommand(name, source, version);
    var display :=
      if cmd.Some? then cmd.value
      else if version.Some? then source + " install " + name + "@" + version.value
      else source + " install " + name;
    InstallTask(name, source, version, display, meta.description, meta.stars, meta.url)
  }

  const NoMetadata := DiscoverMetadata(None, None, None)

  /** One task per name the database knows, in order; names it does not know are skipped. */
  function TasksFor(installCommand: (string, string, Option<string>) -> Option<string>,
                    names: seq<string>, db: map<string, Tool>, versions: map<string, string>,
                    withVersion: bool): (r: seq<InstallTask>)
    ensures |r| <= |names|
    ensures (forall j :: 0 <= j < |names| ==> names[j] in db && (!withVersion || names[j] in versions)) ==> |r| == |names|
    ensures forall i :: 0 <= i < |r| ==> r[i].version.Some? == withVersion
  {
    if |names| == 0 then []
    else
      var n := names[0];
      var rest := TasksFor(installCommand, names[1..], db, versions, withVersion);
      if n in db && (!withVersion || n in versions) then
        var t := db[n];
        var r := [BuildInstallTask(installCommand, t.name, t.source, if withVersion then Some(versions[n]) else None, NoMetadata)] + rest;
        r
      else rest
  }

  /** Whether `name` is the name of a tool the database returned for one of `names`. */
  predicate KnownName(names: seq<string>, db: map<string, Tool>, name: string) {
    exists n :: n in names && n in db && db[n].name == name
  }

  /** Every task is for a tool the database returned for one of the names. */
  lemma {:induction false} TasksForKnown(installCommand: (string, string, Option<string>) -> Option<string>,
                                         names: seq<string>, db: map<string, Tool>, versions: map<string, string>,
                                         withVersion: bool)
    ensures forall i :: 0 <= i < |TasksFor(installCommand, names, db, versions, withVersion)| ==>
      KnownName(names, db, TasksFor(installCommand, names, db, versions, withVersion)[i].name)
  {
    if |names| > 0 {
      TasksForKnown(installCommand, names[1..], db, versions, withVersion);
      var rest := TasksFor(installCommand, names[1..], db, versions, withVersion);
      var r := TasksFor(installCommand, names, db, versions, withVersion);
      var n := names[0];
      var known := n in db && (!withVersion || n in versions);
      forall i | 0 <= i < |r|
        ensures KnownName(names, db, r[i].name)
      {
        if known && i == 0 {
          assert n in names;
        } else {
          var j := if known then i - 1 else i;
          assert r[i] == rest[j];
          assert KnownName(names[1..], db, rest[j].name);
          var m :| m in names[1..] && m in db && db[m].name == rest[j].name;
          assert m in names;
        }
      }
    }
  }

  /** Keeps the options of registries a tool can be installed from. */
  function InstallableOptions(opts: seq<InstallOption>): (r: seq<InstallOption>)
    ensures forall o :: o in r <==> o in opts && IsInstallable(o.source)
  {
    if |opts| == 0 then []
    else (if IsInstallable(opts[0].source) then [opts[0]] else []) + InstallableOptions(opts[1..])
  }

  /** The outcome of `request_discover_install` for the selected result: an error message, a
      source choice starting at the first option, or a direct install. */
  datatype DiscoverRequest =
    | NoResult
    | NoInstallable
    | Choose(action: PendingAction)
    | Direct(action: PendingAction)

  function DiscoverInstallRequest(installCommand: (string, string, Option<string>) -> Option<string>,
                                  selected: Option<DiscoverResult>): (r: DiscoverRequest)
    ensures selected.None? <==> r.NoResult?
    ensures selected.Some? ==>
      var opts := InstallableOptions(selected.value.installOptions);
      && (|opts| == 0 <==> r.NoInstallable?)
      && (|opts| > 1 <==> r.Choose?)
      && (r.Choose? ==> r.action.DiscoverSelectSource? && r.action.selected == 0 && r.action.options == opts)
      && (|opts| == 1 <==> r.Direct?)
      && (r.Direct? ==> r.action.DiscoverInstall? && r.action.task.source == DiscoverSourceToStr(opts[0].source)
                        && r.action.task.name == selected.value.name)
  {
    if selected.None? then NoResult
    else
      var res := selected.value;
      var opts := InstallableOptions(res.installOptions);
      var meta := DiscoverMetadata(res.description, res.stars, res.url);
      if |opts| == 0 then NoInstallable
      else if |opts| > 1 then Choose(DiscoverSelectSource(res.name, opts, 0, meta))
      else Direct(DiscoverInstall(BuildInstallTask(installCommand, res.name, DiscoverSourceToStr(opts[0].source), None, meta)))
  }

  /** `navigate_source_selection`: forward or back through the options, wrapping both ways. */
  function NavigateIndex(selected: nat, len: nat, delta: int): (r: nat)
    requires len > 0
    ensures selected < len ==> r < len
    ensures delta > 0 ==> r == (selected + 1) % len
  {
    if delta > 0 then (selected + 1) % len
    else if selected == 0 then len - 1 else selected - 1
  }

  /** Forward and back undo each other on a valid index. */
  lemma NavigateInverse(selected: nat, len: nat)
    requires selected < len
    ensures NavigateIndex(NavigateIndex(selected, len, 1), len, -1) == selected
    ensures NavigateIndex(NavigateIndex(selected, len, -1), len, 1) == selected
  {
  }

  /** The list row a click at (x, y) falls on: inside the list area and below its header row. */
  function ListRow(area: Option<(nat, nat, nat, nat)>, x: nat, y: nat): (r: Option<nat>)
    ensures r.Some? ==> area.Some? && y > area.value.1 && r.value == y - area.value.1 - 1
    ensures r.Some? <==> (area.Some? &&
      var (ax, ay, w, h) := area.value;
      ax <= x < ax + w && ay < y < ay + h)
  {
    if area.None? then None
    else
      var (ax, ay, w, h) := area.value;
      if ax <= x < ax + w && ay <= y < ay + h && y > ay then Some(y - ay - 1) else None
  }

  // ---------------------------------------------------------------------
  // The App's tool-list state.

  const HistorySize := 50

  class ToolListApp {
    var tab: Tab
    var inputMode: InputMode
    var searchQuery: string
    var sourceFilter: Option<string>
    var favoritesOnly: bool
    var allTools: seq<Tool>
    var tools: seq<Tool>
    var selectedIndex: nat
    var listOffset: nat
    var sortBy: SortBy
    var usage: map<string, nat>
    var availableUpdates: map<string, string>
    var updatesChecked: bool
    var bundles: seq<Bundle>
    var bundleSelected: nat
    var selectedTools: set<string>
    var pendingAction: Option<PendingAction>
    var statusMessage: Option<StatusMessage>
    var lastListArea: Option<(nat, nat, nat, nat)>
    const history: ActionHistory

    /** The fields none of the methods below change. */
    function Settings(): ListSettings
      reads this
    {
      ListSettings(sourceFilter, favoritesOnly, usage, availableUpdates, updatesChecked, bundles, lastListArea)
    }

    predicate Valid()
      reads this, history
    {
      JointlyBounded(history.State()) && history.maxSize == HistorySize
    }

    function View(): ViewFields
      reads this
    {
      ViewFields(selectedTools, searchQuery, tab, sortBy)
    }

    /** The list `apply_filter_and_sort` would show for the current fields. */
    function Filtered(): seq<Tool>
      reads this
    {
      FilterAndSort(allTools, sourceFilter, favoritesOnly, searchQuery, sortBy, usage)
    }

    /** `App::new` for the tool list: the installed tools, unfiltered, on the Installed tab. */
    constructor (installed: seq<Tool>, bundles: seq<Bundle>, usage: map<string, nat>)
      ensures Valid() && fresh(history)
      ensures tab == Installed && inputMode == Normal && searchQuery == "" && sourceFilter.None?
      ensures allTools == installed && tools == installed && selectedIndex == 0 && listOffset == 0
      ensures sortBy == Name && selectedTools == {} && pendingAction.None? && statusMessage.None?
      ensures history.State() == HistoryState([], [], HistorySize)
      ensures this.bundles == bundles && bundleSelected == 0 && this.usage == usage
    {
      tab := Installed;
      inputMode := Normal;
      searchQuery := "";
      sourceFilter := None;
      favoritesOnly := false;
      allTools := installed;
      tools := installed;
      selectedIndex := 0;
      listOffset := 0;
      sortBy := Name;
      this.usage := usage;
      availableUpdates := map[];
      updatesChecked := false;
      this.bundles := bundles;
      bundleSelected := 0;
      selectedTools := {};
      pendingAction := None;
      statusMessage := None;
      lastListArea := None;
      history := new ActionHistory(HistorySize);
    }

    /** Every field except the status message. */
    function Core(): CoreFields
      reads this
    {
      CoreFields(Settings(), View(), allTools, tools, selectedIndex, listOffset, inputMode, pendingAction, bundleSelected)
    }

    method SetStatus(text: string, isError: bool)
      modifies this
      ensures Core() == old(Core())
      ensures Settings() == old(Settings())
      ensures statusMessage == Some(StatusMessage(text, isError))
      ensures tools == old(tools) && selectedIndex == old(selectedIndex) && View() == old(View())
      ensures pendingAction == old(pendingAction) && inputMode == old(inputMode)
      ensures allTools == old(allTools) && listOffset == old(listOffset)
    {
      statusMessage := Some(StatusMessage(text, isError));
    }

    /** `apply_filter_and_sort`: recompute the visible list and pull the cursor back onto it. */
    method ApplyFilterAndSort()
      modifies this
      ensures Settings() == old(Settings())
      ensures tools == old(Filtered())
      ensures selectedIndex == ClampIndex(old(selectedIndex), |tools|)
      ensures View() == old(View()) && allTools == old(allTools) && listOffset == old(listOffset)
      ensures pendingAction == old(pendingAction) && statusMessage == old(statusMessage)
      ensures inputMode == old(inputMode) && bundleSelected == old(bundleSelected)
    {
      tools := Filtered();
      if selectedIndex >= |tools| {
        selectedIndex := if |tools| == 0 then 0 else |tools| - 1;
      }
    }

    method CycleSort()
      modifies this
      ensures Settings() == old(Settings())
      ensures sortBy == NextSort(old(sortBy))
      ensures tools == FilterAndSort(allTools, sourceFilter, favoritesOnly, searchQuery, sortBy, usage)
      ensures selectedIndex == ClampIndex(old(selectedIndex), |tools|)
      ensures allTools == old(allTools) && searchQuery == old(searchQuery)
      ensures Core() == old(Core()).(view := old(View()).(sortBy := sortBy), tools := tools, selectedIndex := selectedIndex)
      ensures statusMessage == old(statusMessage)
    {
      sortBy := NextSort(sortBy);
      ApplyFilterAndSort();
    }

    /** `refresh_tools`: `listed` is the database's answer for the tab's query (`None` when the
        read failed, which leaves the lists as they were). */
    method RefreshTools(listed: Option<seq<Tool>>)
      modifies this
      ensures Settings() == old(Settings())
      ensures TabTools(tab, listed, updatesChecked, availableUpdates).None? ==>
        allTools == old(allTools) && tools == old(tools) && selectedIndex == old(selectedIndex)
      ensures TabTools(tab, listed, updatesChecked, availableUpdates).Some? ==>
        && allTools == TabTools(tab, listed, updatesChecked, availableUpdates).value
        && tools == Filtered()
        && selectedIndex == ClampIndex(old(selectedIndex), |tools|)
      ensures View() == old(View()) && tab == old(tab) && listOffset == old(listOffset)
      ensures pendingAction == old(pendingAction) && statusMessage == old(statusMessage)
      ensures inputMode == old(inputMode) && bundleSelected == old(bundleSelected)
    {
      var result := TabTools(tab, listed, updatesChecked, availableUpdates);
      if result.Some? {
        allTools := result.value;
        ApplyFilterAndSort();
      }
    }

    /** `switch_tab`: a different tab resets cursor, scroll and query and reloads; the current
        tab changes nothing. */
    method SwitchTab(t: Tab, listed: Option<seq<Tool>>)
      modifies this
      ensures Settings() == old(Settings())
      ensures t == old(tab) ==> Core() == old(Core())
      ensures t != old(tab) ==> tab == t && searchQuery == "" && listOffset == 0 && selectedIndex == 0
      ensures t != old(tab) && TabTools(t, listed, updatesChecked, availableUpdates).None? ==>
        allTools == old(allTools) && tools == old(tools)
      ensures t != old(tab) && TabTools(t, listed, updatesChecked, availableUpdates).Some? ==>
        allTools == TabTools(t, listed, updatesChecked, availableUpdates).value && tools == Filtered()
      ensures t != old(tab) ==>
        Core() == old(Core()).(view := old(View()).(query := "", tab := t), allTools := allTools, tools := tools,
                               selectedIndex := 0, listOffset := 0)
      ensures selectedTools == old(selectedTools) && sortBy == old(sortBy)
      ensures pendingAction == old(pendingAction) && statusMessage == old(statusMessage) && inputMode == old(inputMode)
    {
      if tab != t {
        tab := t;
        selectedIndex := 0;
        listOffset := 0;
        searchQuery := "";
        RefreshTools(listed);
      }
    }

    method NextTab(listed: Option<seq<Tool>>)
      modifies this
      ensures Settings() == old(Settings())
      ensures tab == AppTypes.NextTab(old(tab))
      ensures selectedIndex == 0 && listOffset == 0 && searchQuery == ""
      ensures TabTools(tab, listed, updatesChecked, availableUpdates).None? ==>
        allTools == old(allTools) && tools == old(tools)
      ensures TabTools(tab, listed, updatesChecked, availableUpdates).Some? ==>
        allTools == TabTools(tab, listed, updatesChecked, availableUpdates).value && tools == Filtered()
      ensures Core() == old(Core()).(view := old(View()).(query := "", tab := tab), allTools := allTools, tools := tools,
                                     selectedIndex := 0, listOffset := 0)
      ensures statusMessage == old(statusMessage)
    {
      TabCycle(tab);
      var next := TabFromIndex((TabIndex(tab) + 1) % |AllTabs|);
      if next.Some? {
        SwitchTab(next.value, listed);
      }
    }

    method PrevTab(listed: Option<seq<Tool>>)
      modifies this
      ensures Settings() == old(Settings())
      ensures tab == AppTypes.PrevTab(old(tab))
      ensures selectedIndex == 0 && listOffset == 0 && searchQuery == ""
      ensures TabTools(tab, listed, updatesChecked, availableUpdates).None? ==>
        allTools == old(allTools) && tools == old(tools)
      ensures TabTools(tab, listed, updatesChecked, availableUpdates).Some? ==>
        allTools == TabTools(tab, listed, updatesChecked, availableUpdates).value && tools == Filtered()
      ensures Core() == old(Core()).(view := old(View()).(query := "", tab := tab), allTools := allTools, tools := tools,
                                     selectedIndex := 0, listOffset := 0)
      ensures statusMessage == old(statusMessage)
    {
      TabCycle(tab);
      var prevIndex := if TabIndex(tab) == 0 then |AllTabs| - 1 else TabIndex(tab) - 1;
      var prev := TabFromIndex(prevIndex);
      if prev.Some? {
        SwitchTab(prev.value, listed);
      }
    }

    method SelectNext()
      modifies this
      ensures Settings() == old(Settings())
      ensures |tools| > 0 ==> selectedIndex == if old(selectedIndex) + 1 < |tools| - 1 then old(selectedIndex) + 1 else |tools| - 1
      ensures |tools| == 0 ==> selectedIndex == old(selectedIndex)
      ensures tools == old(tools) && View() == old(View())
      ensures Core() == old(Core()).(selectedIndex := selectedIndex) && statusMessage == old(statusMessage)
    {
      if |tools| > 0 {
        selectedIndex := if selectedIndex + 1 < |tools| - 1 then selectedIndex + 1 else |tools| - 1;
      }
    }

    method SelectPrev()
      modifies this
      ensures Settings() == old(Settings())
      ensures selectedIndex == if old(selectedIndex) == 0 then 0 else old(selectedIndex) - 1
      ensures tools == old(tools) && View() == old(View())
      ensures Core() == old(Core()).(selectedIndex := selectedIndex) && statusMessage == old(statusMessage)
    {
      selectedIndex := if selectedIndex == 0 then 0 else selectedIndex - 1;
    }

    method SelectFirst()
      modifies this
      ensures Settings() == old(Settings())
      ensures selectedIndex == 0 && tools == old(tools) && View() == old(View())
      ensures Core() == old(Core()).(selectedIndex := 0) && statusMessage == old(statusMessage)
    {
      selectedIndex := 0;
    }

    method SelectLast()
      modifies this
      ensures Settings() == old(Settings())
      ensures |tools| > 0 ==> selectedIndex == |tools| - 1
      ensures |tools| == 0 ==> selectedIndex == old(selectedIndex)
      ensures tools == old(tools) && View() == old(View())
      ensures Core() == old(Core()).(selectedIndex := selectedIndex) && statusMessage == old(statusMessage)
    {
      if |tools| > 0 {
        selectedIndex := |tools| - 1;
      }
    }

    /** `search_next`: wraps to the top with a status message. */
    method SearchNext()
      modifies this
      ensures Settings() == old(Settings())
      ensures |tools| == 0 ==> selectedIndex == old(selectedIndex) && statusMessage == old(statusMessage)
      ensures |tools| > 0 ==> selectedIndex == SearchNextIndex(old(selectedIndex), |tools|)
      ensures |tools| > 0 && old(selectedIndex) + 1 >= |tools| ==>
        statusMessage == Some(StatusMessage("Search wrapped to top", false))
      ensures old(selectedIndex) + 1 < |tools| ==> statusMessage == old(statusMessage)
      ensures tools == old(tools) && View() == old(View())
      ensures Core() == old(Core()).(selectedIndex := selectedIndex)
    {
      if |tools| == 0 {
        return;
      }
      if selectedIndex + 1 >= |tools| {
        selectedIndex := 0;
        SetStatus("Search wrapped to top", false);
      } else {
        selectedIndex := selectedIndex + 1;
      }
    }

    method SearchPrev()
      modifies this
      ensures Settings() == old(Settings())
      ensures |tools| == 0 ==> selectedIndex == old(selectedIndex) && statusMessage == old(statusMessage)
      ensures |tools| > 0 ==> selectedIndex == SearchPrevIndex(old(selectedIndex), |tools|)
      ensures |tools| > 0 && old(selectedIndex) == 0 ==>
        statusMessage == Some(StatusMessage("Search wrapped to bottom", false))
      ensures |tools| > 0 && old(selectedIndex) > 0 ==> statusMessage == old(statusMessage)
      ensures tools == old(tools) && View() == old(View())
      ensures Core() == old(Core()).(selectedIndex := selectedIndex)
    {
      if |tools| == 0 {
        return;
      }
      if selectedIndex == 0 {
        selectedIndex := |tools| - 1;
        SetStatus("Search wrapped to bottom", false);
      } else {
        selectedIndex := selectedIndex - 1;
      }
    }

    method EnterJumpMode()
      modifies this
      ensures Settings() == old(Settings())
      ensures inputMode == InputMode.JumpToLetter && tools == old(tools) && selectedIndex == old(selectedIndex)
      ensures Core() == old(Core()).(inputMode := InputMode.JumpToLetter) && statusMessage == old(statusMessage)
    {
      inputMode := InputMode.JumpToLetter;
    }

    /** `jump_to_letter`: to the first tool whose name starts with the (lowercased) letter, or
        nowhere; always back in normal mode. */
    method JumpToLetter(letter: char)
      modifies this
      ensures Settings() == old(Settings())
      ensures inputMode == Normal
      ensures var hit := FirstWithInitial(tools, LowerChar(letter));
        && (hit.Some? ==> selectedIndex == hit.value)
        && (hit.Some? ==> statusMessage == Some(StatusMessage("Jumped to '" + [LowerChar(letter)] + "'", false)))
        && (hit.None? ==> selectedIndex == old(selectedIndex) && statusMessage == old(statusMessage))
      ensures tools == old(tools) && View() == old(View())
      ensures Core() == old(Core()).(selectedIndex := selectedIndex, inputMode := Normal)
    {
      var l := LowerChar(letter);
      var i := 0;
      while i < |tools|
        invariant 0 <= i <= |tools|
        invariant forall j :: 0 <= j < i ==> !StartsWith(Lower(tools[j].name), [l])
        invariant selectedIndex == old(selectedIndex) && statusMessage == old(statusMessage)
        invariant Core() == old(Core())
      {
        if StartsWith(Lower(tools[i].name), [l]) {
          selectedIndex := i;
          SetStatus("Jumped to '" + [l] + "'", false);
          break;
        }
        i := i + 1;
      }
      inputMode := Normal;
    }

    /** `exit_jump_mode` and `exit_search`: back to normal mode, nothing else changes. */
    method ReturnToNormal()
      modifies this
      ensures Core() == old(Core()).(inputMode := Normal) && statusMessage == old(statusMessage)
    {
      inputMode := Normal;
    }

    /** `clear_status`. */
    method ClearStatus()
      modifies this
      ensures statusMessage.None? && Core() == old(Core())
    {
      statusMessage := None;
    }

    /** `enter_search`: record the filter for undo, switch to search mode and empty the query;
        the list itself is recomputed only on the first keystroke. */
    method EnterSearch()
      requires Valid()
      modifies this, history
      ensures Valid()
      ensures history.State() == Push(old(history.State()), Filter(old(searchQuery)))
      ensures Core() == old(Core()).(inputMode := Search, view := old(View()).(query := ""))
      ensures statusMessage == old(statusMessage)
    {
      RecordFilter();
      inputMode := Search;
      searchQuery := "";
    }

    /** `search_push`: one more character of query, then refilter. */
    method SearchPush(c: char)
      modifies this
      ensures Settings() == old(Settings())
      ensures searchQuery == old(searchQuery) + [c]
      ensures tools == Filtered() && selectedIndex == ClampIndex(old(selectedIndex), |tools|)
      ensures View() == old(View()).(query := searchQuery) && allTools == old(allTools)
      ensures inputMode == old(inputMode) && pendingAction == old(pendingAction) && statusMessage == old(statusMessage)
    {
      searchQuery := searchQuery + [c];
      ApplyFilterAndSort();
    }

    /** `search_pop`: drop the query's last character, if any, then refilter. */
    method SearchPop()
      modifies this
      ensures Settings() == old(Settings())
      ensures |old(searchQuery)| > 0 ==> searchQuery == old(searchQuery)[..|old(searchQuery)| - 1]
      ensures |old(searchQuery)| == 0 ==> searchQuery == ""
      ensures tools == Filtered() && selectedIndex == ClampIndex(old(selectedIndex), |tools|)
      ensures View() == old(View()).(query := searchQuery) && allTools == old(allTools)
      ensures inputMode == old(inputMode) && pendingAction == old(pendingAction) && statusMessage == old(statusMessage)
    {
      if |searchQuery| > 0 {
        searchQuery := searchQuery[..|searchQuery| - 1];
      }
      ApplyFilterAndSort();
    }

    /** `clear_search`: with a query, record it for undo, drop it and refilter; without one,
        nothing happens. */
    method ClearSearch()
      requires Valid()
      modifies this, history
      ensures Valid()
      ensures old(searchQuery) == "" ==> Core() == old(Core()) && history.State() == old(history.State())
      ensures old(searchQuery) != "" ==>
        && history.State() == Push(old(history.State()), Filter(old(searchQuery)))
        && searchQuery == "" && tools == Filtered() && selectedIndex == ClampIndex(old(selectedIndex), |tools|)
        && View() == old(View()).(query := "") && Settings() == old(Settings())
      ensures statusMessage == old(statusMessage) && inputMode == old(inputMode)
    {
      if searchQuery != "" {
        RecordFilter();
        searchQuery := "";
        ApplyFilterAndSort();
      }
    }

    /** `select_next_bundle`: one bundle down, stopping at the last. */
    method SelectNextBundle()
      modifies this
      ensures |bundles| > 0 ==> bundleSelected == if old(bundleSelected) + 1 < |bundles| - 1 then old(bundleSelected) + 1 else |bundles| - 1
      ensures |bundles| == 0 ==> bundleSelected == old(bundleSelected)
      ensures Core() == old(Core()).(bundleSelected := bundleSelected) && statusMessage == old(statusMessage)
    {
      if |bundles| > 0 {
        bundleSelected := if bundleSelected + 1 < |bundles| - 1 then bundleSelected + 1 else |bundles| - 1;
      }
    }

    /** `select_prev_bundle`: one bundle up, stopping at the first. */
    method SelectPrevBundle()
      modifies this
      ensures bundleSelected == if old(bundleSelected) == 0 then 0 else old(bundleSelected) - 1
      ensures Core() == old(Core()).(bundleSelected := bundleSelected) && statusMessage == old(statusMessage)
    {
      bundleSelected := if bundleSelected == 0 then 0 else bundleSelected - 1;
    }

    function SelectedTool(): (r: Option<Tool>)
      reads this
      ensures r.Some? <==> selectedIndex < |tools|
      ensures r.Some? ==> r.value == tools[selectedIndex]
    {
      SelectedToolAt(tools, selectedIndex)
    }

    /** `record_selection`: pushes the current selection onto the undo stack. */
    method RecordSelection()
      requires Valid()
      modifies history
      ensures Valid()
      ensures history.State() == Push(old(history.State()), Selection(selectedTools))
    {
      JointBoundPreserved(history.State(), Selection(selectedTools), Selection(selectedTools));
      history.PushAction(Selection(selectedTools));
    }

    method RecordFilter()
      requires Valid()
      modifies history
      ensures Valid()
      ensures history.State() == Push(old(history.State()), Filter(searchQuery))
    {
      JointBoundPreserved(history.State(), Filter(searchQuery), Filter(searchQuery));
      history.PushAction(Filter(searchQuery));
    }

    /** `toggle_selection`: records, then flips the cursor tool's membership; nothing without a
        tool under the cursor. */
    method ToggleSelection()
      requires Valid()
      modifies this, history
      ensures Settings() == old(Settings())
      ensures Valid()
      ensures old(SelectedTool()).None? ==> selectedTools == old(selectedTools) && history.State() == old(history.State())
      ensures old(SelectedTool()).Some? ==>
        && selectedTools == Toggle(old(selectedTools), old(SelectedTool()).value.name)
        && history.State() == Push(old(history.State()), Selection(old(selectedTools)))
      ensures tools == old(tools) && selectedIndex == old(selectedIndex) && searchQuery == old(searchQuery)
      ensures Core() == old(Core()).(view := old(View()).(selected := selectedTools)) && statusMessage == old(statusMessage)
    {
      var t := SelectedTool();
      if t.Some? {
        RecordSelection();
        selectedTools := Toggle(selectedTools, t.value.name);
      }
    }

    /** `clear_selection`: records and empties only a non-empty selection. */
    method ClearSelection()
      requires Valid()
      modifies this, history
      ensures Settings() == old(Settings())
      ensures Valid()
      ensures selectedTools == {}
      ensures old(selectedTools) == {} ==> history.State() == old(history.State())
      ensures old(selectedTools) != {} ==> history.State() == Push(old(history.State()), Selection(old(selectedTools)))
      ensures tools == old(tools) && selectedIndex == old(selectedIndex) && searchQuery == old(searchQuery)
      ensures Core() == old(Core()).(view := old(View()).(selected := {})) && statusMessage == old(statusMessage)
    {
      if selectedTools != {} {
        RecordSelection();
        selectedTools := {};
      }
    }

    /** `select_all`: records, then adds every visible tool's name. */
    method SelectAll()
      requires Valid()
      modifies this, history
      ensures Settings() == old(Settings())
      ensures Valid()
      ensures selectedTools == old(selectedTools) + set i | 0 <= i < |tools| :: tools[i].name
      ensures history.State() == Push(old(history.State()), Selection(old(selectedTools)))
      ensures tools == old(tools) && selectedIndex == old(selectedIndex) && searchQuery == old(searchQuery)
      ensures Core() == old(Core()).(view := old(View()).(selected := selectedTools)) && statusMessage == old(statusMessage)
    {
      RecordSelection();
      var all := selectedTools;
      for i := 0 to |tools|
        invariant all == old(selectedTools) + set j | 0 <= j < i :: tools[j].name
      {
        all := all + {tools[i].name};
      }
      selectedTools := all;
    }

    /** Writes the fields of `f` back; lists are recomputed by the caller. */
    method SetView(f: ViewFields)
      modifies this
      ensures Settings() == old(Settings())
      ensures View() == f
      ensures allTools == old(allTools) && tools == old(tools) && selectedIndex == old(selectedIndex)
      ensures sourceFilter == old(sourceFilter) && favoritesOnly == old(favoritesOnly) && usage == old(usage)
      ensures statusMessage == old(statusMessage) && pendingAction == old(pendingAction)
      ensures Core() == old(Core()).(view := f)
    {
      selectedTools := f.selected;
      searchQuery := f.query;
      tab := f.tab;
      sortBy := f.sortBy;
    }

    /** `undo`; the list is re-filtered after a filter or sort change. */
    method Undo()
      requires Valid()
      modifies this, history
      ensures Settings() == old(Settings())
      ensures Valid()
      ensures statusMessage.Some?
      ensures (View(), history.State(), statusMessage.value) == UndoStep(old(View()), old(history.State()))
      ensures var p := PopUndo(old(history.State())).0;
        if p.Some? && (p.value.Filter? || p.value.Sort?) then
          tools == Filtered() && selectedIndex == ClampIndex(old(selectedIndex), |tools|)
        else tools == old(tools) && selectedIndex == old(selectedIndex)
      ensures allTools == old(allTools) && listOffset == old(listOffset)
      ensures Core() == old(Core()).(view := View(), tools := tools, selectedIndex := selectedIndex)
    {
      var h0 := history.State();
      var a := history.PopUndoAction();
      if a.None? {
        SetStatus("Nothing to undo", true);
        return;
      }
      var action := a.value;
      JointBoundPreserved(h0, action, Snapshot(action, View()));
      var redoAction := Snapshot(action, View());
      history.PushRedoAction(redoAction);
      SetView(Restore(action, View()));
      match action {
        case Selection(_) =>
          SetStatus("Selection restored", false);
        case Filter(_) =>
          ApplyFilterAndSort();
          SetStatus("Filter restored", false);
        case TabSwitch(_) =>
          SetStatus("Tab: " + TabName(tab), false);
        case Sort(_) =>
          ApplyFilterAndSort();
          SetStatus("Sort: " + SortName(sortBy), false);
      }
    }

    /** `redo`; the undo entry for the current value goes straight onto the undo stack. */
    method Redo()
      requires Valid()
      modifies this, history
      ensures Settings() == old(Settings())
      ensures Valid()
      ensures statusMessage.Some?
      ensures (View(), history.State(), statusMessage.value) == RedoStep(old(View()), old(history.State()))
      ensures var p := PopRedo(old(history.State())).0;
        if p.Some? && (p.value.Filter? || p.value.Sort?) then
          tools == Filtered() && selectedIndex == ClampIndex(old(selectedIndex), |tools|)
        else tools == old(tools) && selectedIndex == old(selectedIndex)
      ensures allTools == old(allTools) && listOffset == old(listOffset)
      ensures Core() == old(Core()).(view := View(), tools := tools, selectedIndex := selectedIndex)
    {
      StepsKeepJointBound(View(), history.State());
      var a := history.PopRedoAction();
      if a.None? {
        SetStatus("Nothing to redo", true);
        return;
      }
      var action := a.value;
      var undoAction := Snapshot(action, View());
      history.PushUndoUnbounded(undoAction);
      SetView(Restore(action, View()));
      match action {
        case Selection(_) =>
          SetStatus("Selection redone", false);
        case Filter(_) =>
          ApplyFilterAndSort();
          SetStatus("Filter redone", false);
        case TabSwitch(_) =>
          SetStatus("Tab: " + TabName(tab), false);
        case Sort(_) =>
          ApplyFilterAndSort();
          SetStatus("Sort: " + SortName(sortBy), false);
      }
    }

    /** `request_uninstall`; `order` lists the selection in the set's iteration order. */
    method RequestUninstall(order: seq<string>)
      requires forall x :: x in order <==> x in selectedTools
      modifies this
      ensures Settings() == old(Settings())
      ensures var names := RequestTargets(selectedTools, order, tools, selectedIndex, true);
        pendingAction == if |names| > 0 then Some(Uninstall(names)) else old(pendingAction)
      ensures View() == old(View()) && tools == old(tools) && selectedIndex == old(selectedIndex)
      ensures Core() == old(Core()).(pendingAction := pendingAction) && statusMessage == old(statusMessage)
    {
      var names := RequestTargets(selectedTools, order, tools, selectedIndex, true);
      if |names| > 0 {
        pendingAction := Some(Uninstall(names));
      }
    }

    /** `request_install`: names that are not installed; `db` is what the database returns for
        each name. */
    method RequestInstall(order: seq<string>, db: map<string, Tool>,
                          installCommand: (string, string, Option<string>) -> Option<string>)
      requires forall x :: x in order <==> x in selectedTools
      modifies this
      ensures Settings() == old(Settings())
      ensures var tasks := TasksFor(installCommand, RequestTargets(selectedTools, order, tools, selectedIndex, false), db, map[], false);
        pendingAction == if |tasks| > 0 then Some(Install(tasks)) else old(pendingAction)
      ensures View() == old(View()) && tools == old(tools) && selectedIndex == old(selectedIndex)
      ensures Core() == old(Core()).(pendingAction := pendingAction) && statusMessage == old(statusMessage)
    {
      var names := RequestTargets(selectedTools, order, tools, selectedIndex, false);
      if |names| == 0 {
        return;
      }
      var tasks := TasksFor(installCommand, names, db, map[], false);
      if |tasks| > 0 {
        pendingAction := Some(Install(tasks));
      }
    }

    /** `request_update`: names with an available update, each task pinned to the latest version. */
    method RequestUpdate(order: seq<string>, db: map<string, Tool>,
                         installCommand: (string, string, Option<string>) -> Option<string>)
      requires forall x :: x in order <==> x in selectedTools
      modifies this
      ensures Settings() == old(Settings())
      ensures var names := UpdateTargets(selectedTools, order, SelectedTool(), availableUpdates);
        var tasks := TasksFor(installCommand, names, db, availableUpdates, true);
        pendingAction == if |tasks| > 0 then Some(Update(tasks)) else old(pendingAction)
      ensures View() == old(View()) && tools == old(tools) && selectedIndex == old(selectedIndex)
      ensures Core() == old(Core()).(pendingAction := pendingAction) && statusMessage == old(statusMessage)
    {
      var names := UpdateTargets(selectedTools, order, SelectedTool(), availableUpdates);
      if |names| == 0 {
        return;
      }
      var tasks := TasksFor(installCommand, names, db, availableUpdates, true);
      if |tasks| > 0 {
        pendingAction := Some(Update(tasks));
      }
    }

    /** `request_discover_install` for the Discover tab's selected result. */
    method RequestDiscoverInstall(selected: Option<DiscoverResult>,
                                  installCommand: (string, string, Option<string>) -> Option<string>)
      modifies this
      ensures Settings() == old(Settings())
      ensures var r := DiscoverInstallRequest(installCommand, selected);
        && (r.NoResult? ==> pendingAction == old(pendingAction) && statusMessage == old(statusMessage))
        && (r.NoInstallable? ==> (pendingAction == old(pendingAction)
              && statusMessage == Some(StatusMessage("No installable source available (GitHub/AI only)", true))))
        && ((r.Choose? || r.Direct?) ==> pendingAction == Some(r.action) && statusMessage == old(statusMessage))
      ensures View() == old(View()) && tools == old(tools)
      ensures Core() == old(Core()).(pendingAction := pendingAction)
    {
      var r := DiscoverInstallRequest(installCommand, selected);
      match r {
        case NoResult =>
        case NoInstallable =>
          SetStatus("No installable source available (GitHub/AI only)", true);
        case Choose(a) =>
          pendingAction := Some(a);
        case Direct(a) =>
          pendingAction := Some(a);
      }
    }

    /** `navigate_source_selection`: moves the choice while a source choice is pending. */
    method NavigateSourceSelection(delta: int)
      modifies this
      ensures Settings() == old(Settings())
      ensures match old(pendingAction)
        case Some(DiscoverSelectSource(n, opts, sel, meta)) =>
          pendingAction == if |opts| == 0 then old(pendingAction)
                           else Some(DiscoverSelectSource(n, opts, NavigateIndex(sel, |opts|, delta), meta))
        case _ => pendingAction == old(pendingAction)
      ensures View() == old(View()) && tools == old(tools)
      ensures Core() == old(Core()).(pendingAction := pendingAction) && statusMessage == old(statusMessage)
    {
      match pendingAction {
        case Some(DiscoverSelectSource(n, opts, sel, meta)) =>
          if |opts| == 0 {
            return;
          }
          var next := if delta > 0 then (sel + 1) % |opts| else if sel == 0 then |opts| - 1 else sel - 1;
          pendingAction := Some(DiscoverSelectSource(n, opts, next, meta));
        case _ =>
      }
    }

    /** `confirm_source_selection`: the pending action is always taken out, whatever its kind; a
        source choice with a valid index becomes a direct install, an invalid one an error
        status. */
    method ConfirmSourceSelection(installCommand: (string, string, Option<string>) -> Option<string>)
      modifies this
      ensures Settings() == old(Settings())
      ensures match old(pendingAction)
        case Some(DiscoverSelectSource(n, opts, sel, meta)) =>
          if sel < |opts| then
            && pendingAction == Some(DiscoverInstall(BuildInstallTask(installCommand, n, DiscoverSourceToStr(opts[sel].source), None, meta)))
            && statusMessage == old(statusMessage)
          else pendingAction.None? && statusMessage == Some(StatusMessage("Invalid selection", true))
        case _ => pendingAction.None? && statusMessage == old(statusMessage)
      ensures View() == old(View()) && tools == old(tools)
      ensures Core() == old(Core()).(pendingAction := pendingAction)
    {
      match pendingAction {
        case Some(DiscoverSelectSource(n, opts, sel, meta)) =>
          pendingAction := None;
          if sel >= |opts| {
            SetStatus("Invalid selection", true);
            return;
          }
          var source := DiscoverSourceToStr(opts[sel].source);
          pendingAction := Some(DiscoverInstall(BuildInstallTask(installCommand, n, source, None, meta)));
        case _ =>
          pendingAction := None;
      }
    }

    /** `confirm_action`: hands over the pending action and leaves none. */
    method ConfirmAction() returns (a: Option<PendingAction>)
      modifies this
      ensures Settings() == old(Settings())
      ensures a == old(pendingAction) && pendingAction.None?
      ensures View() == old(View()) && tools == old(tools) && selectedIndex == old(selectedIndex)
      ensures statusMessage == old(statusMessage) && inputMode == old(inputMode)
      ensures Core() == old(Core()).(pendingAction := None)
    {
      a := pendingAction;
      pendingAction := None;
    }

    method CancelAction()
      modifies this
      ensures Settings() == old(Settings())
      ensures pendingAction.None?
      ensures View() == old(View()) && tools == old(tools) && selectedIndex == old(selectedIndex)
      ensures statusMessage == old(statusMessage) && inputMode == old(inputMode)
      ensures Core() == old(Core()).(pendingAction := None)
    {
      pendingAction := None;
    }

    /** `click_list_item`: a row of the bundle list, or of the tool list below the scroll
        offset; a row past the end changes nothing. */
    method ClickListItem(row: nat)
      modifies this
      ensures Settings() == old(Settings())
      ensures tab == Bundles ==> (tools == old(tools) && selectedIndex == old(selectedIndex) &&
        bundleSelected == if row < |bundles| then row else old(bundleSelected))
      ensures tab != Bundles ==> (bundleSelected == old(bundleSelected) &&
        selectedIndex == if listOffset + row < |tools| then listOffset + row else old(selectedIndex))
      ensures tab != Bundles && listOffset + row < |tools| ==> selectedIndex < |tools|
      ensures tools == old(tools) && View() == old(View())
      ensures Core() == old(Core()).(selectedIndex := selectedIndex, bundleSelected := bundleSelected)
      ensures statusMessage == old(statusMessage)
    {
      if tab == Bundles {
        if row < |bundles| {
          bundleSelected := row;
        }
      } else {
        var target := listOffset + row;
        if target < |tools| {
          selectedIndex := target;
        }
      }
    }

    function GetListRow(x: nat, y: nat): (r: Option<nat>)
      reads this
      ensures r.Some? ==> lastListArea.Some? && y > lastListArea.value.1
    {
      ListRow(lastListArea, x, y)
    }
  }

  datatype CoreFields = CoreFields(
    settings: ListSettings, view: ViewFields, allTools: seq<Tool>, tools: seq<Tool>, selectedIndex: nat,
    listOffset: nat, inputMode: InputMode, pendingAction: Option<PendingAction>, bundleSelected: nat)

  /** The filter settings, usage counts, known updates, bundles and the last drawn list area. */
  datatype ListSettings = ListSettings(
    sourceFilter: Option<string>, favoritesOnly: bool, usage: map<string, nat>,
    availableUpdates: map<string, string>, updatesChecked: bool, bundles: seq<Bundle>,
    lastListArea: Option<(nat, nat, nat, nat)>)

  /** What `refresh_tools` loads for a tab from the database's answer `listed`: Available keeps
      the uninstalled ones, Updates the ones with an update (nothing before updates were
      checked), Discover nothing. */
  function TabTools(t: Tab, listed: Option<seq<Tool>>, updatesChecked: bool, updates: map<string, string>): (r: Option<seq<Tool>>)
    ensures t == Discover || (t == Updates && !updatesChecked) ==> r == Some([])
    ensures t != Discover && !(t == Updates && !updatesChecked) ==> (r.Some? <==> listed.Some?)
    ensures t == Available && r.Some? ==> forall x :: x in r.value ==> !x.isInstalled
    ensures t == Updates && r.Some? ==> forall x :: x in r.value ==> x.name in updates
  {
    match t
    case Discover => Some([])
    case Updates => if !updatesChecked then Some([]) else if listed.None? then None else Some(Retain(listed.value, updates, false))
    case Available => if listed.None? then None else Some(Retain(listed.value, updates, true))
    case _ => listed
  }

  /** Keeps the tools with an update (`uninstalled` false) or the uninstalled tools (true). */
  function Retain(ts: seq<Tool>, updates: map<string, string>, uninstalled: bool): (r: seq<Tool>)
    ensures forall x :: x in r <==> x in ts && (if uninstalled then !x.isInstalled else x.name in updates)
  {
    if |ts| == 0 then []
    else
      var keep := if uninstalled then !ts[0].isInstalled else ts[0].name in updates;
      (if keep then [ts[0]] else []) + Retain(ts[1..], updates, uninstalled)
  }

  /** Whom `request_update` acts on: the cursor tool or the selected names, among those with an
      available update. */
  function UpdateTargets(selection: set<string>, order: seq<string>, cursor: Option<Tool>, updates: map<string, string>): (r: seq<string>)
    ensures forall x :: x in r ==> x in updates
    ensures selection != {} ==> forall x :: x in r <==> x in order && x in updates
  {
    if selection == {} then
      if cursor.Some? && cursor.value.name in updates then [cursor.value.name] else []
    else WithUpdates(order, updates)
  }

  function WithUpdates(order: seq<string>, updates: map<string, string>): (r: seq<string>)
    ensures forall x :: x in r <==> x in order && x in updates
  {
    if |order| == 0 then []
    else (if order[0] in updates then [order[0]] else []) + WithUpdates(order[1..], updates)
  }
}
