// Keyboard and mouse dispatch: which part of the dashboard a key or mouse event reaches
// (a pending confirmation first, then the overlays, then the input mode), the handlers of
// the jump, search and command modes and of the configuration menu, and what a confirmed
// action does.

module Events {
  import opened Text
  import opened AppTypes
  import opened Themes
  import ToolList
  import Palette
  import ConfigMenu

  // ---------------------------------------------------------------------
  // Events.

  datatype KeyCode =
    | Char(c: char) | Esc | Enter | TabKey | BackTab | Backspace
    | Up | Down | Left | Right | PageUp | PageDown | OtherKey

  /** A key press; `control` says whether Ctrl was held. */
  datatype Key = Key(code: KeyCode, control: bool)

  predicate IsChar(k: Key, c: char) {
    k.code == Char(c)
  }

  predicate IsAsciiAlpha(c: char) {
    'a' <= c <= 'z' || 'A' <= c <= 'Z'
  }

  datatype MouseKind = ScrollUp | ScrollDown | LeftDown | RightDown | OtherMouse

  datatype MouseEvent = MouseEvent(kind: MouseKind, column: nat, row: nat)

  /** The answers of the outside world a handler may need: what the database lists for the
      current tab, the configuration file as loaded (absent when unreadable), the error of
      writing it (absent on success), and the sources it enables. */
  datatype World = World(
    listed: Option<seq<Tool>>, loaded: Option<ConfigMenu.MenuConfig>, saveError: Option<string>,
    enabled: set<string>)

  // ---------------------------------------------------------------------
  // Key routing.

  datatype KeyRoute =
    | ConfirmPending | CancelPending | IgnoredWhilePending
    | CloseHelp | SwallowedByHelp
    | ToConfigMenu
    | CloseDetails | SwallowedByDetails
    | ToMode(mode: InputMode)

  /** Who gets a key: a pending action takes y/Y (confirm) and n/N/Esc (cancel) and swallows
      the rest; then the help overlay (closed by Esc, ? or q), the configuration menu, the
      details popup (closed by Esc, Enter or q); only then the input mode. */
  function RouteKey(pending: bool, help: bool, configMenu: bool, details: bool, mode: InputMode, k: Key): KeyRoute {
    if pending then
      if IsChar(k, 'y') || IsChar(k, 'Y') then ConfirmPending
      else if IsChar(k, 'n') || IsChar(k, 'N') || k.code == Esc then CancelPending
      else IgnoredWhilePending
    else if help then
      if k.code == Esc || IsChar(k, '?') || IsChar(k, 'q') then CloseHelp else SwallowedByHelp
    else if configMenu then ToConfigMenu
    else if details then
      if k.code == Esc || k.code == Enter || IsChar(k, 'q') then CloseDetails else SwallowedByDetails
    else ToMode(mode)
  }

  /** The precedence, stated route by route: each layer answers only when every layer above
      it is absent, and the input mode hears a key only when no layer is present. */
  lemma RoutePrecedence(pending: bool, help: bool, configMenu: bool, details: bool, mode: InputMode, k: Key)
    ensures var r := RouteKey(pending, help, configMenu, details, mode, k);
      && (r in {ConfirmPending, CancelPending, IgnoredWhilePending} <==> pending)
      && (r in {CloseHelp, SwallowedByHelp} <==> !pending && help)
      && (r == ToConfigMenu <==> !pending && !help && configMenu)
      && (r in {CloseDetails, SwallowedByDetails} <==> !pending && !help && !configMenu && details)
      && (r.ToMode? <==> !pending && !help && !configMenu && !details)
      && (r.ToMode? ==> r.mode == mode)
    ensures pending ==>
      (RouteKey(pending, help, configMenu, details, mode, k) == ConfirmPending <==> IsChar(k, 'y') || IsChar(k, 'Y'))
    ensures pending ==>
      (RouteKey(pending, help, configMenu, details, mode, k) == CancelPending <==>
        IsChar(k, 'n') || IsChar(k, 'N') || k.code == Esc)
  {
  }

  // ---------------------------------------------------------------------
  // The normal-mode key table.

  datatype NormalCommand =
    | Quit | MoveDown | MoveUp | MoveFirst | MoveLast | PageDownTen | PageUpTen
    | NextTabCommand | PrevTabCommand | GoToTab(tab: Tab)
    | StartSearch | NextMatch | PrevMatch | StartJump | ToggleFavorite | ToggleFavoritesFilter
    | StartCommand | ClearSearchCommand | CycleSortCommand
    | ToggleAndAdvance | SelectAllCommand | ClearSelectionCommand
    | InstallCommand | TrackBundleTools | UninstallCommand | UpdateCommand
    | ToggleDetails | ToggleHelp | CycleThemeCommand | OpenConfig | UndoCommand | RedoCommand
    | CheckUpdates | RefreshCommand | NoCommand

  /** What a key does in normal mode, arm by arm in the source's order (an earlier arm wins).
      Moving, installing and refreshing act on the bundles or on the tool list depending on the
      tab the command runs on; this table names the command only. Page down and page up are
      taken here on the PageDown/PageUp keys alone and on Ctrl-d/Ctrl-u. */
  function NormalCommandFor(k: Key, tab: Tab): NormalCommand {
    match k.code
    case Down => MoveDown
    case Up => MoveUp
    case PageDown => PageDownTen
    case PageUp => PageUpTen
    case TabKey => NextTabCommand
    case BackTab => PrevTabCommand
    case Esc => ClearSearchCommand
    case Enter => ToggleDetails
    case Char(c) => CharCommand(c, k.control, tab)
    case _ => NoCommand
  }

  /** The character arms; a character with several arms is decided by the first whose guard
      holds, so Ctrl-c quits while c opens the menu, and Ctrl-a selects all while a tracks the
      bundle's tools on the Bundles tab. */
  function CharCommand(c: char, control: bool, tab: Tab): NormalCommand {
    match c
    case 'q' => Quit
    case 'c' => if control then Quit else OpenConfig
    case 'j' => MoveDown
    case 'k' => MoveUp
    case 'g' => MoveFirst
    case 'G' => MoveLast
    case 'd' => if control then PageDownTen else NoCommand
    case 'u' => if control then PageUpTen else UpdateCommand
    case ']' => NextTabCommand
    case '[' => PrevTabCommand
    case '1' => GoToTab(Installed)
    case '2' => GoToTab(Available)
    case '3' => GoToTab(Updates)
    case '4' => GoToTab(Bundles)
    case '5' => GoToTab(Discover)
    case '/' => StartSearch
    case 'n' => NextMatch
    case 'N' => PrevMatch
    case 'f' => StartJump
    case '*' => ToggleFavorite
    case 'F' => ToggleFavoritesFilter
    case ':' => StartCommand
    case 's' => CycleSortCommand
    case ' ' => ToggleAndAdvance
    case 'a' => if control then SelectAllCommand else if tab == Bundles then TrackBundleTools else NoCommand
    case 'x' => ClearSelectionCommand
    case 'i' => InstallCommand
    case 'D' => UninstallCommand
    case '?' => ToggleHelp
    case 't' => CycleThemeCommand
    case 'z' => if control then UndoCommand else NoCommand
    case 'y' => if control then RedoCommand else NoCommand
    case 'r' => if tab == Updates then CheckUpdates else RefreshCommand
    case _ => NoCommand
  }

  /** The key table as the source writes it: the arms `PageDown | Char('d') if CONTROL` and
      `PageUp | Char('u') if CONTROL` put the Ctrl guard on both alternatives, so the plain
      PageDown and PageUp keys fall through to the catch-all and do nothing. */
  function NormalCommandAsWritten(k: Key, tab: Tab): NormalCommand {
    if (k.code == PageDown || k.code == PageUp) && !k.control then NoCommand
    else NormalCommandFor(k, tab)
  }

  /** Plain PageDown pages down in the intended table and does nothing in the one written. */
  lemma PlainPageDownIgnoredAsWritten(tab: Tab)
    ensures NormalCommandAsWritten(Key(PageDown, false), tab) == NoCommand
    ensures NormalCommandAsWritten(Key(PageUp, false), tab) == NoCommand
    ensures NormalCommandFor(Key(PageDown, false), tab) == PageDownTen
    ensures NormalCommandFor(Key(PageUp, false), tab) == PageUpTen
  {
  }

  /** The two tables differ on those two keys only, and both page on Ctrl-d and Ctrl-u. */
  lemma AsWrittenDiffersOnlyOnPaging(k: Key, tab: Tab)
    ensures NormalCommandAsWritten(k, tab) != NormalCommandFor(k, tab) <==>
      (k.code == PageDown || k.code == PageUp) && !k.control
    ensures NormalCommandAsWritten(Key(Char('d'), true), tab) == PageDownTen
    ensures NormalCommandAsWritten(Key(Char('u'), true), tab) == PageUpTen
  {
  }

  /** q quits, with or without Ctrl; Ctrl-c quits too, while a plain c opens the menu. */
  lemma QuitKeys(tab: Tab, control: bool)
    ensures NormalCommandFor(Key(Char('q'), control), tab) == Quit
    ensures NormalCommandFor(Key(Char('c'), true), tab) == Quit
    ensures NormalCommandFor(Key(Char('c'), false), tab) == OpenConfig
  {
  }

  /** u is update and Ctrl-u pages up; undo and redo need Ctrl. */
  lemma ControlKeys(tab: Tab, control: bool)
    ensures NormalCommandFor(Key(Char('u'), false), tab) == UpdateCommand
    ensures NormalCommandFor(Key(Char('u'), true), tab) == PageUpTen
    ensures NormalCommandFor(Key(Char('z'), control), tab) == (if control then UndoCommand else NoCommand)
    ensures NormalCommandFor(Key(Char('y'), control), tab) == (if control then RedoCommand else NoCommand)
  {
  }

  /** a tracks a bundle's tools only on the Bundles tab (Ctrl-a selects all everywhere); r
      checks for updates only on the Updates tab and reloads elsewhere. */
  lemma TabDependentKeys(tab: Tab, control: bool)
    ensures NormalCommandFor(Key(Char('a'), false), tab) == (if tab == Bundles then TrackBundleTools else NoCommand)
    ensures NormalCommandFor(Key(Char('a'), true), tab) == SelectAllCommand
    ensures NormalCommandFor(Key(Char('r'), control), tab) == (if tab == Updates then CheckUpdates else RefreshCommand)
  {
  }

  /** The digit keys 1 to 5 go to the tabs in their order. */
  lemma DigitsGoToTabs(tab: Tab, control: bool, i: nat)
    requires i < 5
    ensures NormalCommandFor(Key(Char(('1' as int + i) as char), control), tab) == GoToTab(AllTabs[i])
  {
  }

  // ---------------------------------------------------------------------
  // What a confirmed action reports.

  function Verb(a: PendingAction): string {
    match a
    case Install(_) => "Install"
    case Uninstall(_) => "Uninstall"
    case Update(_) => "Update"
    case DiscoverInstall(_) => "Install"
    case DiscoverSelectSource(_, _, _, _) => "Install"
  }

  /** The command word of the command-line tool for the action. */
  function CliWord(a: PendingAction): string {
    match a
    case Uninstall(_) => "uninstall"
    case Update(_) => "upgrade"
    case _ => "install"
  }

  /** The tools an action names, in order. */
  function ActionTargets(a: PendingAction): seq<string> {
    match a
    case Install(ts) => seq(|ts|, i requires 0 <= i < |ts| => ts[i].name)
    case Uninstall(names) => names
    case Update(ts) => seq(|ts|, i requires 0 <= i < |ts| => ts[i].name)
    case DiscoverInstall(t) => [t.name]
    case DiscoverSelectSource(name, _, _, _) => [name]
  }

  predicate IsBatchAction(a: PendingAction) {
    a.Install? || a.Uninstall? || a.Update?
  }

  /** The status text `execute_action` shows for a confirmed install, uninstall or update: one
      tool is named with the command to run it, several are counted. */
  function ActionStatus(a: PendingAction): (r: string)
    requires IsBatchAction(a)
    ensures StartsWith(r, Verb(a) + " ")
  {
    var targets := ActionTargets(a);
    var rest :=
      if |targets| == 1 then targets[0] + (" - use CLI: hoards " + (CliWord(a) + (" " + targets[0])))
      else NatToString(|targets|) + (" tools - use CLI for batch " + CliWord(a));
    assert (Verb(a) + " " + rest)[..|Verb(a) + " "|] == Verb(a) + " ";
    Verb(a) + " " + rest
  }

  // ---------------------------------------------------------------------
  // Mouse routing and the geometry it needs.

  datatype MouseRoute = ToConfigMenuMouse | MouseIgnored | ToList

  /** The configuration menu takes every mouse event while it shows; otherwise mouse events are
      dropped while help, the details popup or a confirmation shows, or outside normal mode. */
  function RouteMouse(configMenu: bool, help: bool, details: bool, pending: bool, mode: InputMode): MouseRoute {
    if configMenu then ToConfigMenuMouse
    else if help || details || pending || mode != Normal then MouseIgnored
    else ToList
  }

  lemma MouseGating(configMenu: bool, help: bool, details: bool, pending: bool, mode: InputMode)
    ensures RouteMouse(configMenu, help, details, pending, mode) == ToList <==>
      !configMenu && !help && !details && !pending && mode == Normal
    ensures configMenu ==> RouteMouse(configMenu, help, details, pending, mode) == ToConfigMenuMouse
  {
  }

  /** Width of a tab's title in the tab bar: the title with one space on either side. */
  function TabWidth(t: Tab): nat {
    |ToolList.TabName(t)| + 2
  }

  /** Column, relative to the bar's content, where the `i`-th tab starts; tabs are separated by
      one-column dividers. */
  function TabStart(i: nat): nat
    requires i <= |AllTabs|
  {
    if i == 0 then 0 else TabStart(i - 1) + TabWidth(AllTabs[i - 1]) + 1
  }

  predicate InTab(rel: nat, i: nat)
    requires i < |AllTabs|
  {
    TabStart(i) <= rel < TabStart(i) + TabWidth(AllTabs[i])
  }

  /** The tab under relative column `rel`, from the `i`-th tab on. */
  function TabFrom(rel: nat, i: nat): Option<Tab>
    requires i <= |AllTabs|
    decreases |AllTabs| - i
  {
    if i == |AllTabs| then None
    else if InTab(rel, i) then Some(AllTabs[i])
    else TabFrom(rel, i + 1)
  }

  lemma TabStarts()
    ensures TabStart(0) == 0 && TabStart(1) == 12 && TabStart(2) == 24
    ensures TabStart(3) == 34 && TabStart(4) == 44 && TabStart(5) == 55
  {
  }

  /** A click hits a tab iff it falls inside that tab's title; a divider or the space past the
      last tab hits none. */
  lemma TabUnderColumn(rel: nat, t: Tab)
    ensures TabFrom(rel, 0) == Some(t) <==> InTab(rel, TabIndex(t))
    ensures rel in {11, 23, 33, 43} || rel >= 54 ==> TabFrom(rel, 0).None?
  {
    TabStarts();
  }

  /** `is_in_tab_area`: inside the rectangle the tab bar was last drawn in. */
  predicate InArea(area: Option<(nat, nat, nat, nat)>, x: nat, y: nat) {
    area.Some? && area.value.0 <= x < area.value.0 + area.value.2 && area.value.1 <= y < area.value.1 + area.value.3
  }

  // ---------------------------------------------------------------------
  // Configuration-menu clicks.

  datatype MenuClick =
    | ClickAi(item: nat) | ClickTheme(item: nat) | ClickSource(item: nat) | ClickUsage(item: nat)
    | ClickButtons | ClickNothing

  /** What a click on content line `line` (counted from the top of the scrolled content) hits,
      given whether the custom theme is highlighted. */
  function LineTarget(line: nat, customTheme: bool): MenuClick {
    var (aiFirst, aiLast) := ItemLines(AiProvider, customTheme);
    var (themeFirst, themeLast) := ItemLines(Theme, customTheme);
    var (sourceFirst, sourceLast) := ItemLines(Sources, customTheme);
    var (usageFirst, usageLast) := ItemLines(UsageMode, customTheme);
    var buttons := StartLine(Buttons, customTheme);
    if aiFirst <= line <= aiLast then
      (if line - aiFirst < ItemCount(AiProvider) then ClickAi(line - aiFirst) else ClickNothing)
    else if themeFirst <= line <= themeLast then
      (if line - themeFirst < ItemCount(Theme) then ClickTheme(line - themeFirst) else ClickNothing)
    else if sourceFirst <= line <= sourceLast then
      (if line - sourceFirst < ItemCount(Sources) then ClickSource(line - sourceFirst) else ClickNothing)
    else if usageFirst <= line <= usageLast then
      (if line - usageFirst < ItemCount(UsageMode) then ClickUsage(line - usageFirst) else ClickNothing)
    else if line >= buttons then ClickButtons
    else ClickNothing
  }

  /** Line `l` from 1 to 5 is the `l-1`-th AI provider and nothing else is; the same holds for
      the themes on lines 8 to 14, the sources and the usage modes below them (one line lower
      when the custom theme adds its hint line), and every line from the buttons' down is the
      buttons. Each hit item lies in its section. */
  lemma LineTargetSpec(line: nat, customTheme: bool, i: nat)
    ensures var e := ThemeExtra(customTheme);
      && (LineTarget(line, customTheme) == ClickAi(i) <==> 1 <= line <= 5 && i == line - 1)
      && (LineTarget(line, customTheme) == ClickTheme(i) <==> 8 <= line <= 14 && i == line - 8)
      && (LineTarget(line, customTheme) == ClickSource(i) <==> 17 + e <= line <= 23 + e && i == line - 17 - e)
      && (LineTarget(line, customTheme) == ClickUsage(i) <==> 26 + e <= line <= 27 + e && i == line - 26 - e)
      && (LineTarget(line, customTheme) == ClickButtons <==> line >= 29 + e)
    ensures LineTarget(line, customTheme).ClickAi? ==> LineTarget(line, customTheme).item < ItemCount(AiProvider)
    ensures LineTarget(line, customTheme).ClickTheme? ==> LineTarget(line, customTheme).item < ItemCount(Theme)
    ensures LineTarget(line, customTheme).ClickSource? ==> LineTarget(line, customTheme).item < ItemCount(Sources)
    ensures LineTarget(line, customTheme).ClickUsage? ==> LineTarget(line, customTheme).item < ItemCount(UsageMode)
  {
  }

  /** The content line under screen row `y`: rows inside the popup's borders, plus the scroll
      offset capped at the largest useful one. */
  function ClickedLine(y: nat, contentY: nat, scrollOffset: nat, maxScroll: nat): nat
    requires y >= contentY
  {
    (y - contentY) + ConfigMenu.Min(scrollOffset, maxScroll)
  }

  // ---------------------------------------------------------------------
  // The dashboard.

  /** The dispatch-level state: the tool list (with its undo history, search query, selection,
      pending action and status line), the command line, the configuration menu, the overlays,
      and the last drawn tab bar and menu popup. */
  class Dashboard {
    const tools: ToolList.ToolListApp
    const command: Palette.CommandLine
    const config: ConfigMenu.ConfigMenuApp
    var showHelp: bool
    var showDetailsPopup: bool
    var running: bool
    var lastTabArea: Option<(nat, nat, nat, nat)>
    var lastConfigPopupArea: Option<(nat, nat, nat, nat)>

    predicate Valid()
      reads this, tools, tools.history, command, config, config.menu
    {
      tools.Valid() && command.Valid() && config.menu.Valid() && config.tools == tools
    }

    constructor (tools: ToolList.ToolListApp, command: Palette.CommandLine, config: ConfigMenu.ConfigMenuApp)
      ensures this.tools == tools && this.command == command && this.config == config
      ensures !showHelp && !showDetailsPopup && running
      ensures lastTabArea.None? && lastConfigPopupArea.None?
    {
      this.tools := tools;
      this.command := command;
      this.config := config;
      showHelp := false;
      showDetailsPopup := false;
      running := true;
      lastTabArea := None;
      lastConfigPopupArea := None;
    }

    /** `execute_action`: report what to run on the command line, clear the selection and
        reload the list. Actions of the Discover tab are only followed by the reload. */
    method ExecuteAction(a: PendingAction, listed: Option<seq<Tool>>)
      requires tools.Valid()
      modifies tools, tools.history
      ensures tools.Valid()
      ensures IsBatchAction(a) ==>
        tools.selectedTools == {} && tools.statusMessage == Some(ToolList.StatusMessage(ActionStatus(a), false))
      ensures !IsBatchAction(a) ==>
        tools.selectedTools == old(tools.selectedTools) && tools.statusMessage == old(tools.statusMessage)
      ensures tools.pendingAction == old(tools.pendingAction) && tools.inputMode == old(tools.inputMode)
      ensures tools.tab == old(tools.tab)
    {
      if IsBatchAction(a) {
        tools.SetStatus(ActionStatus(a), false);
        tools.ClearSelection();
      }
      tools.RefreshTools(listed);
    }

    /** The pending-confirmation keys: y/Y hands the action over and executes it, n/N/Esc drops
        it, every other key changes nothing. */
    method HandlePendingKey(k: Key, listed: Option<seq<Tool>>)
      requires tools.Valid() && tools.pendingAction.Some?
      modifies tools, tools.history
      ensures tools.Valid()
      ensures IsChar(k, 'y') || IsChar(k, 'Y') ==> tools.pendingAction.None?
      ensures (IsChar(k, 'y') || IsChar(k, 'Y')) && IsBatchAction(old(tools.pendingAction.value)) ==>
        tools.selectedTools == {}
        && tools.statusMessage == Some(ToolList.StatusMessage(ActionStatus(old(tools.pendingAction.value)), false))
      ensures IsChar(k, 'n') || IsChar(k, 'N') || k.code == Esc ==>
        tools.pendingAction.None? && tools.Core() == old(tools.Core()).(pendingAction := None)
        && tools.statusMessage == old(tools.statusMessage) && tools.history.State() == old(tools.history.State())
      ensures !(IsChar(k, 'y') || IsChar(k, 'Y') || IsChar(k, 'n') || IsChar(k, 'N') || k.code == Esc) ==>
        tools.Core() == old(tools.Core()) && tools.statusMessage == old(tools.statusMessage)
        && tools.history.State() == old(tools.history.State())
    {
      if IsChar(k, 'y') || IsChar(k, 'Y') {
        var a := tools.ConfirmAction();
        ExecuteAction(a.value, listed);
      } else if IsChar(k, 'n') || IsChar(k, 'N') || k.code == Esc {
        tools.CancelAction();
      }
    }

    /** Jump mode: a letter jumps to the first tool starting with it; every key, the letter
        included, returns to normal mode. */
    method HandleJumpMode(k: Key)
      modifies tools
      ensures tools.inputMode == Normal
      ensures k.code.Char? && IsAsciiAlpha(k.code.c) ==>
        var hit := ToolList.FirstWithInitial(tools.tools, LowerChar(k.code.c));
        hit.Some? ==> tools.selectedIndex == hit.value
      ensures !(k.code.Char? && IsAsciiAlpha(k.code.c)) ==>
        tools.Core() == old(tools.Core()).(inputMode := Normal) && tools.statusMessage == old(tools.statusMessage)
      ensures tools.tools == old(tools.tools) && tools.View() == old(tools.View())
    {
      if k.code.Char? && IsAsciiAlpha(k.code.c) {
        tools.JumpToLetter(k.code.c);
      } else {
        tools.ReturnToNormal();
      }
    }

    /** Search mode: Esc and Enter leave it, Backspace drops a character, a character extends
        the query; the list is refiltered after every edit. */
    method HandleSearchMode(k: Key)
      modifies tools
      ensures k.code == Esc || k.code == Enter ==>
        tools.Core() == old(tools.Core()).(inputMode := Normal)
      ensures k.code.Char? ==>
        tools.searchQuery == old(tools.searchQuery) + [k.code.c] && tools.tools == tools.Filtered()
      ensures k.code == Backspace && |old(tools.searchQuery)| > 0 ==>
        tools.searchQuery == old(tools.searchQuery)[..|old(tools.searchQuery)| - 1] && tools.tools == tools.Filtered()
      ensures k.code == Backspace || k.code.Char? ==>
        tools.inputMode == old(tools.inputMode) && tools.selectedIndex == ToolList.ClampIndex(old(tools.selectedIndex), |tools.tools|)
      ensures !(k.code in {Esc, Enter, Backspace} || k.code.Char?) ==> tools.Core() == old(tools.Core())
      ensures tools.statusMessage == old(tools.statusMessage)
    {
      match k.code
      case Esc => tools.ReturnToNormal();
      case Enter => tools.ReturnToNormal();
      case Backspace => tools.SearchPop();
      case Char(c) => tools.SearchPush(c);
      case _ =>
    }

    /** Command mode: Esc leaves it with the input cleared, Tab completes, Up and Down walk the
        history, Backspace on an empty line leaves the mode and otherwise drops a character, a
        character is typed. Enter yields the line to run. */
    method HandleCommandMode(k: Key) returns (submitted: Option<string>)
      requires command.Valid()
      modifies tools, command
      ensures command.Valid()
      ensures submitted.Some? <==> k.code == Enter
      ensures k.code == Enter ==> submitted.value == old(command.commandInput) && command.State() == old(command.State())
      ensures k.code == Esc || (k.code == Backspace && old(command.commandInput) == "") ==>
        command.mode == Normal && tools.inputMode == Normal && command.commandInput == ""
      ensures k.code == Backspace && old(command.commandInput) != "" ==>
        command.State() == old(command.State()).(input := old(command.commandInput)[..|old(command.commandInput)| - 1])
        && tools.inputMode == old(tools.inputMode)
      ensures k.code.Char? ==> command.State() == old(command.State()).(input := old(command.commandInput) + [k.code.c])
      ensures k.code == TabKey ==> command.State() == old(command.State()).(input := Palette.Autocomplete(old(command.commandInput)))
      ensures k.code == Up ==> command.State() == Palette.InlineHistoryPrev(old(command.State()))
      ensures k.code == Down ==> command.State() == Palette.HistoryNext(old(command.State()))
      ensures tools.statusMessage == old(tools.statusMessage)
      ensures tools.Core() == old(tools.Core()) || tools.Core() == old(tools.Core()).(inputMode := Normal)
    {
      submitted := None;
      match k.code
      case Esc =>
        command.ExitCommand();
        tools.ReturnToNormal();
      case Enter =>
        submitted := Some(command.commandInput);
      case TabKey => command.AutocompleteCommand();
      case Up => command.CommandHistoryPrev();
      case Down => command.CommandHistoryNext();
      case Backspace =>
        if command.commandInput == "" {
          command.ExitCommand();
          tools.ReturnToNormal();
        } else {
          command.CommandPop();
        }
      case Char(c) => command.CommandPush(c);
      case _ =>
    }

    /** The live preview after moving inside the theme or AI section: the highlighted theme is
        drawn at once, and the AI indicator follows whether a provider is highlighted. */
    method Preview()
      modifies config
      ensures config.menu.section == Theme ==>
        config.themeVariant == FromConfigTheme(ThemeFromIndex(config.menu.themeSelected))
      ensures config.menu.section == AiProvider ==> (config.aiAvailable <==> config.menu.aiSelected != 0)
      ensures config.menu.section == Theme ==> config.aiAvailable == old(config.aiAvailable)
      ensures config.menu.section == AiProvider ==> config.themeVariant == old(config.themeVariant)
      ensures config.menu.section !in {Theme, AiProvider} ==>
        config.themeVariant == old(config.themeVariant) && config.aiAvailable == old(config.aiAvailable)
      ensures config.showConfigMenu == old(config.showConfigMenu)
    {
      if config.menu.section == Theme {
        config.themeVariant := FromConfigTheme(ThemeFromIndex(config.menu.themeSelected));
      } else if config.menu.section == AiProvider {
        config.aiAvailable := config.menu.aiSelected != 0;
      }
    }

    /** Keys while the configuration menu shows. */
    method HandleConfigMenuKey(k: Key, w: World)
      requires Valid()
      modifies config, config.menu, tools, config.discover
      ensures Valid()
      ensures k.code == Esc ==> !config.showConfigMenu
      ensures k.code == TabKey ==> config.menu.section == AppTypes.NextSection(old(config.menu.section))
      ensures k.code == BackTab ==> config.menu.section == AppTypes.PrevSection(old(config.menu.section))
      ensures k.code == Down || IsChar(k, 'j') ==>
        config.menu.Items() == ConfigMenu.With(old(config.menu.Items()), config.menu.section,
          ConfigMenu.StepDown(ConfigMenu.At(old(config.menu.Items()), config.menu.section), ItemCount(config.menu.section)))
      ensures k.code == Up || IsChar(k, 'k') ==>
        config.menu.Items() == ConfigMenu.With(old(config.menu.Items()), config.menu.section,
          ConfigMenu.StepUp(ConfigMenu.At(old(config.menu.Items()), config.menu.section), ItemCount(config.menu.section)))
      ensures (k.code in {Down, Up} || IsChar(k, 'j') || IsChar(k, 'k')) && config.menu.section == Theme ==>
        config.themeVariant == FromConfigTheme(ThemeFromIndex(config.menu.themeSelected))
      ensures (k.code in {Down, Up} || IsChar(k, 'j') || IsChar(k, 'k')) && config.menu.section == AiProvider ==>
        (config.aiAvailable <==> config.menu.aiSelected != 0)
      ensures (k.code == Left || IsChar(k, 'h')) && old(config.menu.section) == Buttons ==> config.menu.buttonFocused == 0
      ensures (k.code == Right || IsChar(k, 'l')) && old(config.menu.section) == Buttons ==> config.menu.buttonFocused == 1
      ensures (k.code in {Left, Right} || IsChar(k, 'h') || IsChar(k, 'l')) && old(config.menu.section) != Buttons ==>
        config.menu.Items() == old(config.menu.Items())
      ensures IsChar(k, ' ') && old(config.menu.section) !in {Sources, Buttons} ==>
        config.menu.Items() == old(config.menu.Items()) && config.menu.sources == old(config.menu.sources)
        && config.menu.section == old(config.menu.section)
      ensures IsChar(k, 's') || ((k.code == Enter || IsChar(k, ' ')) && old(config.menu.section) == Buttons) ==>
        !config.showConfigMenu
    {
      match k.code
      case Esc => config.CloseConfigMenu(w.loaded, w.enabled);
      case TabKey => config.NextSection();
      case BackTab => config.PrevSection();
      case Down =>
        config.menu.NextItem();
        Preview();
      case Up =>
        config.menu.PrevItem();
        Preview();
      case Left =>
        if config.menu.section == Buttons {
          config.menu.buttonFocused := 0;
        }
      case Right =>
        if config.menu.section == Buttons {
          config.menu.buttonFocused := 1;
        }
      case Enter => config.Select(w.loaded, w.saveError, w.enabled);
      case Char(c) =>
        if c == 'j' {
          config.menu.NextItem();
          Preview();
        } else if c == 'k' {
          config.menu.PrevItem();
          Preview();
        } else if c == 'h' {
          if config.menu.section == Buttons {
            config.menu.buttonFocused := 0;
          }
        } else if c == 'l' {
          if config.menu.section == Buttons {
            config.menu.buttonFocused := 1;
          }
        } else if c == ' ' {
          if config.menu.section == Sources {
            config.ToggleSource();
          } else if config.menu.section == Buttons {
            config.Select(w.loaded, w.saveError, w.enabled);
          }
        } else if c == 's' {
          config.SaveConfigMenu(w.saveError, w.enabled);
        }
      case _ =>
    }

    /** `handle_key_event`: the key goes to the first layer that is present. The status line is
        cleared only when the key reaches the input mode. A normal-mode key is translated by the
        key table and the command is handed back, as is a command line submitted with Enter. */
    method HandleKeyEvent(k: Key, w: World) returns (route: KeyRoute, normal: Option<NormalCommand>, submitted: Option<string>)
      requires Valid()
      modifies this, tools, tools.history, command, config, config.menu, config.discover
      ensures Valid()
      ensures route == RouteKey(old(tools.pendingAction.Some?), old(showHelp), old(config.showConfigMenu),
        old(showDetailsPopup), old(tools.inputMode), k)
      ensures route in {ConfirmPending, CancelPending} ==> tools.pendingAction.None?
      ensures route == ConfirmPending && IsBatchAction(old(tools.pendingAction.value)) ==> tools.selectedTools == {}
      ensures route in {CancelPending, IgnoredWhilePending, CloseHelp, SwallowedByHelp, CloseDetails, SwallowedByDetails} ==>
        tools.statusMessage == old(tools.statusMessage)
      ensures route in {IgnoredWhilePending, SwallowedByHelp, SwallowedByDetails} ==>
        tools.Core() == old(tools.Core()) && showHelp == old(showHelp) && showDetailsPopup == old(showDetailsPopup)
        && config.showConfigMenu == old(config.showConfigMenu)
      ensures route == CloseHelp ==> !showHelp && tools.Core() == old(tools.Core())
      ensures route == CloseDetails ==> !showDetailsPopup && tools.Core() == old(tools.Core())
      ensures route.ToMode? && route.mode != InputMode.JumpToLetter ==> tools.statusMessage.None?
      ensures route.ToMode? && route.mode == InputMode.JumpToLetter ==> tools.inputMode == Normal
      ensures normal.Some? <==> route == ToMode(Normal)
      ensures normal.Some? ==> normal.value == NormalCommandFor(k, old(tools.tab))
      ensures submitted.Some? <==> route == ToMode(Command) && k.code == Enter
    {
      route := RouteKey(tools.pendingAction.Some?, showHelp, config.showConfigMenu, showDetailsPopup, tools.inputMode, k);
      normal := None;
      submitted := None;
      match route
      case ConfirmPending => HandlePendingKey(k, w.listed);
      case CancelPending => HandlePendingKey(k, w.listed);
      case IgnoredWhilePending =>
      case CloseHelp => showHelp := false;
      case SwallowedByHelp =>
      case ToConfigMenu => HandleConfigMenuKey(k, w);
      case CloseDetails => showDetailsPopup := false;
      case SwallowedByDetails =>
      case ToMode(mode) =>
        tools.ClearStatus();
        match mode
        case Normal => normal := Some(NormalCommandFor(k, tools.tab));
        case Search => HandleSearchMode(k);
        case Command => submitted := HandleCommandMode(k);
        case JumpToLetter => HandleJumpMode(k);
    }

    /** Ten steps down the tool list, each stopping at the last tool. */
    method PageDown()
      modifies tools
      ensures |tools.tools| > 0 ==> tools.selectedIndex == ConfigMenu.Min(old(tools.selectedIndex) + 10, |tools.tools| - 1)
      ensures |tools.tools| == 0 ==> tools.selectedIndex == old(tools.selectedIndex)
      ensures tools.tools == old(tools.tools) && tools.View() == old(tools.View())
    {
      for i := 0 to 10
        invariant tools.tools == old(tools.tools) && tools.View() == old(tools.View())
        invariant i > 0 && |tools.tools| > 0 ==>
          tools.selectedIndex == ConfigMenu.Min(old(tools.selectedIndex) + i, |tools.tools| - 1)
        invariant i == 0 ==> tools.selectedIndex == old(tools.selectedIndex)
        invariant |tools.tools| == 0 ==> tools.selectedIndex == old(tools.selectedIndex)
      {
        tools.SelectNext();
      }
    }

    /** Ten steps up the tool list, each stopping at the first tool. */
    method PageUp()
      modifies tools
      ensures tools.selectedIndex == SaturatingSub(old(tools.selectedIndex), 10)
      ensures tools.tools == old(tools.tools) && tools.View() == old(tools.View())
    {
      for i := 0 to 10
        invariant tools.tools == old(tools.tools) && tools.View() == old(tools.View())
        invariant tools.selectedIndex == SaturatingSub(old(tools.selectedIndex), i)
      {
        tools.SelectPrev();
      }
    }

    /** `click_tab`: walk the tab titles left to right and switch to the one under the click. */
    method ClickTab(x: nat, listed: Option<seq<Tool>>)
      modifies tools
      ensures lastTabArea.None? ==> tools.tab == old(tools.tab) && tools.tools == old(tools.tools)
      ensures lastTabArea.Some? ==>
        var hit := TabFrom(SaturatingSub(x, lastTabArea.value.0 + 1), 0);
        && (hit.Some? ==> tools.tab == hit.value)
        && (hit.None? ==> tools.tab == old(tools.tab) && tools.tools == old(tools.tools))
    {
      if lastTabArea.None? {
        return;
      }
      var rel := SaturatingSub(x, lastTabArea.value.0 + 1);
      var pos := 0;
      var i := 0;
      while i < |AllTabs|
        invariant 0 <= i <= |AllTabs| && pos == TabStart(i)
        invariant TabFrom(rel, 0) == TabFrom(rel, i)
        invariant tools.tab == old(tools.tab) && tools.tools == old(tools.tools)
      {
        var width := TabWidth(AllTabs[i]);
        if pos <= rel < pos + width {
          assert TabFrom(rel, 0) == Some(AllTabs[i]);
          tools.SwitchTab(AllTabs[i], listed);
          return;
        }
        pos := pos + width;
        pos := pos + 1;
        i := i + 1;
      }
    }

    /** A click on a menu line: the line's section gets the focus and its item is picked, with
        the theme previewed at once; a source is also toggled, and the buttons act as Enter. */
    method ClickMenuItem(target: MenuClick, w: World)
      requires Valid()
      requires target.ClickAi? ==> target.item < ItemCount(AiProvider)
      requires target.ClickTheme? ==> target.item < ItemCount(Theme)
      requires target.ClickSource? ==> target.item < ItemCount(Sources)
      requires target.ClickUsage? ==> target.item < ItemCount(UsageMode)
      modifies config, config.menu, tools, config.discover
      ensures Valid()
      ensures target.ClickAi? ==> config.menu.section == AiProvider && config.menu.aiSelected == target.item
      ensures target.ClickTheme? ==> config.menu.section == Theme && config.menu.themeSelected == target.item
      ensures target.ClickTheme? ==> config.themeVariant == FromConfigTheme(ThemeFromIndex(target.item))
      ensures target.ClickSource? ==> config.menu.section == Sources && config.menu.sourceFocused == target.item
      ensures target.ClickSource? && target.item < |config.menu.allSources| && config.menu.allSources[target.item] in config.available ==>
        config.menu.sources == ToolList.Toggle(old(config.menu.sources), config.menu.allSources[target.item])
      ensures target.ClickUsage? ==> config.menu.section == UsageMode && config.menu.usageSelected == target.item
      ensures target.ClickButtons? ==> config.menu.section == Buttons && !config.showConfigMenu
      ensures target.ClickNothing? ==>
        config.menu.Items() == old(config.menu.Items()) && config.menu.section == old(config.menu.section)
      ensures target.ClickNothing? ==> config.showConfigMenu == old(config.showConfigMenu)
    {
      match target
      case ClickAi(item) =>
        config.menu.section := AiProvider;
        config.menu.aiSelected := item;
      case ClickTheme(item) =>
        config.menu.section := Theme;
        config.menu.themeSelected := item;
        config.themeVariant := FromConfigTheme(ThemeFromIndex(item));
      case ClickSource(item) =>
        config.menu.section := Sources;
        config.menu.sourceFocused := item;
        config.ToggleSource();
      case ClickUsage(item) =>
        config.menu.section := UsageMode;
        config.menu.usageSelected := item;
      case ClickButtons =>
        config.menu.section := Buttons;
        config.Select(w.loaded, w.saveError, w.enabled);
      case ClickNothing =>
    }

    /** Whether a click at (`x`, `y`) falls inside the borders of the popup (`px`, `py`, `pw`, `ph`). */
    static predicate InsideBorders(x: nat, y: nat, px: nat, py: nat, pw: nat, ph: nat) {
      px + 1 <= x && x + 1 < px + pw && py + 1 <= y && y + 1 < py + ph
    }

    /** Mouse events while the configuration menu shows: the wheel scrolls its content, and a
        left click inside the borders picks the item on the clicked line. Nothing happens before
        the menu was first drawn. */
    method HandleConfigMenuMouse(m: MouseEvent, w: World) returns (target: MenuClick)
      requires Valid()
      modifies config, config.menu, tools, config.discover
      ensures Valid()
      ensures lastConfigPopupArea.None? || m.kind !in {ScrollUp, ScrollDown, LeftDown} ==>
        config.menu.Items() == old(config.menu.Items()) && config.menu.section == old(config.menu.section)
        && config.menu.scrollOffset == old(config.menu.scrollOffset)
      ensures lastConfigPopupArea.Some? && m.kind == ScrollUp ==>
        config.menu.scrollOffset == SaturatingSub(old(config.menu.scrollOffset), 1)
      ensures lastConfigPopupArea.Some? && m.kind == ScrollDown ==>
        var total := TotalLines(old(config.menu.CustomThemeSelected()));
        var maxScroll := SaturatingSub(total, SaturatingSub(lastConfigPopupArea.value.3, 2));
        config.menu.scrollOffset == if old(config.menu.scrollOffset) < maxScroll then old(config.menu.scrollOffset) + 1 else old(config.menu.scrollOffset)
      ensures !(lastConfigPopupArea.Some? && m.kind == LeftDown) ==> target == ClickNothing
      ensures lastConfigPopupArea.Some? && m.kind == LeftDown ==>
        var (px, py, pw, ph) := lastConfigPopupArea.value;
        var custom := old(config.menu.CustomThemeSelected());
        var maxScroll := SaturatingSub(TotalLines(custom), SaturatingSub(ph, 2));
        target == if InsideBorders(m.column, m.row, px, py, pw, ph)
          then LineTarget(ClickedLine(m.row, py + 1, old(config.menu.scrollOffset), maxScroll), custom)
          else ClickNothing
      ensures target.ClickAi? ==> config.menu.section == AiProvider && config.menu.aiSelected == target.item
      ensures target.ClickTheme? ==> config.menu.section == Theme && config.menu.themeSelected == target.item
      ensures target.ClickTheme? ==> config.themeVariant == FromConfigTheme(ThemeFromIndex(target.item))
      ensures target.ClickSource? ==> config.menu.section == Sources && config.menu.sourceFocused == target.item
      ensures target.ClickUsage? ==> config.menu.section == UsageMode && config.menu.usageSelected == target.item
      ensures target.ClickButtons? ==> !config.showConfigMenu
    {
      target := ClickNothing;
      if lastConfigPopupArea.None? {
        return;
      }
      var (px, py, pw, ph) := lastConfigPopupArea.value;
      var contentHeight := SaturatingSub(ph, 2);
      var custom := config.menu.themeSelected == CustomThemeIndex;
      var total := TotalLines(custom);
      match m.kind
      case ScrollUp => config.menu.ScrollUp();
      case ScrollDown => config.ScrollDown(total, contentHeight);
      case LeftDown =>
        if InsideBorders(m.column, m.row, px, py, pw, ph) {
          var line := ClickedLine(m.row, py + 1, config.menu.scrollOffset, SaturatingSub(total, contentHeight));
          LineTargetSpec(line, custom, 0);
          target := LineTarget(line, custom);
          ClickMenuItem(target, w);
        }
      case _ =>
    }

    /** `handle_mouse_event`: the configuration menu first; nothing while an overlay or a
        confirmation shows or outside normal mode; otherwise the wheel moves the cursor (of the
        bundles on the Bundles tab), a left click picks a tab or a row, and a right click picks a
        row and flips its selection. */
    method HandleMouseEvent(m: MouseEvent, w: World) returns (route: MouseRoute)
      requires Valid()
      modifies this, tools, tools.history, config, config.menu, config.discover
      ensures Valid()
      ensures route == RouteMouse(old(config.showConfigMenu), old(showHelp), old(showDetailsPopup),
        old(tools.pendingAction.Some?), old(tools.inputMode))
      ensures route == MouseIgnored ==>
        tools.Core() == old(tools.Core()) && tools.statusMessage == old(tools.statusMessage)
      ensures route == MouseIgnored ==> tools.history.State() == old(tools.history.State())
      ensures route == ToList && m.kind == ScrollDown && old(tools.tab) != Bundles && |tools.tools| > 0 ==>
        tools.selectedIndex == ConfigMenu.Min(old(tools.selectedIndex) + 1, |tools.tools| - 1)
      ensures route == ToList && m.kind == ScrollUp && old(tools.tab) != Bundles ==>
        tools.selectedIndex == SaturatingSub(old(tools.selectedIndex), 1)
      ensures route == ToList && m.kind == ScrollUp && old(tools.tab) == Bundles ==>
        tools.bundleSelected == SaturatingSub(old(tools.bundleSelected), 1)
      ensures route == ToList && m.kind == RightDown && old(tools.GetListRow(m.column, m.row)).None? ==>
        tools.Core() == old(tools.Core()) && tools.history.State() == old(tools.history.State())
    {
      route := RouteMouse(config.showConfigMenu, showHelp, showDetailsPopup, tools.pendingAction.Some?, tools.inputMode);
      match route
      case ToConfigMenuMouse =>
        var _ := HandleConfigMenuMouse(m, w);
      case MouseIgnored =>
      case ToList =>
        match m.kind
        case ScrollUp =>
          if tools.tab == Bundles {
            tools.SelectPrevBundle();
          } else {
            tools.SelectPrev();
          }
        case ScrollDown =>
          if tools.tab == Bundles {
            tools.SelectNextBundle();
          } else {
            tools.SelectNext();
          }
        case LeftDown =>
          if InArea(lastTabArea, m.column, m.row) {
            ClickTab(m.column, w.listed);
          } else {
            var row := tools.GetListRow(m.column, m.row);
            if row.Some? {
              tools.ClickListItem(row.value);
            }
          }
        case RightDown =>
          var row := tools.GetListRow(m.column, m.row);
          if row.Some? {
            tools.ClickListItem(row.value);
            tools.ToggleSelection();
          }
        case OtherMouse =>
    }
  }

  function SaturatingSub(a: nat, b: nat): nat {
    ConfigMenu.SaturatingSub(a, b)
  }
}
