// The TUI's small value types: tabs, sort keys, input modes, the sections of
// the config menu and their line layout, discovery sources, and the actions
// that wait for confirmation.

module AppTypes {
  import opened Text

  // ---------------------------------------------------------------------
  // Tabs.

  datatype Tab = Installed | Available | Updates | Bundles | Discover

  const AllTabs: seq<Tab> := [Installed, Available, Updates, Bundles, Discover]

  function TabIndex(t: Tab): (i: nat)
    ensures i < |AllTabs| && AllTabs[i] == t
  {
    match t
    case Installed => 0
    case Available => 1
    case Updates => 2
    case Bundles => 3
    case Discover => 4
  }

  function TabFromIndex(i: nat): (r: Option<Tab>)
    ensures r.Some? <==> i < |AllTabs|
  {
    if i == 0 then Some(Installed)
    else if i == 1 then Some(Available)
    else if i == 2 then Some(Updates)
    else if i == 3 then Some(Bundles)
    else if i == 4 then Some(Discover)
    else None
  }

  /** `from_index` undoes `index`, and `index` undoes `from_index` where it is defined. */
  lemma TabIndexRoundTrip(t: Tab, i: nat)
    ensures TabFromIndex(TabIndex(t)) == Some(t)
    ensures TabFromIndex(i).Some? ==> TabIndex(TabFromIndex(i).value) == i
  {
  }

  /** The tab `next_tab` moves to: one index further, modulo the number of tabs. */
  function NextTab(t: Tab): Tab {
    TabFromIndex((TabIndex(t) + 1) % |AllTabs|).value
  }

  /** The tab `prev_tab` moves to: one index back, wrapping from the first to the last. */
  function PrevTab(t: Tab): Tab {
    TabFromIndex(if TabIndex(t) == 0 then |AllTabs| - 1 else TabIndex(t) - 1).value
  }

  function NextTabN(t: Tab, n: nat): Tab
    decreases n
  {
    if n == 0 then t else NextTabN(NextTab(t), n - 1)
  }

  /** Next and previous tab undo each other, and `next` moves one index on, modulo 5. */
  lemma TabCycle(t: Tab)
    ensures PrevTab(NextTab(t)) == t && NextTab(PrevTab(t)) == t
    ensures TabIndex(NextTab(t)) == (TabIndex(t) + 1) % 5
    ensures NextTab(t) != t
  {
  }

  lemma NextTabTable()
    ensures NextTab(Installed) == Available && NextTab(Available) == Updates
    ensures NextTab(Updates) == Bundles && NextTab(Bundles) == Discover
    ensures NextTab(Discover) == Installed
  {
  }

  /** Five `next_tab` steps come back to the start. */
  lemma TabPeriod(t: Tab)
    ensures NextTabN(t, 5) == t
  {
    NextTabTable();
    var t1 := NextTab(t);
    var t2 := NextTab(t1);
    var t3 := NextTab(t2);
    var t4 := NextTab(t3);
    assert NextTabN(t, 5) == NextTabN(t1, 4);
    assert NextTabN(t1, 4) == NextTabN(t2, 3);
    assert NextTabN(t2, 3) == NextTabN(t3, 2);
    assert NextTabN(t3, 2) == NextTabN(t4, 1);
    assert NextTabN(t4, 1) == NextTab(t4);
  }

  // ---------------------------------------------------------------------
  // Sort keys and input modes.

  datatype SortBy = Name | Usage | Recent

  function NextSort(s: SortBy): (r: SortBy)
    ensures r != s
  {
    match s
    case Name => Usage
    case Usage => Recent
    case Recent => Name
  }

  lemma SortCycle(s: SortBy)
    ensures NextSort(NextSort(NextSort(s))) == s
  {
  }

  datatype InputMode = Normal | Search | Command | JumpToLetter

  // ---------------------------------------------------------------------
  // Config menu sections and their layout.

  datatype ConfigSection = AiProvider | Theme | Sources | UsageMode | Buttons

  const AllSections: seq<ConfigSection> := [AiProvider, Theme, Sources, UsageMode, Buttons]

  function SectionIndex(s: ConfigSection): (i: nat)
    ensures i < |AllSections| && AllSections[i] == s
  {
    match s
    case AiProvider => 0
    case Theme => 1
    case Sources => 2
    case UsageMode => 3
    case Buttons => 4
  }

  function NextSection(s: ConfigSection): ConfigSection {
    match s
    case AiProvider => Theme
    case Theme => Sources
    case Sources => UsageMode
    case UsageMode => Buttons
    case Buttons => AiProvider
  }

  function PrevSection(s: ConfigSection): ConfigSection {
    match s
    case AiProvider => Buttons
    case Theme => AiProvider
    case Sources => Theme
    case UsageMode => Sources
    case Buttons => UsageMode
  }

  function NextSectionN(s: ConfigSection, n: nat): ConfigSection
    decreases n
  {
    if n == 0 then s else NextSectionN(NextSection(s), n - 1)
  }

  /** `prev` undoes `next`; `next` follows the order of `all()` cyclically, with period 5. */
  lemma SectionCycle(s: ConfigSection)
    ensures PrevSection(NextSection(s)) == s && NextSection(PrevSection(s)) == s
    ensures SectionIndex(NextSection(s)) == (SectionIndex(s) + 1) % |AllSections|
    ensures NextSectionN(s, 5) == s
  {
  }

  /** Lines a selected custom theme adds below the theme list. */
  function ThemeExtra(customTheme: bool): nat {
    if customTheme then 1 else 0
  }

  function StartLine(s: ConfigSection, customTheme: bool): nat {
    var extra := ThemeExtra(customTheme);
    match s
    case AiProvider => 0
    case Theme => 7
    case Sources => 16 + extra
    case UsageMode => 25 + extra
    case Buttons => 29 + extra
  }

  /** First and last line (inclusive) of a section's items. */
  function ItemLines(s: ConfigSection, customTheme: bool): (nat, nat) {
    var extra := ThemeExtra(customTheme);
    match s
    case AiProvider => (1, 5)
    case Theme => (8, 14)
    case Sources => (17 + extra, 23 + extra)
    case UsageMode => (26 + extra, 27 + extra)
    case Buttons => (29 + extra, 29 + extra)
  }

  function ItemCount(s: ConfigSection): nat {
    match s
    case AiProvider => 5
    case Theme => 7
    case Sources => 7
    case UsageMode => 2
    case Buttons => 2
  }

  const TotalLinesBase := 30
  const CustomThemeIndex := 6

  function TotalLines(customTheme: bool): nat {
    TotalLinesBase + ThemeExtra(customTheme)
  }

  /** The layout is consistent: sections follow one another, each one's items lie below its
      header and above the next section, one line per item except the buttons' single row,
      and everything fits in the total line count. */
  lemma LayoutConsistent(s: ConfigSection, customTheme: bool)
    ensures var (first, last) := ItemLines(s, customTheme);
      && StartLine(s, customTheme) <= first <= last < TotalLines(customTheme)
      && (s != Buttons ==> first == StartLine(s, customTheme) + 1 && last - first + 1 == ItemCount(s))
      && (s != Buttons ==> last < StartLine(NextSection(s), customTheme))
    ensures s != Buttons ==> StartLine(s, customTheme) < StartLine(NextSection(s), customTheme)
  {
  }

  // ---------------------------------------------------------------------
  // Inventory records.  DB rows enter the model as these values.

  datatype VersionPolicy = Latest | Stable | Pinned

  /** A tracked tool. `source` is the install source's name ("cargo", "apt", ...) and
      `updatedAt` the last-update timestamp as a number. */
  datatype Tool = Tool(
    name: string,
    description: Option<string>,
    category: Option<string>,
    source: string,
    isInstalled: bool,
    isFavorite: bool,
    updatedAt: int,
    versionPolicy: Option<VersionPolicy>)

  datatype Bundle = Bundle(name: string, tools: seq<string>, versionPolicy: Option<VersionPolicy>)

  // ---------------------------------------------------------------------
  // Discovery sources.

  datatype DiscoverSource = GitHub | CratesIo | PyPI | Npm | Apt | Homebrew | Go | AI

  /** Registries a tool can be installed from directly. */
  predicate IsInstallable(s: DiscoverSource) {
    s == CratesIo || s == PyPI || s == Npm || s == Homebrew || s == Apt
  }

  /** `discover_source_to_str`. The source's match has no arm for `Go`; the model sends it to
      "unknown" together with GitHub and AI. */
  function DiscoverSourceToStr(s: DiscoverSource): (r: string)
    ensures r == "unknown" <==> !IsInstallable(s)
  {
    match s
    case CratesIo => "cargo"
    case PyPI => "pip"
    case Npm => "npm"
    case Homebrew => "brew"
    case Apt => "apt"
    case _ => "unknown"
  }

  /** The installable sources map to distinct package-manager names. */
  lemma DiscoverSourceToStrInjective(a: DiscoverSource, b: DiscoverSource)
    requires IsInstallable(a) && IsInstallable(b) && a != b
    ensures DiscoverSourceToStr(a) != DiscoverSourceToStr(b)
  {
  }

  /** The rank used when discovery results are sorted by source. */
  function SourceRank(s: DiscoverSource): (r: nat)
    ensures r < 8
  {
    match s
    case CratesIo => 0
    case Npm => 1
    case PyPI => 2
    case Homebrew => 3
    case Apt => 4
    case Go => 5
    case GitHub => 6
    case AI => 7
  }

  lemma SourceRankInjective(a: DiscoverSource, b: DiscoverSource)
    ensures SourceRank(a) == SourceRank(b) ==> a == b
  {
  }

  datatype InstallOption = InstallOption(source: DiscoverSource, installCommand: string)

  /** One discovery hit; stars are `None` for registries that report none. */
  datatype DiscoverResult = DiscoverResult(
    name: string,
    description: Option<string>,
    source: DiscoverSource,
    stars: Option<nat>,
    url: Option<string>,
    language: Option<string>,
    installOptions: seq<InstallOption>)

  // ---------------------------------------------------------------------
  // Undo entries and pending actions.

  /** An undo entry holds the value a field had before the change. */
  datatype UndoableAction =
    | Selection(names: set<string>)
    | Filter(query: string)
    | TabSwitch(tab: Tab)
    | Sort(sortBy: SortBy)

  /** What an install runs: the command shown is always regenerated from name, source and version. */
  datatype InstallTask = InstallTask(
    name: string,
    source: string,
    version: Option<string>,
    displayCommand: string,
    description: Option<string>,
    stars: Option<nat>,
    url: Option<string>)

  datatype DiscoverMetadata = DiscoverMetadata(description: Option<string>, stars: Option<nat>, url: Option<string>)

  datatype PendingAction =
    | Install(tasks: seq<InstallTask>)
    | Uninstall(tools: seq<string>)
    | Update(tasks: seq<InstallTask>)
    | DiscoverInstall(task: InstallTask)
    | DiscoverSelectSource(toolName: string, options: seq<InstallOption>, selected: nat, metadata: DiscoverMetadata)

  datatype ActionVerb = InstallVerb | UninstallVerb | UpdateVerb

  function VerbText(v: ActionVerb): string {
    match v
    case InstallVerb => "Install"
    case UninstallVerb => "Uninstall"
    case UpdateVerb => "Update"
  }

  /** `PendingAction::description`: the tool's name for a single tool, otherwise the count. */
  function Description(v: ActionVerb, tools: seq<string>): string {
    if |tools| == 1 then VerbText(v) + " " + tools[0] + "?"
    else VerbText(v) + " " + NatToString(|tools|) + " tools?"
  }

  /** The prompt starts with the verb and ends with a question mark; it names the tool exactly
      when there is one tool. */
  lemma DescriptionShape(v: ActionVerb, tools: seq<string>)
    ensures StartsWith(Description(v, tools), VerbText(v) + " ")
    ensures EndsWith(Description(v, tools), "?")
    ensures |tools| == 1 ==> Description(v, tools) == VerbText(v) + " " + tools[0] + "?"
    ensures |tools| != 1 ==> EndsWith(Description(v, tools), " tools?")
  {
    var prefix := VerbText(v) + " ";
    var d := Description(v, tools);
    if |tools| == 1 {
      assert d == prefix + (tools[0] + "?");
    } else {
      assert d == prefix + (NatToString(|tools|) + " tools?");
    }
  }
}
