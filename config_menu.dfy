// The configuration menu: its cursor state (which section has focus and which item is
// highlighted in each), the scroll offset of its content, and the operations that open,
// navigate, preview, save and close it.

module ConfigMenu {
  import opened Text
  import opened AppTypes
  import opened Themes
  import ToolList
  import DiscoverSession

  // ---------------------------------------------------------------------
  // The part of the configuration file the menu edits.

  datatype AiProvider = NoProvider | Claude | Gemini | Codex | Opencode

  /** The providers in the order the menu lists them. */
  const AiProviders: seq<AiProvider> := [NoProvider, Claude, Gemini, Codex, Opencode]

  datatype UsageMode = Scan | Hook

  /** The AI provider, theme, usage-tracking mode and enabled package-manager sources. */
  datatype MenuConfig = MenuConfig(provider: AiProvider, theme: TuiTheme, usage: UsageMode, sources: set<string>)

  /** Position of a provider in `AiProviders`. */
  function ProviderIndex(p: AiProvider): (i: nat)
    ensures i < |AiProviders| && AiProviders[i] == p
  {
    match p
    case NoProvider => 0
    case Claude => 1
    case Gemini => 2
    case Codex => 3
    case Opencode => 4
  }

  function UsageIndex(m: UsageMode): nat {
    match m
    case Scan => 0
    case Hook => 1
  }

  /** Index into the menu's usage list; 0 is scan, anything else is the hook mode. */
  function UsageFromIndex(i: nat): UsageMode {
    if i == 0 then Scan else Hook
  }

  // ---------------------------------------------------------------------
  // The highlighted item of every section.

  datatype Cursor = Cursor(ai: nat, theme: nat, source: nat, usage: nat, button: nat)

  /** The highlighted item of section `s`. */
  function At(c: Cursor, s: ConfigSection): nat {
    match s
    case AiProvider => c.ai
    case Theme => c.theme
    case Sources => c.source
    case UsageMode => c.usage
    case Buttons => c.button
  }

  /** `c` with the item of section `s` set to `v`. */
  function With(c: Cursor, s: ConfigSection, v: nat): (r: Cursor)
    ensures At(r, s) == v
    ensures forall t :: t != s ==> At(r, t) == At(c, t)
  {
    match s
    case AiProvider => c.(ai := v)
    case Theme => c.(theme := v)
    case Sources => c.(source := v)
    case UsageMode => c.(usage := v)
    case Buttons => c.(button := v)
  }

  /** Every section's item lies inside that section. */
  predicate InRange(c: Cursor) {
    && c.ai < ItemCount(AiProvider) && c.theme < ItemCount(Theme) && c.source < ItemCount(Sources)
    && c.usage < ItemCount(UsageMode) && c.button < ItemCount(Buttons)
  }

  /** One item down, wrapping from the last to the first. */
  function StepDown(i: nat, count: nat): nat
    requires count > 0
  {
    (i + 1) % count
  }

  /** One item up, wrapping from the first to the last. */
  function StepUp(i: nat, count: nat): nat
    requires count > 0
  {
    if i == 0 then count - 1 else i - 1
  }

  /** On an item inside the section, moving down and moving up undo each other and stay inside. */
  lemma StepsInverse(i: nat, count: nat)
    requires count > 0 && i < count
    ensures StepDown(i, count) < count && StepUp(i, count) < count
    ensures StepUp(StepDown(i, count), count) == i
    ensures StepDown(StepUp(i, count), count) == i
  {
  }

  /** Where section navigation scrolls to: the section's first line, capped so that the buttons
      stay reachable. */
  function SectionScroll(s: ConfigSection, customTheme: bool): nat {
    Min(StartLine(s, customTheme), 25)
  }

  function Min(a: nat, b: nat): nat {
    if a <= b then a else b
  }

  /** After section navigation the section's header is on the screen's first six content rows,
      and for every section but the last two it is the very first row. */
  lemma SectionScrollShowsHeader(s: ConfigSection, customTheme: bool)
    ensures SectionScroll(s, customTheme) <= StartLine(s, customTheme) <= SectionScroll(s, customTheme) + 5
    ensures s in {AiProvider, Theme, Sources} ==> SectionScroll(s, customTheme) == StartLine(s, customTheme)
    ensures SectionScroll(s, customTheme) <= 25
  {
  }

  /** `saturating_sub`. */
  function SaturatingSub(a: nat, b: nat): (r: nat)
    ensures r + b >= a && r <= a
    ensures b <= a ==> r == a - b
  {
    if a >= b then a - b else 0
  }

  // ---------------------------------------------------------------------
  // The menu state.

  /** `ConfigMenuState`: a focused section, the highlighted item in each section, the source
      toggles, and how far the content is scrolled. `allSources` lists the package-manager
      sources in menu order; `defaultSources` are the ones a fresh configuration enables. */
  class MenuState {
    var section: ConfigSection
    var aiSelected: nat
    var themeSelected: nat
    var usageSelected: nat
    var sources: set<string>
    var sourceFocused: nat
    var buttonFocused: nat
    var scrollOffset: nat
    const allSources: seq<string>
    const defaultSources: set<string>

    function Items(): Cursor
      reads this
    {
      Cursor(aiSelected, themeSelected, sourceFocused, usageSelected, buttonFocused)
    }

    /** Every section's highlighted item lies inside that section. */
    predicate Valid()
      reads this
    {
      InRange(Items())
    }

    /** Whether the custom theme, the last entry of the theme list, is highlighted. */
    predicate CustomThemeSelected()
      reads this
    {
      themeSelected == CustomThemeIndex
    }

    /** `ConfigMenuState::default()`. */
    constructor (allSources: seq<string>, defaultSources: set<string>)
      ensures Valid() && section == AiProvider && Items() == Cursor(0, 0, 0, 0, 0)
      ensures sources == defaultSources && scrollOffset == 0
      ensures this.allSources == allSources && this.defaultSources == defaultSources
    {
      section := AiProvider;
      aiSelected := 0;
      themeSelected := 0;
      usageSelected := 0;
      sources := defaultSources;
      sourceFocused := 0;
      buttonFocused := 0;
      scrollOffset := 0;
      this.allSources := allSources;
      this.defaultSources := defaultSources;
    }

    /** `from_config` when a configuration could be loaded, the default state otherwise. The
        state reflects the loaded configuration: converting it back gives that configuration. */
    method Load(loaded: Option<MenuConfig>)
      modifies this
      ensures Valid() && section == AiProvider && scrollOffset == 0
      ensures sourceFocused == 0 && buttonFocused == 0
      ensures loaded.None? ==> Items() == Cursor(0, 0, 0, 0, 0) && sources == defaultSources
      ensures loaded.Some? ==> ToConfig() == loaded.value
    {
      section := AiProvider;
      sourceFocused := 0;
      buttonFocused := 0;
      scrollOffset := 0;
      match loaded
      case None =>
        aiSelected := 0;
        themeSelected := 0;
        usageSelected := 0;
        sources := defaultSources;
      case Some(config) =>
        aiSelected := ProviderIndex(config.provider);
        themeSelected := ThemeIndex(config.theme);
        usageSelected := UsageIndex(config.usage);
        sources := config.sources;
        IndexRoundTrip(config.theme, 0);
    }

    /** `to_config`: the provider at the highlighted position (a position past the list aborts),
        the highlighted theme, scan or hook, and the toggled sources. */
    function ToConfig(): (c: MenuConfig)
      reads this
      requires aiSelected < |AiProviders|
      ensures ProviderIndex(c.provider) == aiSelected
      ensures themeSelected < 7 ==> ThemeIndex(c.theme) == themeSelected
      ensures c.usage == Scan <==> usageSelected == 0
      ensures c.sources == sources
    {
      IndexRoundTrip(ConfigMocha, themeSelected);
      MenuConfig(AiProviders[aiSelected], ThemeFromIndex(themeSelected), UsageFromIndex(usageSelected), sources)
    }

    /** `next_item`: the focused section's item moves down one, wrapping; no other item moves. */
    method NextItem()
      modifies this
      ensures Items() == With(old(Items()), section, StepDown(At(old(Items()), section), ItemCount(section)))
      ensures At(Items(), section) < ItemCount(section)
      ensures old(Valid()) ==> Valid()
      ensures section == old(section) && sources == old(sources) && scrollOffset == old(scrollOffset)
    {
      var count := ItemCount(section);
      match section
      case AiProvider => aiSelected := (aiSelected + 1) % count;
      case Theme => themeSelected := (themeSelected + 1) % count;
      case Sources => sourceFocused := (sourceFocused + 1) % count;
      case UsageMode => usageSelected := (usageSelected + 1) % count;
      case Buttons => buttonFocused := (buttonFocused + 1) % count;
    }

    /** `prev_item`: the focused section's item moves up one, wrapping; no other item moves. */
    method PrevItem()
      modifies this
      ensures Items() == With(old(Items()), section, StepUp(At(old(Items()), section), ItemCount(section)))
      ensures old(Valid()) ==> Valid()
      ensures section == old(section) && sources == old(sources) && scrollOffset == old(scrollOffset)
    {
      var count := ItemCount(section);
      match section
      case AiProvider => aiSelected := if aiSelected == 0 then count - 1 else aiSelected - 1;
      case Theme => themeSelected := if themeSelected == 0 then count - 1 else themeSelected - 1;
      case Sources => sourceFocused := if sourceFocused == 0 then count - 1 else sourceFocused - 1;
      case UsageMode => usageSelected := if usageSelected == 0 then count - 1 else usageSelected - 1;
      case Buttons => buttonFocused := if buttonFocused == 0 then count - 1 else buttonFocused - 1;
    }

    /** `toggle_current_source`: on the source section, flip the focused source if there is one. */
    method ToggleCurrentSource()
      modifies this
      ensures section == Sources && sourceFocused < |allSources| ==>
        sources == ToolList.Toggle(old(sources), allSources[sourceFocused])
      ensures !(section == Sources && sourceFocused < |allSources|) ==> sources == old(sources)
      ensures section == old(section) && Items() == old(Items()) && scrollOffset == old(scrollOffset)
    {
      if section == Sources && sourceFocused < |allSources| {
        sources := ToolList.Toggle(sources, allSources[sourceFocused]);
      }
    }

    /** `scroll_up`: one line up, stopping at the top. */
    method ScrollUp()
      modifies this
      ensures scrollOffset == SaturatingSub(old(scrollOffset), 1)
      ensures section == old(section) && Items() == old(Items()) && sources == old(sources)
    {
      scrollOffset := if scrollOffset == 0 then 0 else scrollOffset - 1;
    }

    /** `scroll_down`: one line down while below `maxScroll`; never passes it from below. */
    method ScrollDown(maxScroll: nat)
      modifies this
      ensures scrollOffset == if old(scrollOffset) < maxScroll then old(scrollOffset) + 1 else old(scrollOffset)
      ensures old(scrollOffset) <= maxScroll ==> scrollOffset <= maxScroll
      ensures section == old(section) && Items() == old(Items()) && sources == old(sources)
    {
      if scrollOffset < maxScroll {
        scrollOffset := scrollOffset + 1;
      }
    }

    /** Focus `s` and scroll so that its header shows. */
    method FocusSection(s: ConfigSection)
      modifies this
      ensures section == s && scrollOffset == SectionScroll(s, old(CustomThemeSelected()))
      ensures Items() == old(Items()) && sources == old(sources)
    {
      section := s;
      scrollOffset := Min(StartLine(s, themeSelected == CustomThemeIndex), 25);
    }
  }

  // ---------------------------------------------------------------------
  // The menu inside the dashboard.

  /** The dashboard's part that the menu works on: the menu itself, whether it shows, the
      theme and AI availability it previews, the status line (on the tool list) and the
      Discover tab's source filters. `available` names the package managers present on the
      machine. */
  class ConfigMenuApp {
    const menu: MenuState
    const tools: ToolList.ToolListApp
    const discover: DiscoverSession.DiscoverTab
    var showConfigMenu: bool
    var themeVariant: ThemeVariant
    var aiAvailable: bool
    const available: set<string>

    constructor (menu: MenuState, tools: ToolList.ToolListApp, discover: DiscoverSession.DiscoverTab,
                 available: set<string>, theme: ThemeVariant, aiAvailable: bool)
      ensures this.menu == menu && this.tools == tools && this.discover == discover
      ensures this.available == available && themeVariant == theme && this.aiAvailable == aiAvailable
      ensures !showConfigMenu
    {
      this.menu := menu;
      this.tools := tools;
      this.discover := discover;
      this.available := available;
      themeVariant := theme;
      this.aiAvailable := aiAvailable;
      showConfigMenu := false;
    }

    /** `open_config_menu`: reload the menu from the configuration file (`loaded`, absent when
        it cannot be read) and show it. */
    method OpenConfigMenu(loaded: Option<MenuConfig>)
      modifies this, menu
      ensures showConfigMenu && menu.Valid() && menu.section == AiProvider && menu.scrollOffset == 0
      ensures loaded.Some? ==> menu.ToConfig() == loaded.value
      ensures loaded.None? ==> menu.Items() == Cursor(0, 0, 0, 0, 0) && menu.sources == menu.defaultSources
      ensures themeVariant == old(themeVariant) && aiAvailable == old(aiAvailable)
    {
      menu.Load(loaded);
      showConfigMenu := true;
    }

    /** `close_config_menu`: undo any preview by taking theme and AI availability from the file
        again (when it can be read), hide the menu, and re-derive the Discover source filters
        from `enabled`, the sources the configuration file enables. */
    method CloseConfigMenu(loaded: Option<MenuConfig>, enabled: set<string>)
      modifies this, discover
      ensures !showConfigMenu
      ensures loaded.Some? ==>
        themeVariant == FromConfigTheme(loaded.value.theme) && aiAvailable == (loaded.value.provider != NoProvider)
      ensures loaded.None? ==> themeVariant == old(themeVariant) && aiAvailable == old(aiAvailable)
      ensures discover.sourceFilters == DiscoverSession.Refreshed(old(discover.sourceFilters), enabled, discover.ghAvailable)
      ensures discover.Form() == old(discover.Form()).(sourceFilters := discover.sourceFilters)
      ensures discover.Run() == old(discover.Run())
    {
      if loaded.Some? {
        themeVariant := FromConfigTheme(loaded.value.theme);
        aiAvailable := loaded.value.provider != NoProvider;
      }
      showConfigMenu := false;
      discover.RefreshDiscoverSources(enabled);
    }

    /** `save_config_menu`: apply the menu's theme and provider, report whether writing the file
        failed (`saveError`), hide the menu and re-derive the Discover source filters. */
    method SaveConfigMenu(saveError: Option<string>, enabled: set<string>)
      requires menu.aiSelected < |AiProviders|
      modifies this, tools, discover
      ensures !showConfigMenu
      ensures themeVariant == FromConfigTheme(menu.ToConfig().theme)
      ensures aiAvailable <==> menu.aiSelected != 0
      ensures saveError.Some? ==>
        tools.statusMessage == Some(ToolList.StatusMessage("Failed to save config: " + saveError.value, true))
      ensures saveError.None? ==> tools.statusMessage == Some(ToolList.StatusMessage("Configuration saved", false))
      ensures tools.Core() == old(tools.Core())
      ensures discover.sourceFilters == DiscoverSession.Refreshed(old(discover.sourceFilters), enabled, discover.ghAvailable)
      ensures discover.Run() == old(discover.Run())
    {
      var config := menu.ToConfig();
      themeVariant := FromConfigTheme(config.theme);
      aiAvailable := config.provider != NoProvider;
      if saveError.Some? {
        tools.SetStatus("Failed to save config: " + saveError.value, true);
      } else {
        tools.SetStatus("Configuration saved", false);
      }
      showConfigMenu := false;
      discover.RefreshDiscoverSources(enabled);
    }

    /** `config_menu_next_section`: focus the next section, cyclically, and scroll to it. */
    method NextSection()
      modifies menu
      ensures menu.section == AppTypes.NextSection(old(menu.section))
      ensures menu.scrollOffset == SectionScroll(menu.section, old(menu.CustomThemeSelected()))
      ensures menu.Items() == old(menu.Items()) && menu.sources == old(menu.sources)
    {
      menu.FocusSection(AppTypes.NextSection(menu.section));
    }

    /** `config_menu_prev_section`: focus the previous section, cyclically, and scroll to it. */
    method PrevSection()
      modifies menu
      ensures menu.section == AppTypes.PrevSection(old(menu.section))
      ensures menu.scrollOffset == SectionScroll(menu.section, old(menu.CustomThemeSelected()))
      ensures menu.Items() == old(menu.Items()) && menu.sources == old(menu.sources)
    {
      menu.FocusSection(AppTypes.PrevSection(menu.section));
    }

    /** `config_menu_toggle_source`: flip the focused source, but only on the source section,
        for a source in the list, and for a package manager that is present. */
    method ToggleSource()
      modifies menu
      ensures var focused := old(menu.sourceFocused);
        var allowed := old(menu.section) == Sources && focused < |menu.allSources|
          && menu.allSources[focused] in available;
        && (allowed ==> menu.sources == ToolList.Toggle(old(menu.sources), menu.allSources[focused]))
        && (!allowed ==> menu.sources == old(menu.sources))
      ensures menu.section == old(menu.section) && menu.Items() == old(menu.Items())
      ensures menu.scrollOffset == old(menu.scrollOffset)
    {
      if menu.section == Sources && menu.sourceFocused < |menu.allSources| {
        if menu.allSources[menu.sourceFocused] in available {
          menu.ToggleCurrentSource();
        }
      }
    }

    /** `config_menu_scroll_down`: scroll one line, never past the last screenful. */
    method ScrollDown(totalLines: nat, visibleLines: nat)
      modifies menu
      ensures var maxScroll := SaturatingSub(totalLines, visibleLines);
        menu.scrollOffset == if old(menu.scrollOffset) < maxScroll then old(menu.scrollOffset) + 1 else old(menu.scrollOffset)
      ensures old(menu.scrollOffset) + visibleLines <= totalLines ==> menu.scrollOffset + visibleLines <= totalLines
      ensures menu.section == old(menu.section) && menu.Items() == old(menu.Items())
      ensures menu.sources == old(menu.sources)
    {
      menu.ScrollDown(SaturatingSub(totalLines, visibleLines));
    }

    /** `config_menu_select` (Enter): on the buttons, Save saves and Cancel closes; on the
        sources, toggle the focused one without asking whether it is present; on a radio-button
        section the highlighted item already is the value, so move to the next section. */
    method Select(loaded: Option<MenuConfig>, saveError: Option<string>, enabled: set<string>)
      requires menu.section == Buttons && menu.buttonFocused == 0 ==> menu.aiSelected < |AiProviders|
      modifies this, menu, tools, discover
      ensures menu.Items() == old(menu.Items())
      ensures old(menu.section) == Buttons ==> !showConfigMenu
      ensures old(menu.section) == Buttons ==>
        menu.section == Buttons && menu.sources == old(menu.sources) && menu.scrollOffset == old(menu.scrollOffset)
      ensures old(menu.section) == Buttons && old(menu.buttonFocused) == 0 ==>
        themeVariant == FromConfigTheme(menu.ToConfig().theme)
      ensures old(menu.section) == Buttons && old(menu.buttonFocused) != 0 && loaded.Some? ==>
        themeVariant == FromConfigTheme(loaded.value.theme)
      ensures old(menu.section) == Sources ==> menu.section == Sources && showConfigMenu == old(showConfigMenu)
      ensures old(menu.section) == Sources && menu.sourceFocused < |menu.allSources| ==>
        menu.sources == ToolList.Toggle(old(menu.sources), menu.allSources[menu.sourceFocused])
      ensures old(menu.section) !in {Buttons, Sources} ==>
        menu.section == AppTypes.NextSection(old(menu.section)) && menu.scrollOffset == old(menu.scrollOffset) &&
        menu.sources == old(menu.sources) && showConfigMenu == old(showConfigMenu)
    {
      match menu.section
      case Buttons =>
        if menu.buttonFocused == 0 {
          SaveConfigMenu(saveError, enabled);
        } else {
          CloseConfigMenu(loaded, enabled);
        }
      case Sources =>
        menu.ToggleCurrentSource();
      case _ =>
        menu.section := AppTypes.NextSection(menu.section);
    }
  }

  /** Loading a configuration into the menu and building one from it gives back the original,
      and every loaded state is valid. */
  lemma LoadRoundTrip(c: MenuConfig)
    ensures ProviderIndex(c.provider) < |AiProviders| && AiProviders[ProviderIndex(c.provider)] == c.provider
    ensures ThemeFromIndex(ThemeIndex(c.theme)) == c.theme && ThemeIndex(c.theme) < ItemCount(Theme)
    ensures UsageFromIndex(UsageIndex(c.usage)) == c.usage && UsageIndex(c.usage) < ItemCount(UsageMode)
  {
    IndexRoundTrip(c.theme, 0);
  }

  /** Item moves never take any section's item out of range, and only the focused section's
      item moves. */
  lemma ItemMovesStayInRange(c: Cursor, s: ConfigSection)
    requires InRange(c)
    ensures InRange(With(c, s, StepDown(At(c, s), ItemCount(s))))
    ensures InRange(With(c, s, StepUp(At(c, s), ItemCount(s))))
    ensures With(With(c, s, StepDown(At(c, s), ItemCount(s))), s,
      StepUp(StepDown(At(c, s), ItemCount(s)), ItemCount(s))) == c
  {
    var d := With(c, s, StepDown(At(c, s), ItemCount(s)));
    var u := With(c, s, StepUp(At(c, s), ItemCount(s)));
    forall t
      ensures At(d, t) < ItemCount(t) && At(u, t) < ItemCount(t)
    {
    }
    StepsInverse(At(c, s), ItemCount(s));
  }
}
