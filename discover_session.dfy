// The Discover tab's session: the result list with its cursor and order, the
// source filters, the bounded search history, and the step machine that runs a
// search one source at a time (polling the AI search) and deduplicates at the end.

module DiscoverSession {
  import opened Text
  import opened AppTypes
  import Sorting
  import opened ResultOrder
  import opened Discovery
  import opened Dedup
  import opened DedupProperties
  import Selectable
  import opened ToolList

  // ---------------------------------------------------------------------
  // Sorting.

  datatype DiscoverSortBy = StarsOrder | NameOrder | SourceOrder

  function NextDiscoverSort(s: DiscoverSortBy): DiscoverSortBy {
    match s
    case StarsOrder => NameOrder
    case NameOrder => SourceOrder
    case SourceOrder => StarsOrder
  }

  lemma DiscoverSortCycle(s: DiscoverSortBy)
    ensures NextDiscoverSort(s) != s
    ensures NextDiscoverSort(NextDiscoverSort(NextDiscoverSort(s))) == s
  {
  }

  /** The comparator `sort_discover_results` uses for each order; the stars order is the
      intended one (see `ResultOrder.ByStarsAsWritten` for the comparator as written). */
  function Comparator(s: DiscoverSortBy): (DiscoverResult, DiscoverResult) -> bool {
    match s
    case StarsOrder => ByStarsThenName
    case NameOrder => ByName
    case SourceOrder => BySource
  }

  function SortedResults(rs: seq<DiscoverResult>, s: DiscoverSortBy): seq<DiscoverResult> {
    Sorting.Sort(rs, Comparator(s))
  }

  /** Sorting permutes the results and leaves them ordered by the chosen comparator. */
  lemma SortedResultsSpec(rs: seq<DiscoverResult>, s: DiscoverSortBy)
    ensures multiset(SortedResults(rs, s)) == multiset(rs)
    ensures Sorting.SortedAll(SortedResults(rs, s), Comparator(s))
  {
    match s {
      case StarsOrder => ByStarsThenNameOrder();
      case NameOrder => ByNameOrder();
      case SourceOrder => BySourceOrder();
    }
    Sorting.SortPermutes(rs, Comparator(s));
    Sorting.SortSorted(rs, Comparator(s));
    Sorting.SortedByAll(Sorting.Sort(rs, Comparator(s)), Comparator(s));
  }

  /** `sort_discover_results` as written: the same comparators, except that the stars order
      is the source's `ByStarsAsWritten`. */
  function SortedResultsAsWritten(rs: seq<DiscoverResult>, s: DiscoverSortBy): seq<DiscoverResult> {
    Sorting.Sort(rs, if s.StarsOrder? then ByStarsAsWritten else Comparator(s))
  }

  /** As written, the stars sort keeps the results and puts every unstarred result before every
      starred one, unstarred ones by name and starred ones by stars, most first. */
  lemma StarsSortAsWrittenSpec(rs: seq<DiscoverResult>)
    ensures var r := SortedResultsAsWritten(rs, StarsOrder);
      && multiset(r) == multiset(rs)
      && (forall i, j :: 0 <= i < j < |r| && r[i].stars.Some? ==> r[j].stars.Some?)
      && (forall i, j :: 0 <= i < j < |r| && r[i].stars.Some? && r[j].stars.Some? ==> r[i].stars.value >= r[j].stars.value)
      && (forall i, j :: 0 <= i < j < |r| && r[i].stars.None? && r[j].stars.None? ==> ByName(r[i], r[j]))
  {
    SortByStarsAsWritten(rs);
    ByStarsAsWrittenMeaning(SortedResultsAsWritten(rs, StarsOrder));
  }

  /** On a starred result followed by an unstarred one, the Stars sort as written and the
      model's Stars sort disagree: the source puts the unstarred result first. */
  lemma StarsSortAsWrittenDiffers(starred: DiscoverResult, unstarred: DiscoverResult)
    requires starred.stars.Some? && unstarred.stars.None?
    ensures SortedResultsAsWritten([starred, unstarred], StarsOrder) == [unstarred, starred]
    ensures SortedResults([starred, unstarred], StarsOrder) == [starred, unstarred]
  {
    AsWrittenPutsUnstarredFirst(starred, unstarred);
  }

  // ---------------------------------------------------------------------
  // Source filters.

  /** Membership of `x` flipped. */
  function Toggled(filters: set<string>, x: string): (r: set<string>)
    ensures x in r <==> x !in filters
    ensures forall y :: y != x ==> (y in r <==> y in filters)
  {
    if x in filters then filters - {x} else filters + {x}
  }

  lemma ToggledTwice(filters: set<string>, x: string)
    ensures Toggled(Toggled(filters, x), x) == filters
  {
  }

  /** `refresh_discover_sources`: drop the filters that are no longer enabled (GitHub stays),
      and add GitHub when `gh` is available. */
  function Refreshed(filters: set<string>, enabled: set<string>, ghAvailable: bool): (r: set<string>)
    ensures forall s :: s in r <==> (s in filters && (s in enabled || s == "github")) || (ghAvailable && s == "github")
  {
    (set s | s in filters && (s in enabled || s == "github")) + (if ghAvailable then {"github"} else {})
  }

  lemma RefreshedIdempotent(filters: set<string>, enabled: set<string>, ghAvailable: bool)
    ensures Refreshed(Refreshed(filters, enabled, ghAvailable), enabled, ghAvailable) == Refreshed(filters, enabled, ghAvailable)
  {
  }

  datatype SourceFlags = SourceFlags(cargo: bool, npm: bool, pip: bool, brew: bool, apt: bool, go: bool)

  /** The sources the Discover tab can offer, in display order: (filter name, label). */
  const SourceTable: seq<(string, string)> :=
    [("cargo", "cargo"), ("npm", "npm"), ("pip", "pip"), ("brew", "brew"), ("apt", "apt"), ("go", "go"), ("github", "GitHub")]

  /** Which rows of `SourceTable` are offered: the configured flags, then `gh` for GitHub. */
  function Offered(flags: SourceFlags, ghAvailable: bool): seq<bool> {
    [flags.cargo, flags.npm, flags.pip, flags.brew, flags.apt, flags.go, ghAvailable]
  }

  /** The items whose flag is set, in order. */
  function Pick<T>(items: seq<T>, keep: seq<bool>): (r: seq<T>)
    requires |items| == |keep|
    ensures |keep| > 0 && keep[|keep| - 1] ==> |r| > 0 && r[|r| - 1] == items[|items| - 1]
  {
    if |items| == 0 then []
    else
      var init := Pick(items[..|items| - 1], keep[..|keep| - 1]);
      if keep[|keep| - 1] then init + [items[|items| - 1]] else init
  }

  lemma {:induction false} PickSpec<T>(items: seq<T>, keep: seq<bool>)
    requires |items| == |keep|
    ensures forall x :: x in Pick(items, keep) <==> exists i :: 0 <= i < |items| && keep[i] && items[i] == x
  {
    if |items| > 0 {
      var n := |items| - 1;
      PickSpec(items[..n], keep[..n]);
      assert forall i :: 0 <= i < n ==> items[..n][i] == items[i] && keep[..n][i] == keep[i];
    }
  }

  /** Every picked item is one of the items. */
  lemma {:induction false} PickSubset<T>(items: seq<T>, keep: seq<bool>)
    requires |items| == |keep|
    ensures forall x :: x in Pick(items, keep) ==> x in items
  {
    if |items| > 0 {
      var n := |items| - 1;
      PickSubset(items[..n], keep[..n]);
      assert forall x :: x in items[..n] ==> x in items;
    }
  }

  /** Over distinct items, an item is picked exactly when its flag is set. */
  lemma PickDistinct<T>(items: seq<T>, keep: seq<bool>)
    requires |items| == |keep|
    requires forall i, j :: 0 <= i < j < |items| ==> items[i] != items[j]
    ensures forall i :: 0 <= i < |items| ==> (items[i] in Pick(items, keep) <==> keep[i])
  {
    PickSpec(items, keep);
    forall i | 0 <= i < |items| && items[i] in Pick(items, keep)
      ensures keep[i]
    {
      var j :| 0 <= j < |items| && keep[j] && items[j] == items[i];
      assert j == i;
    }
  }

  lemma SourceTableDistinct(table: seq<(string, string)>)
    requires table == SourceTable
    ensures forall i, j :: 0 <= i < j < |table| ==> table[i] != table[j]
  {
    forall i, j | 0 <= i < j < |table|
      ensures table[i] != table[j]
    {
      assert table[i].0 != table[j].0;
    }
  }

  /** `get_available_discover_sources`: the enabled sources that have a search, in a fixed
      order, then GitHub when `gh` is available. */
  function AvailableSources(flags: SourceFlags, ghAvailable: bool): seq<(string, string)> {
    Pick(SourceTable, Offered(flags, ghAvailable))
  }

  /** A source is offered exactly when its flag is set, nothing outside the table is offered,
      and GitHub, when offered, comes last. */
  lemma AvailableSourcesSpec(flags: SourceFlags, ghAvailable: bool)
    ensures var r := AvailableSources(flags, ghAvailable);
      && (forall i :: 0 <= i < |SourceTable| ==> (SourceTable[i] in r <==> Offered(flags, ghAvailable)[i]))
      && (forall p :: p in r ==> p in SourceTable)
      && (ghAvailable ==> r[|r| - 1] == ("github", "GitHub"))
  {
    var keep := Offered(flags, ghAvailable);
    SourceTableDistinct(SourceTable);
    PickDistinct(SourceTable, keep);
    PickSubset(SourceTable, keep);
  }

  // ---------------------------------------------------------------------
  // Which searches a query runs.

  /** The search a filter name schedules: the five registries by their own names, Go and
      GitHub both through the GitHub search when `gh` is available, nothing otherwise. */
  function SearchNameOf(filter: string, ghAvailable: bool): Option<string> {
    if filter == "cargo" then Some("crates.io")
    else if filter == "npm" then Some("npm")
    else if filter == "pip" then Some("PyPI")
    else if filter == "brew" then Some("Homebrew")
    else if filter == "apt" then Some("apt")
    else if (filter == "go" || filter == "github") && ghAvailable then Some("GitHub")
    else None
  }

  predicate IsKnownSearch(name: string) {
    name == "crates.io" || name == "npm" || name == "PyPI" || name == "Homebrew" || name == "apt" || name == "GitHub"
  }

  /** The searches for the filters in the order the filter set hands them out. */
  function SearchNames(filters: seq<string>, ghAvailable: bool): seq<string> {
    if |filters| == 0 then []
    else
      var init := SearchNames(filters[..|filters| - 1], ghAvailable);
      var n := SearchNameOf(filters[|filters| - 1], ghAvailable);
      if n.Some? then init + [n.value] else init
  }

  lemma {:induction false} SearchNamesSpec(filters: seq<string>, ghAvailable: bool)
    ensures |SearchNames(filters, ghAvailable)| <= |filters|
    ensures forall n :: n in SearchNames(filters, ghAvailable) ==> IsKnownSearch(n) && (n == "GitHub" ==> ghAvailable)
    ensures forall n :: n in SearchNames(filters, ghAvailable) <==> exists f :: f in filters && SearchNameOf(f, ghAvailable) == Some(n)
  {
    if |filters| > 0 {
      var init := filters[..|filters| - 1];
      SearchNamesSpec(init, ghAvailable);
      assert filters == init + [filters[|filters| - 1]];
    }
  }

  datatype Plan = NoSearch | Refused(message: string) | Scheduled(query: string, sourceNames: seq<string>)

  /** What `start_discover_search` does with the (trimmed) query. */
  function SearchPlan(query: string, aiEnabled: bool, aiConfigured: bool, filters: seq<string>, ghAvailable: bool): Plan {
    var q := Trim(query);
    if q == "" then NoSearch
    else if aiEnabled then
      if !aiConfigured then Refused("No AI provider configured") else Scheduled(q, ["AI"])
    else
      var names := SearchNames(filters, ghAvailable);
      if |names| == 0 then Refused("No search sources enabled") else Scheduled(q, names)
  }

  /** A blank query schedules nothing; AI mode schedules the AI search alone, and only with a
      provider; otherwise the filters' searches are scheduled, GitHub only with `gh`, and an
      empty list is refused. Whatever is scheduled has a first step. */
  lemma SearchPlanSpec(query: string, aiEnabled: bool, aiConfigured: bool, filters: seq<string>, ghAvailable: bool)
    ensures var p := SearchPlan(query, aiEnabled, aiConfigured, filters, ghAvailable);
      && (p.NoSearch? <==> AllWhitespace(query))
      && (p.Scheduled? ==> |p.sourceNames| > 0 && p.query == Trim(query))
      && (!AllWhitespace(query) && aiEnabled ==> (p.Scheduled? <==> aiConfigured) && (p.Scheduled? ==> p.sourceNames == ["AI"]))
      && (!aiEnabled && p.Scheduled? ==> forall n :: n in p.sourceNames ==> IsKnownSearch(n) && (n == "GitHub" ==> ghAvailable))
      && (!AllWhitespace(query) && !aiEnabled ==> (p.Refused? <==> |SearchNames(filters, ghAvailable)| == 0))
  {
    TrimEmptyIffBlank(query);
    SearchNamesSpec(filters, ghAvailable);
  }

  // ---------------------------------------------------------------------
  // The search step machine, stated on the fields it changes.

  datatype BackgroundOp = DiscoverSearch(query: string, step: nat, sourceNames: seq<string>)

  /** A scheduled search step names an existing source. */
  predicate OpValid(op: Option<BackgroundOp>) {
    op.Some? ==> op.value.step < |op.value.sourceNames|
  }

  datatype LoadingProgress = LoadingProgress(currentStep: nat, totalSteps: nat, stepName: string, foundCount: nat)

  /** What a finished AI thread handed back. */
  datatype AiOutcome = AiResults(results: seq<DiscoverResult>) | AiFailed(error: string) | AiPanicked

  /** The answer of the non-blocking poll. */
  datatype AiPoll = StillRunning | Finished(outcome: AiOutcome)

  /** The fields a search step changes. */
  datatype SearchRun = SearchRun(
    results: seq<DiscoverResult>,
    loading: bool,
    selected: nat,
    progress: LoadingProgress,
    op: Option<BackgroundOp>,
    aiRunning: bool,
    status: Option<StatusMessage>)

  /** A registry search's answer: its results, nothing on failure, nothing for an unknown name. */
  function Fetched(name: string, fetched: Option<seq<DiscoverResult>>): seq<DiscoverResult> {
    if IsKnownSearch(name) && fetched.Some? then fetched.value else []
  }

  function AiResultsOf(outcome: AiOutcome): seq<DiscoverResult> {
    if outcome.AiResults? then outcome.results else []
  }

  function AiStatus(outcome: AiOutcome, elapsed: string): StatusMessage {
    match outcome
    case AiResults(_) => StatusMessage("AI search completed in " + elapsed + "s", false)
    case AiFailed(e) => StatusMessage("AI search failed: " + e, true)
    case AiPanicked => StatusMessage("AI search thread panicked", true)
  }

  /** The conversion `finalize_discover_search` applies before deduplicating: a new result for
      the first option's command under the result's own source, then the remaining options;
      stars and URL are copied, the language is not. */
  function ForDedup(r: DiscoverResult): DiscoverResult {
    var cmd := if |r.installOptions| > 0 then r.installOptions[0].installCommand else "";
    var rest := if |r.installOptions| > 0 then r.installOptions[1..] else [];
    var d := NewResult(r.name, r.description, r.source, cmd);
    d.(stars := r.stars, url := r.url, installOptions := d.installOptions + rest)
  }

  lemma ForDedupSpec(r: DiscoverResult)
    ensures var d := ForDedup(r);
      && d.name == r.name && d.description == r.description && d.source == r.source
      && d.stars == r.stars && d.url == r.url && d.language.None?
      && |d.installOptions| == (if |r.installOptions| == 0 then 1 else |r.installOptions|)
      && d.installOptions[0].source == r.source
      && (|r.installOptions| > 0 ==> d.installOptions[0].installCommand == r.installOptions[0].installCommand)
      && d.installOptions[1..] == (if |r.installOptions| == 0 then [] else r.installOptions[1..])
  {
  }

  function ForDedupAll(rs: seq<DiscoverResult>): (d: seq<DiscoverResult>)
    ensures |d| == |rs| && forall i :: 0 <= i < |rs| ==> d[i] == ForDedup(rs[i])
  {
    seq(|rs|, i requires 0 <= i < |rs| => ForDedup(rs[i]))
  }

  /** The finished list: converted, grouped in first-occurrence order, merged and sorted. */
  function FinalResults(rs: seq<DiscoverResult>): seq<DiscoverResult> {
    var input := ForDedupAll(rs);
    FirstKeysSpec(input, Key);
    Deduplicated(input, FirstKeys(input, Key))
  }

  /** The finished list as the source sorts it: the same entries, unstarred ones first. */
  function FinalResultsAsWritten(rs: seq<DiscoverResult>): seq<DiscoverResult> {
    var input := ForDedupAll(rs);
    FirstKeysSpec(input, Key);
    DeduplicatedAsWritten(input, FirstKeys(input, Key))
  }

  /** The source's finished list and the model's hold the same entries; the source's puts
      every unstarred entry before every starred one. */
  lemma FinalResultsAsWrittenSpec(rs: seq<DiscoverResult>)
    ensures multiset(FinalResultsAsWritten(rs)) == multiset(FinalResults(rs))
    ensures var f := FinalResultsAsWritten(rs);
      forall i, j :: 0 <= i < j < |f| && f[i].stars.Some? ==> f[j].stars.Some?
  {
    var input := ForDedupAll(rs);
    FirstKeysSpec(input, Key);
    DeduplicatedAsWrittenSpec(input, FirstKeys(input, Key));
  }

  /** What the last step does to the gathered results; the session passes `FinalResults`. */
  type Finisher = seq<DiscoverResult> -> seq<DiscoverResult>

  function FoundStatus(count: nat): StatusMessage {
    if count == 0 then StatusMessage("No results found", false)
    else StatusMessage("Found " + (NatToString(count) + " tool(s)"), false)
  }

  function Finalized(r: SearchRun, fin: Finisher): SearchRun {
    var rs := fin(r.results);
    r.(loading := false, results := rs, status := Some(FoundStatus(|rs|)))
  }

  /** Step 0 starts afresh: no results, loading, cursor on top. */
  function Started(r: SearchRun, step: nat): SearchRun {
    if step == 0 then r.(results := [], loading := true, selected := 0) else r
  }

  /** Schedule the next step, or finish after the last one. */
  function Continue(r: SearchRun, query: string, step: nat, names: seq<string>, fin: Finisher): (SearchRun, bool) {
    if step + 1 < |names| then (r.(op := Some(DiscoverSearch(query, step + 1, names))), true)
    else (Finalized(r, fin), false)
  }

  /** A registry step once step 0 has been started: report progress, add the answer, go on. */
  function RegistryFetchStep(s: SearchRun, query: string, step: nat, names: seq<string>, fetched: Option<seq<DiscoverResult>>, fin: Finisher): (SearchRun, bool)
    requires step < |names|
  {
    var s1 := s.(progress := LoadingProgress(step + 1, |names|, names[step], |s.results|),
                 results := s.results + Fetched(names[step], fetched));
    Continue(s1, query, step, names, fin)
  }

  function RegistryStep(r: SearchRun, query: string, step: nat, names: seq<string>, fetched: Option<seq<DiscoverResult>>, fin: Finisher): (SearchRun, bool)
    requires step < |names|
  {
    RegistryFetchStep(Started(r, step), query, step, names, fetched, fin)
  }

  /** The AI step once step 0 has been started: start the thread, or poll it. */
  function AiPollStep(s: SearchRun, query: string, step: nat, names: seq<string>, poll: AiPoll, elapsed: string, fin: Finisher): (SearchRun, bool) {
    if s.aiRunning then
      var s1 := s.(progress := LoadingProgress(step + 1, |names|, "AI (" + elapsed + "s)", |s.results|));
      match poll
      case StillRunning => (s1.(op := Some(DiscoverSearch(query, step, names))), true)
      case Finished(outcome) =>
        var s2 := s1.(aiRunning := false, results := s1.results + AiResultsOf(outcome), status := Some(AiStatus(outcome, elapsed)));
        Continue(s2, query, step, names, fin)
    else
      (s.(aiRunning := true, progress := LoadingProgress(step + 1, |names|, "AI (0.0s)", |s.results|),
          op := Some(DiscoverSearch(query, step, names))), true)
  }

  function AiStep(r: SearchRun, query: string, step: nat, names: seq<string>, poll: AiPoll, elapsed: string, fin: Finisher): (SearchRun, bool) {
    AiPollStep(Started(r, step), query, step, names, poll, elapsed, fin)
  }

  /** `execute_discover_search_step`, on the fields it changes. */
  function SearchStep(r: SearchRun, query: string, step: nat, names: seq<string>,
                      fetched: Option<seq<DiscoverResult>>, poll: AiPoll, elapsed: string, fin: Finisher): (SearchRun, bool)
    requires step < |names|
  {
    if names[step] == "AI" then AiStep(r, query, step, names, poll, elapsed, fin)
    else RegistryStep(r, query, step, names, fetched, fin)
  }

  /** A step leaves a schedulable operation behind, says "more" exactly when it scheduled one,
      and a step that says "more" leaves the search loading. */
  lemma SearchStepKeepsOpValid(r: SearchRun, query: string, step: nat, names: seq<string>,
                               fetched: Option<seq<DiscoverResult>>, poll: AiPoll, elapsed: string, fin: Finisher)
    requires step < |names|
    requires OpValid(r.op)
    ensures var (s, more) := SearchStep(r, query, step, names, fetched, poll, elapsed, fin);
      && OpValid(s.op)
      && (more ==> s.op.Some? && s.op.value.query == query && s.op.value.sourceNames == names)
      && (more ==> (step == 0 ==> s.loading) && s.loading == (step == 0 || r.loading))
      && (!more ==> !s.loading && s.op == r.op)
  {
    if names[step] == "AI" {
      AiStepKeepsOpValid(r, query, step, names, poll, elapsed, fin);
    } else {
      RegistryStepKeepsOpValid(r, query, step, names, fetched, fin);
    }
  }

  lemma RegistryStepKeepsOpValid(r: SearchRun, query: string, step: nat, names: seq<string>,
                                 fetched: Option<seq<DiscoverResult>>, fin: Finisher)
    requires step < |names|
    requires OpValid(r.op)
    ensures var (s, more) := RegistryStep(r, query, step, names, fetched, fin);
      && OpValid(s.op)
      && (more ==> s.op.Some? && s.op.value.query == query && s.op.value.sourceNames == names)
      && (more ==> (step == 0 ==> s.loading) && s.loading == (step == 0 || r.loading))
      && (!more ==> !s.loading && s.op == r.op)
  {
  }

  lemma AiStepKeepsOpValid(r: SearchRun, query: string, step: nat, names: seq<string>,
                           poll: AiPoll, elapsed: string, fin: Finisher)
    requires step < |names|
    requires OpValid(r.op)
    ensures var (s, more) := AiStep(r, query, step, names, poll, elapsed, fin);
      && OpValid(s.op)
      && (more ==> s.op.Some? && s.op.value.query == query && s.op.value.sourceNames == names)
      && (more ==> (step == 0 ==> s.loading) && s.loading == (step == 0 || r.loading))
      && (!more ==> !s.loading && s.op == r.op)
  {
  }

  /** A registry step adds that source's results to what was found so far (to nothing at step
      0); it moves on to the next step, or finishes after the last one. */
  lemma RegistryStepSpec(r: SearchRun, query: string, step: nat, names: seq<string>, fetched: Option<seq<DiscoverResult>>, fin: Finisher)
    requires step < |names| && names[step] != "AI"
    ensures var (s, more) := SearchStep(r, query, step, names, fetched, StillRunning, "", fin);
      var found := (if step == 0 then [] else r.results) + Fetched(names[step], fetched);
      && (more <==> step + 1 < |names|)
      && (more ==> s.results == found && s.op == Some(DiscoverSearch(query, step + 1, names)))
      && (!more ==> s.results == fin(found) && !s.loading)
      && (fetched.None? ==> found == (if step == 0 then [] else r.results))
  {
  }

  /** While the AI thread runs, the same step is scheduled again and nothing is added; once it
      has finished, its results are added and the search moves on as after any other step. */
  lemma AiStepSpec(r: SearchRun, query: string, step: nat, names: seq<string>, outcome: AiOutcome, elapsed: string, fin: Finisher)
    requires step < |names| && names[step] == "AI"
    ensures var (s, more) := SearchStep(r, query, step, names, None, StillRunning, elapsed, fin);
      && more && s.op == Some(DiscoverSearch(query, step, names)) && s.aiRunning
      && s.results == (if step == 0 then [] else r.results)
    ensures r.aiRunning ==>
      var (s, more) := SearchStep(r, query, step, names, None, Finished(outcome), elapsed, fin);
      var found := (if step == 0 then [] else r.results) + AiResultsOf(outcome);
      && !s.aiRunning
      && (more <==> step + 1 < |names|)
      && (more ==> s.results == found && s.op == Some(DiscoverSearch(query, step + 1, names)))
      && (!more ==> s.results == fin(found))
  {
  }

  /** The finished list has one merged entry per distinct normalised name of what was found,
      loses no install source of the converted results, and is in stars-then-name order. */
  lemma FinalResultsSpec(rs: seq<DiscoverResult>)
    ensures var f := FinalResults(rs);
      && (forall i, j :: 0 <= i < j < |f| ==> Key(f[i]) != Key(f[j]))
      && (forall i :: 0 <= i < |f| ==> Key(f[i]) in KeysOf(rs, Key))
      && (forall k :: k in KeysOf(rs, Key) ==> exists i :: 0 <= i < |f| && Key(f[i]) == k)
      && AllSources(f) == AllSources(ForDedupAll(rs))
      && Sorting.SortedAll(f, ByStarsThenName)
  {
    var input := ForDedupAll(rs);
    FirstKeysSpec(input, Key);
    var keys := FirstKeys(input, Key);
    DeduplicatedSpec(input, keys);
    DeduplicatedSources(input, keys);
    assert KeysOf(input, Key) == KeysOf(rs, Key) by {
      forall k | k in KeysOf(input, Key)
        ensures k in KeysOf(rs, Key)
      {
        var x :| x in input && Key(x) == k;
        var i :| 0 <= i < |input| && input[i] == x;
        assert rs[i] in rs && Key(rs[i]) == k;
      }
      forall k | k in KeysOf(rs, Key)
        ensures k in KeysOf(input, Key)
      {
        var x :| x in rs && Key(x) == k;
        var i :| 0 <= i < |rs| && rs[i] == x;
        assert input[i] in input && Key(input[i]) == k;
      }
    }
  }

  /** The results the registry searches `from..|names|` contribute, in step order. */
  function Gathered(names: seq<string>, fetched: seq<Option<seq<DiscoverResult>>>, from: nat): seq<DiscoverResult>
    requires |fetched| == |names| && from <= |names|
    decreases |names| - from
  {
    if from == |names| then [] else Fetched(names[from], fetched[from]) + Gathered(names, fetched, from + 1)
  }

  /** The steps from `step` on, run back to back with the given registry answers. */
  function RunFrom(r: SearchRun, query: string, names: seq<string>, fetched: seq<Option<seq<DiscoverResult>>>, step: nat, fin: Finisher): SearchRun
    requires |fetched| == |names| && step < |names|
    decreases |names| - step
  {
    var s := SearchStep(r, query, step, names, fetched[step], StillRunning, "", fin).0;
    if step + 1 < |names| then RunFrom(s, query, names, fetched, step + 1, fin) else s
  }

  /** A search over registries only, run to the end, deduplicates everything every step found,
      in step order, and stops loading. */
  lemma {:induction false} RunFromSpec(r: SearchRun, query: string, names: seq<string>, fetched: seq<Option<seq<DiscoverResult>>>, step: nat, fin: Finisher)
    requires |fetched| == |names| && step < |names|
    requires forall i :: 0 <= i < |names| ==> names[i] != "AI"
    ensures RunFrom(r, query, names, fetched, step, fin).results
      == fin((if step == 0 then [] else r.results) + Gathered(names, fetched, step))
    ensures !RunFrom(r, query, names, fetched, step, fin).loading
    decreases |names| - step
  {
    var s := SearchStep(r, query, step, names, fetched[step], StillRunning, "", fin).0;
    var base := if step == 0 then [] else r.results;
    var here := Fetched(names[step], fetched[step]);
    assert Gathered(names, fetched, step) == here + Gathered(names, fetched, step + 1);
    if step + 1 < |names| {
      assert s.results == base + here by {
        RegistryStepSpec(r, query, step, names, fetched[step], fin);
      }
      assert RunFrom(r, query, names, fetched, step, fin) == RunFrom(s, query, names, fetched, step + 1, fin);
      assert s.results + Gathered(names, fetched, step + 1) == base + Gathered(names, fetched, step);
      RunFromSpec(s, query, names, fetched, step + 1, fin);
    } else {
      assert s.results == fin(base + here) && !s.loading by {
        RegistryStepSpec(r, query, step, names, fetched[step], fin);
      }
      assert RunFrom(r, query, names, fetched, step, fin) == s;
      assert base + Gathered(names, fetched, step) == base + here;
    }
  }

  /** An AI-only search: the first call starts the thread, every unfinished poll waits on step
      0, and the finished poll deduplicates exactly the AI's results. */
  lemma AiOnlySearch(r: SearchRun, query: string, results: seq<DiscoverResult>, elapsed: string, fin: Finisher)
    requires !r.aiRunning
    ensures var (s1, more1) := SearchStep(r, query, 0, ["AI"], None, StillRunning, elapsed, fin);
      var (s2, more2) := SearchStep(s1, query, 0, ["AI"], None, StillRunning, elapsed, fin);
      var (s3, more3) := SearchStep(s2, query, 0, ["AI"], None, Finished(AiResults(results)), elapsed, fin);
      && more1 && more2 && !more3
      && s1.aiRunning && s2.aiRunning && !s3.aiRunning
      && s1.op == Some(DiscoverSearch(query, 0, ["AI"])) && s2.op == s1.op
      && s3.results == fin(results) && !s3.loading
  {
    assert [] + results == results;
  }

  // ---------------------------------------------------------------------
  // The search history.

  datatype SearchEntry = SearchEntry(id: int, query: string, aiEnabled: bool, sourceFilters: set<string>)

  const HistoryLimit := 100

  /** The entry prepended, then the list cut back to the limit. */
  function Prepended(history: seq<SearchEntry>, e: SearchEntry): (r: seq<SearchEntry>)
    ensures |r| == (if |history| + 1 > HistoryLimit then HistoryLimit else |history| + 1)
    ensures r[0] == e
    ensures r[1..] == history[..|r| - 1]
    ensures |history| < HistoryLimit ==> r == [e] + history
  {
    var h := [e] + history;
    if |h| > HistoryLimit then h[..HistoryLimit] else h
  }

  /** `discover_history_up`: into the history at the most recent entry, then one older entry
      at a time, stopping at the oldest. */
  function HistoryUpIndex(idx: Option<nat>, len: nat): Option<nat> {
    if len == 0 then idx
    else match idx
      case None => Some(0)
      case Some(i) => if i + 1 < len then Some(i + 1) else idx
  }

  /** `discover_history_down`: one newer entry, and out of the history from the most recent. */
  function HistoryDownIndex(idx: Option<nat>): Option<nat> {
    match idx
    case None => None
    case Some(i) => if i == 0 then None else Some(i - 1)
  }

  predicate IndexIn(idx: Option<nat>, len: nat) {
    idx.Some? ==> idx.value < len
  }

  /** Both moves keep the index on the history; up always enters a non-empty history; down
      undoes up except at the oldest entry, and up undoes down inside the history. */
  lemma HistoryIndexSpec(idx: Option<nat>, len: nat)
    requires IndexIn(idx, len)
    ensures IndexIn(HistoryUpIndex(idx, len), len) && IndexIn(HistoryDownIndex(idx), len)
    ensures len > 0 ==> HistoryUpIndex(idx, len).Some?
    ensures len > 0 && idx.None? ==> HistoryUpIndex(idx, len) == Some(0) && HistoryDownIndex(HistoryUpIndex(idx, len)).None?
    ensures idx.Some? && idx.value + 1 < len ==> HistoryDownIndex(HistoryUpIndex(idx, len)) == idx
    ensures idx.Some? && idx.value > 0 ==> HistoryUpIndex(HistoryDownIndex(idx), len) == idx
    ensures idx.Some? && idx.value + 1 == len ==> HistoryUpIndex(idx, len) == idx
  {
  }

  // ---------------------------------------------------------------------
  // The session.

  /** The search form and its history. */
  datatype SearchForm = SearchForm(query: string, aiEnabled: bool, sourceFilters: set<string>,
                                   history: seq<SearchEntry>, historyIndex: Option<nat>)

  class DiscoverTab {
    var results: seq<DiscoverResult>
    var selected: nat
    var sortBy: DiscoverSortBy
    var loading: bool
    var progress: LoadingProgress
    var backgroundOp: Option<BackgroundOp>
    var aiRunning: bool
    var status: Option<StatusMessage>
    var query: string
    var aiEnabled: bool
    var sourceFilters: set<string>
    var history: seq<SearchEntry>
    var historyIndex: Option<nat>
    const ghAvailable: bool

    function Run(): SearchRun
      reads this
    {
      SearchRun(results, loading, selected, progress, backgroundOp, aiRunning, status)
    }

    function Form(): SearchForm
      reads this
    {
      SearchForm(query, aiEnabled, sourceFilters, history, historyIndex)
    }

    /** The scheduled step exists and the history index is on the history. */
    predicate Valid()
      reads this
    {
      OpValid(backgroundOp) && IndexIn(historyIndex, |history|)
    }

    constructor (ghAvailable: bool, filters: set<string>, history: seq<SearchEntry>)
      ensures Valid()
      ensures this.ghAvailable == ghAvailable && sourceFilters == filters && this.history == history
      ensures results == [] && selected == 0 && sortBy == StarsOrder && !loading
      ensures backgroundOp.None? && !aiRunning && status.None?
      ensures query == "" && !aiEnabled && historyIndex.None?
    {
      this.ghAvailable := ghAvailable;
      sourceFilters := filters;
      this.history := history;
      results := [];
      selected := 0;
      sortBy := StarsOrder;
      loading := false;
      progress := LoadingProgress(0, 0, "", 0);
      backgroundOp := None;
      aiRunning := false;
      status := None;
      query := "";
      aiEnabled := false;
      historyIndex := None;
    }

    // Navigation.

    method SelectNextDiscover()
      modifies this
      ensures selected == Selectable.SelectNext(old(selected), |results|)
      ensures results == old(results) && Form() == old(Form()) && sortBy == old(sortBy)
      ensures Run() == old(Run()).(selected := selected)
    {
      if |results| > 0 {
        selected := if selected + 1 < |results| - 1 then selected + 1 else |results| - 1;
      }
    }

    method SelectPrevDiscover()
      modifies this
      ensures selected == Selectable.SelectPrev(old(selected))
      ensures Form() == old(Form()) && sortBy == old(sortBy)
      ensures Run() == old(Run()).(selected := selected)
    {
      if selected > 0 {
        selected := selected - 1;
      }
    }

    method SelectFirstDiscover()
      modifies this
      ensures selected == Selectable.SelectFirst()
      ensures Form() == old(Form()) && sortBy == old(sortBy)
      ensures Run() == old(Run()).(selected := selected)
    {
      selected := 0;
    }

    method SelectLastDiscover()
      modifies this
      ensures selected == Selectable.SelectLast(old(selected), |results|)
      ensures Form() == old(Form()) && sortBy == old(sortBy)
      ensures Run() == old(Run()).(selected := selected)
    {
      if |results| > 0 {
        selected := |results| - 1;
      }
    }

    /** `selected_discover`: the result under the cursor, if the cursor is on the list. */
    function SelectedDiscover(): (r: Option<DiscoverResult>)
      reads this
      ensures r.Some? <==> selected < |results|
      ensures r.Some? ==> r.value == results[selected]
    {
      if selected < |results| then Some(results[selected]) else None
    }

    // Sorting.

    /** `sort_discover_results`: the results in the current order, cursor on top. */
    method SortDiscoverResults()
      modifies this
      ensures results == SortedResults(old(results), sortBy) && selected == 0
      ensures sortBy == old(sortBy) && Form() == old(Form())
      ensures Run() == old(Run()).(results := results, selected := 0)
    {
      results := Sorting.Sort(results, Comparator(sortBy));
      selected := 0;
    }

    method CycleDiscoverSort()
      modifies this
      ensures sortBy == NextDiscoverSort(old(sortBy))
      ensures results == SortedResults(old(results), sortBy) && selected == 0
      ensures Form() == old(Form())
      ensures Run() == old(Run()).(results := results, selected := 0)
    {
      sortBy := NextDiscoverSort(sortBy);
      SortDiscoverResults();
    }

    // Filters.

    method ToggleDiscoverAi()
      modifies this
      ensures aiEnabled == !old(aiEnabled) && historyIndex.None?
      ensures Form() == old(Form()).(aiEnabled := aiEnabled, historyIndex := None)
      ensures Run() == old(Run()) && sortBy == old(sortBy)
    {
      aiEnabled := !aiEnabled;
      historyIndex := None;
    }

    method ToggleDiscoverSourceFilter(source: string)
      modifies this
      ensures sourceFilters == Toggled(old(sourceFilters), source) && historyIndex.None?
      ensures Form() == old(Form()).(sourceFilters := sourceFilters, historyIndex := None)
      ensures Run() == old(Run()) && sortBy == old(sortBy)
    {
      if source in sourceFilters {
        sourceFilters := sourceFilters - {source};
      } else {
        sourceFilters := sourceFilters + {source};
      }
      historyIndex := None;
    }

    /** `refresh_discover_sources`, given the names the configuration enables. */
    method RefreshDiscoverSources(enabled: set<string>)
      modifies this
      ensures sourceFilters == Refreshed(old(sourceFilters), enabled, ghAvailable)
      ensures Form() == old(Form()).(sourceFilters := sourceFilters)
      ensures Run() == old(Run()) && sortBy == old(sortBy)
    {
      sourceFilters := set s | s in sourceFilters && (s in enabled || s == "github");
      if ghAvailable && "github" !in sourceFilters {
        sourceFilters := sourceFilters + {"github"};
      }
    }

    predicate IsDiscoverSourceEnabled(source: string)
      reads this
    {
      source in sourceFilters
    }

    // History.

    /** `apply_history_entry`: load the entry under the index into the form, if there is one. */
    method ApplyHistoryEntry()
      modifies this
      ensures historyIndex.Some? && historyIndex.value < |history| ==>
        var e := history[historyIndex.value];
        query == e.query && aiEnabled == e.aiEnabled && sourceFilters == e.sourceFilters
      ensures !(historyIndex.Some? && historyIndex.value < |history|) ==> Form() == old(Form())
      ensures history == old(history) && historyIndex == old(historyIndex)
      ensures Run() == old(Run()) && sortBy == old(sortBy)
    {
      if historyIndex.Some? && historyIndex.value < |history| {
        var e := history[historyIndex.value];
        query := e.query;
        aiEnabled := e.aiEnabled;
        sourceFilters := e.sourceFilters;
      }
    }

    method DiscoverHistoryUp()
      requires Valid()
      modifies this
      ensures Valid()
      ensures historyIndex == HistoryUpIndex(old(historyIndex), |history|) && history == old(history)
      ensures |history| == 0 ==> Form() == old(Form())
      ensures |history| > 0 ==>
        var e := history[historyIndex.value];
        query == e.query && aiEnabled == e.aiEnabled && sourceFilters == e.sourceFilters
      ensures Run() == old(Run()) && sortBy == old(sortBy)
    {
      if |history| == 0 {
        return;
      }
      HistoryIndexSpec(historyIndex, |history|);
      match historyIndex {
        case None =>
          historyIndex := Some(0);
        case Some(idx) =>
          if idx + 1 < |history| {
            historyIndex := Some(idx + 1);
          }
      }
      ApplyHistoryEntry();
    }

    /** `discover_history_down`, given the enabled names a successful configuration load gives. */
    method DiscoverHistoryDown(configEnabled: Option<set<string>>)
      requires Valid()
      modifies this
      ensures Valid()
      ensures historyIndex == (if |history| == 0 then old(historyIndex) else HistoryDownIndex(old(historyIndex)))
      ensures history == old(history)
      ensures |history| == 0 || old(historyIndex).None? ==> Form() == old(Form())
      ensures |history| > 0 && old(historyIndex) == Some(0) ==>
        && query == "" && !aiEnabled
        && sourceFilters == (if configEnabled.Some? then configEnabled.value else old(sourceFilters))
      ensures |history| > 0 && old(historyIndex).Some? && old(historyIndex).value > 0 ==>
        var e := history[historyIndex.value];
        query == e.query && aiEnabled == e.aiEnabled && sourceFilters == e.sourceFilters
      ensures Run() == old(Run()) && sortBy == old(sortBy)
    {
      if |history| == 0 {
        return;
      }
      match historyIndex
      case None =>
      case Some(idx) =>
        if idx == 0 {
          historyIndex := None;
          query := "";
          if configEnabled.Some? {
            sourceFilters := configEnabled.value;
          }
          aiEnabled := false;
        } else {
          historyIndex := Some(idx - 1);
          ApplyHistoryEntry();
        }
    }

    /** `save_discover_search_to_history`, given the id the database assigned, if it did. */
    method SaveDiscoverSearchToHistory(dbId: Option<int>)
      requires Valid()
      modifies this
      ensures Valid()
      ensures AllWhitespace(old(query)) ==> Form() == old(Form())
      ensures !AllWhitespace(old(query)) ==>
        && historyIndex.None?
        && history == (if dbId.Some? then Prepended(old(history), SearchEntry(dbId.value, Trim(old(query)), aiEnabled, sourceFilters)) else old(history))
        && query == old(query) && aiEnabled == old(aiEnabled) && sourceFilters == old(sourceFilters)
      ensures Run() == old(Run()) && sortBy == old(sortBy)
    {
      TrimEmptyIffBlank(query);
      var q := Trim(query);
      if q == "" {
        return;
      }
      if dbId.Some? {
        history := [SearchEntry(dbId.value, q, aiEnabled, sourceFilters)] + history;
        if |history| > HistoryLimit {
          history := history[..HistoryLimit];
        }
      }
      historyIndex := None;
    }

    // Searching.

    /** `start_discover_search`, given whether an AI provider is configured and the order in
        which the filter set hands out its names. */
    method StartDiscoverSearch(order: seq<string>, aiConfigured: bool)
      requires Valid()
      requires forall i, j :: 0 <= i < j < |order| ==> order[i] != order[j]
      requires forall s :: s in order <==> s in sourceFilters
      modifies this
      ensures Valid()
      ensures var p := SearchPlan(old(query), aiEnabled, aiConfigured, order, ghAvailable);
        && (p.NoSearch? ==> Run() == old(Run()))
        && (p.Refused? ==> Run() == old(Run()).(status := Some(StatusMessage(p.message, true))))
        && (p.Scheduled? ==> Run() == old(Run()).(op := Some(DiscoverSearch(p.query, 0, p.sourceNames))))
      ensures Form() == old(Form()) && sortBy == old(sortBy)
    {
      SearchPlanSpec(query, aiEnabled, aiConfigured, order, ghAvailable);
      var q := Trim(query);
      if q == "" {
        return;
      }
      var names: seq<string> := [];
      if aiEnabled {
        if !aiConfigured {
          status := Some(StatusMessage("No AI provider configured", true));
          return;
        }
        names := ["AI"];
      } else {
        for i := 0 to |order|
          invariant names == SearchNames(order[..i], ghAvailable)
        {
          assert order[..i + 1][..i] == order[..i];
          var n := SearchNameOf(order[i], ghAvailable);
          if n.Some? {
            names := names + [n.value];
          }
        }
        assert order[..|order|] == order;
      }
      if |names| == 0 {
        status := Some(StatusMessage("No search sources enabled", true));
        return;
      }
      backgroundOp := Some(DiscoverSearch(q, 0, names));
    }

    method SetProgress(step: nat, total: nat, name: string)
      modifies this
      ensures progress == LoadingProgress(step + 1, total, name, |results|)
      ensures Run() == old(Run()).(progress := progress)
      ensures Form() == old(Form()) && sortBy == old(sortBy)
    {
      progress := LoadingProgress(step + 1, total, name, |results|);
    }

    /** `execute_discover_search_step`, given the registry's answer (`None` for a failed
        search) and, for the AI step, the poll's answer and the elapsed-time text. */
    method ExecuteDiscoverSearchStep(query: string, step: nat, names: seq<string>,
                                     fetched: Option<seq<DiscoverResult>>, poll: AiPoll, elapsed: string)
      returns (more: bool)
      requires Valid()
      requires step < |names|
      modifies this
      ensures Valid()
      ensures (Run(), more) == SearchStep(old(Run()), query, step, names, fetched, poll, elapsed, FinalResults)
      ensures Form() == old(Form()) && sortBy == old(sortBy)
    {
      if step == 0 {
        results := [];
        loading := true;
        selected := 0;
      }
      assert Run() == Started(old(Run()), step);
      if names[step] == "AI" {
        more := HandleAiSearchStep(query, step, names, poll, elapsed);
      } else {
        more := RegistrySearchStep(query, step, names, fetched);
      }
    }

    method RegistrySearchStep(query: string, step: nat, names: seq<string>, fetched: Option<seq<DiscoverResult>>)
      returns (more: bool)
      requires Valid()
      requires step < |names|
      modifies this
      ensures Valid()
      ensures (Run(), more) == RegistryFetchStep(old(Run()), query, step, names, fetched, FinalResults)
      ensures Form() == old(Form()) && sortBy == old(sortBy)
    {
      SetProgress(step, |names|, names[step]);
      results := results + Fetched(names[step], fetched);
      more := ContinueSearch(query, step, names);
    }

    method ContinueSearch(query: string, step: nat, names: seq<string>) returns (more: bool)
      requires Valid()
      requires step < |names|
      modifies this
      ensures Valid()
      ensures (Run(), more) == Continue(old(Run()), query, step, names, FinalResults)
      ensures Form() == old(Form()) && sortBy == old(sortBy)
    {
      if step + 1 < |names| {
        backgroundOp := Some(DiscoverSearch(query, step + 1, names));
        more := true;
      } else {
        more := FinalizeDiscoverSearch();
      }
    }

    method HandleAiSearchStep(query: string, step: nat, names: seq<string>, poll: AiPoll, elapsed: string)
      returns (more: bool)
      requires Valid()
      requires step < |names|
      modifies this
      ensures Valid()
      ensures (Run(), more) == AiPollStep(old(Run()), query, step, names, poll, elapsed, FinalResults)
      ensures Form() == old(Form()) && sortBy == old(sortBy)
    {
      if aiRunning {
        SetProgress(step, |names|, "AI (" + elapsed + "s)");
        if poll.Finished? {
          aiRunning := false;
          results := results + AiResultsOf(poll.outcome);
          status := Some(AiStatus(poll.outcome, elapsed));
          more := ContinueSearch(query, step, names);
          return;
        }
        backgroundOp := Some(DiscoverSearch(query, step, names));
        return true;
      }
      aiRunning := true;
      SetProgress(step, |names|, "AI (0.0s)");
      backgroundOp := Some(DiscoverSearch(query, step, names));
      return true;
    }

    /** `finalize_discover_search`: stop loading, replace the results by their deduplication
        and report how many there are. */
    method FinalizeDiscoverSearch() returns (more: bool)
      requires Valid()
      modifies this
      ensures Valid()
      ensures (Run(), more) == (Finalized(old(Run()), FinalResults), false)
      ensures Form() == old(Form()) && sortBy == old(sortBy)
    {
      loading := false;
      var input := ForDedupAll(results);
      FirstKeysSpec(input, Key);
      var merged := DeduplicateResults(input, FirstKeys(input, Key));
      results := merged;
      if |results| == 0 {
        status := Some(StatusMessage("No results found", false));
      } else {
        status := Some(StatusMessage("Found " + (NatToString(|results|) + " tool(s)"), false));
      }
      return false;
    }

    /** The dispatcher's side: take the scheduled step, if any, and run it. */
    method ExecuteBackgroundStep(fetched: Option<seq<DiscoverResult>>, poll: AiPoll, elapsed: string)
      returns (more: bool)
      requires Valid()
      modifies this
      ensures Valid()
      ensures old(backgroundOp).None? ==> !more && Run() == old(Run())
      ensures old(backgroundOp).Some? ==>
        var op := old(backgroundOp).value;
        (Run(), more) == SearchStep(old(Run()).(op := None), op.query, op.step, op.sourceNames, fetched, poll, elapsed, FinalResults)
      ensures Form() == old(Form()) && sortBy == old(sortBy)
    {
      if backgroundOp.None? {
        return false;
      }
      var op := backgroundOp.value;
      backgroundOp := None;
      more := ExecuteDiscoverSearchStep(op.query, op.step, op.sourceNames, fetched, poll, elapsed);
    }
  }
}
