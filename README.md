# hoard core, modelled in Dafny

hoard is a terminal dashboard over an inventory of command-line tools. Its tabs show
installed, available and updatable tools, bundles, and a Discover tab that searches
package registries. This project models the logic under the rendering, database,
network and process code, and proves what that logic promises.

- `text.dfy`: ASCII letter case, trimming, splitting, prefix and suffix helpers shared by every module.
- `sorting.dfy`: `slice::sort_by` as a stable insertion sort, with its permutation and order lemmas.
- `app_types.dfy`: tabs, sort keys, input modes, config-menu sections and their line layout, discovery sources, pending actions.
- `fuzzy.dfy`: `fuzzy_match` and `fuzzy_match_positions` as loops, against a reference scoring function.
- `history.dfy`: `ActionHistory`: the bounded undo and redo stacks.
- `palette.dfy`: `CommandPalette`, its history walk, and the command suggestions.
- `selectable.dfy`: the `SelectableList` default methods and `BundleState`.
- `tool_list.dfy`: the App's tool list: filter and sort, cursor, search, jump, tabs, multi-selection, undo and redo, install / uninstall / update requests, source selection, confirmation.
- `result_order.dfy`: the orders on discovery results (stars, name, source rank).
- `discover.dfy`: result builders, `normalize_name`, GitHub URL normalisation and matching, the GitHub filter, the enabled search sources.
- `dedup.dfy`: `deduplicate_results`: grouping, merging install options, the final order.
- `discover_session.dfy`: the Discover tab: navigation, sorting, source filters, search history, the search step machine.
- `version_policy.dfy`: `resolve_policy`, `policy_source`, `parse_version`, `should_update`, `classify_change`.
- `theme.dfy`: `ThemeVariant` cycling and the configuration-name round trip.
- `config_menu.dfy`: the configuration menu: sections, items, scrolling, toggles, save and close.
- `events.dfy`: key and mouse dispatch precedence, the mode handlers, config-menu clicks, `execute_action` clean-up.
- `readme.dfy`: the README popup: scrolling, the link picker, link extraction.
- `ui_helpers.dfy`: `label_color`, `highlight_matches` segmentation, the `health_indicator` table.
- `parsers.dfy`: the install-command allow-list, `parse_github_url`, JSON cutting, `parse_policy`, migration names and commands.

Objects whose methods update fields in place are classes with `modifies` clauses: the
action history, the command palette, the bundle list, the App's tool list, the Discover
tab, the configuration menu, the README popup and the event dispatcher. Each method's
`ensures` states the new state, usually as a snapshot function of the old state. Matches
and expression code are functions. Loops in the source are `while` or `for` loops with their
invariants, each proved against a specification function. Database rows, registry
answers, the AI's answer and its finished flag, and the availability of package managers
and of `gh` are parameters.

The model follows the code, with three exceptions where it follows the evidently intended
behaviour instead. Each is a row of the Findings table below, with the code as written
modelled and exhibited beside it, and each member that uses the intended behaviour is named
in the Left out list:

- the final stars sort of `deduplicate_results` (src/discover.rs:1229-1235) and the Stars sort
  of the Discover tab (src/tui/app/discover.rs:63-69) put results without stars first; the
  model sorts them last;
- plain PageDown and PageUp do nothing in normal mode (src/tui/event.rs:197-206); the model's
  key table pages on them.

Some other points where the code is easy to misread: `confirm_source_selection` empties the
pending action whatever it held; `BackgroundOp` in src/tui/app.rs has only `CheckUpdates`,
while the Discover tab schedules a search step; src/tui/app.rs holds an earlier copy of undo,
redo and the `request_*` methods, and the model follows src/tui/app/actions.rs.

## Model

| member | source | states |
|---|---|---|
| AppTypes.TabIndex | src/tui/app.rs:482-490 | each tab's index is its position in `Tab::all()` |
| AppTypes.TabFromIndex | src/tui/app.rs:492-501 | `from_index` is defined exactly below 5 |
| AppTypes.TabIndexRoundTrip | src/tui/app.rs:482-501 | `from_index(t.index()) == Some(t)`, and `index` inverts `from_index` where defined |
| AppTypes.TabCycle | src/tui/app.rs:945-962 | next and previous tab undo each other; next moves the index on modulo 5 and never stays |
| AppTypes.NextTabTable | src/tui/app.rs:945-950 | next tab follows Installed, Available, Updates, Bundles, Discover and wraps |
| AppTypes.TabPeriod | src/tui/app.rs:945-950 | five next-tab steps return to the start |
| AppTypes.NextSort | src/tui/app.rs:673-679 | cycling the sort key always changes it |
| AppTypes.SortCycle | src/tui/app.rs:673-679 | three sort cycles return to the start |
| AppTypes.SectionIndex | src/tui/app.rs:72-80 | each section's index is its position in `ConfigSection::all()` |
| AppTypes.SectionCycle | src/tui/app.rs:82-100 | `prev` undoes `next`; `next` follows `all()` cyclically with period 5 |
| AppTypes.LayoutConsistent | src/tui/app.rs:115-168 | section start lines, item line ranges, item counts and total line count fit together: items lie under their header, before the next section and inside the total |
| AppTypes.DiscoverSourceToStr | src/tui/app/actions.rs:368-377 | the installable registries map to package-manager names and every other source to "unknown" |
| AppTypes.DiscoverSourceToStrInjective | src/tui/app/actions.rs:368-377 | distinct installable sources map to distinct names |
| AppTypes.SourceRank | src/tui/app/discover.rs:80-89 | the source-sort rank is below 8 |
| AppTypes.SourceRankInjective | src/tui/app/discover.rs:80-89 | no two sources share a rank, so the source order is total |
| AppTypes.DescriptionShape | src/tui/app.rs:622-647 | the confirmation prompt starts with the verb, ends with `?`, names the one tool or ends with " tools?" |
| Sorting.SortPermutes | src/tui/app.rs:1069-1087 | `sort_by` rearranges the filtered list: the result is a permutation of its input |
| Sorting.SortSorted | src/tui/app.rs:1069-1087 | under a total comparator, as one built from `cmp` is, neighbours of the result are in order |
| Sorting.SortedByAll | src/tui/app.rs:1069-1087 | under a transitive comparator, ordered neighbours put every earlier element before every later one |
| Sorting.SortSameElements | src/tui/app.rs:1069-1087 | the sorted list holds exactly the elements of the input |
| Fuzzy.FuzzyMatch | src/tui/app.rs:328-389 | the scoring loop returns exactly the score of the greedy scan over the lower-cased strings, or none when some query character is left unmatched |
| Fuzzy.FuzzyMatchPositions | src/tui/app.rs:393-448 | the same loop also returns the matched positions, and agrees with the scan |
| Fuzzy.ScanInvariant | src/tui/app.rs:344-372 | while the target is scanned the recorded positions are increasing, one per matched query character, each on an equal target character; the bonus stays non-negative and the score is at least the number of matches |
| Fuzzy.ScanScoreNonDecreasing | src/tui/app.rs:344-372 | neither the score nor the number of matched characters decreases from one target character to the next |
| Fuzzy.GreedyDominates | src/tui/app.rs:344-372 | the greedy scan has matched at least as many query characters as any in-order placement of the query that fits in the scanned prefix |
| Fuzzy.ScanMatchesIffSubsequence | src/tui/app.rs:374-388 | the scan matches the whole query exactly when the query is a subsequence of the target |
| Fuzzy.MatchIffSubsequence | src/tui/app.rs:328-389 | a score is returned exactly when the lower-cased query is a subsequence of the lower-cased target |
| Fuzzy.EmptyQueryScoresZero | src/tui/app.rs:332-334 | an empty query scores 0 with no positions |
| Fuzzy.CaseInsensitive | src/tui/app.rs:329-330 | lower-casing either argument beforehand does not change the result |
| Fuzzy.ScoreAtLeastQueryLength | src/tui/app.rs:344-348 | a successful score is at least the query's length |
| Fuzzy.PrefixMatchScoresAbove50 | src/tui/app.rs:376-384 | a target starting with a non-empty query (in any case) matches and scores above 50 |
| Fuzzy.ExactMatchScoresAbove100 | src/tui/app.rs:376-381 | a target equal to a non-empty query (in any case) scores above 100 |
| Fuzzy.PositionsAgree | src/tui/app.rs:393-448 | the positions variant succeeds exactly when the plain scorer does, with the same score |
| Fuzzy.PositionsSpellQuery | src/tui/app.rs:410-412 | the returned positions are strictly increasing, one per query character, each on an equal target character |
| Fuzzy.ScanFinished | src/tui/app.rs:345 | once the whole query has matched, the rest of the target changes nothing |
| Fuzzy.RgMatches | src/tui/app/tests.rs:23-26 | "rg" matches "ripgrep" |
| Fuzzy.GrMatches | src/tui/app/tests.rs:36-37 | "gr" matches "ripgrep" |
| Fuzzy.FdfMatches | src/tui/app/tests.rs:27-28 | "fdf" matches "fd-find" |
| Fuzzy.NonSubsequenceFails | src/tui/app/tests.rs:32-34 | "xyz" does not match "ripgrep" |
| Fuzzy.BoundaryBeatsMidWord | src/tui/app/tests.rs:46-52 | "f" in "fd-find" scores 54 (start of word and prefix) and "i" scores 1, so the boundary match scores higher |
| Fuzzy.RunBeatsSpread | src/tui/app/tests.rs:54-59 | "rip" in "ripgrep" scores 62 and the spread-out "rgp" scores 6 |
| UndoHistory.ActionHistory.constructor | src/tui/app.rs:576-582 | a new log has both stacks empty and the given bound |
| UndoHistory.ActionHistory.PushAction | src/tui/app.rs:585-591 | the new state is `Push` of the old: the oldest undo entry dropped when full, the action on top, the redo stack emptied |
| UndoHistory.ActionHistory.PopUndoAction | src/tui/app.rs:594-596 | returns the newest undo entry and removes it, or nothing on an empty stack |
| UndoHistory.ActionHistory.PushRedoAction | src/tui/app.rs:599-604 | the new state is `PushRedo` of the old: the oldest redo entry dropped when full, the action on top |
| UndoHistory.ActionHistory.PopRedoAction | src/tui/app.rs:607-609 | returns the newest redo entry and removes it, or nothing on an empty stack |
| UndoHistory.ActionHistory.PushUndoUnbounded | src/tui/app.rs:2000 | `redo` appends to the undo stack directly, with no bound check, and changes nothing else |
| UndoHistory.PushBoundedSpec | src/tui/app.rs:585-604 | a bounded push stays within the bound, puts the new entry on top and keeps the newest older entries in order |
| UndoHistory.PushKeepsBounded | src/tui/app.rs:585-604 | with a bound of at least one, both pushes keep both stacks bounded, and `push` empties the redo stack and enables undo |
| UndoHistory.ZeroBoundCannotPush | src/tui/app.rs:585-589 | with a bound of 0 the first push would remove from an empty stack, so a bound of at least one is required |
| UndoHistory.PopAfterPush | src/tui/app.rs:585-609 | popping returns what was pushed last, and the stack below is what the push kept |
| UndoHistory.CanIffPopSome | src/tui/app.rs:612-619 | `can_undo` and `can_redo` hold exactly when popping yields an entry; popping an empty stack changes nothing |
| UndoHistory.JointBoundPreserved | src/tui/app.rs:1950-2028 | if both stacks together stay within the bound, a push, an undo step (pop then `push_redo`) and a redo step (pop then the unchecked push) keep them so, and the undo step's `push_redo` never drops an entry |
| UndoHistory.JointImpliesBounded | src/tui/app.rs:569-620 | the joint bound implies each stack's own bound |
| UndoHistory.ScenarioPushPop | src/tui/app/tests.rs:201-228 | with bound 3: empty at first; after pushing "a" and "b" undo pops "b"; after a redo push redo pops "b" |
| UndoHistory.ScenarioMaxSize | src/tui/app/tests.rs:231-249 | with bound 2, three pushes keep only "b" and "c" |
| Palette.CommandPalette.constructor | src/tui/app/components.rs:207-212 | a new palette has an empty input, no history, no walk in progress and a bound of 50 |
| Palette.CommandPalette.HistoryPrevious | src/tui/app/components.rs:215-237 | Up keeps the palette's invariant and gives `HistoryPrev`: it saves the typed input and starts at the newest entry, steps to older ones, stays at the oldest, and shows the entry reached |
| Palette.CommandPalette.HistoryNextEntry | src/tui/app/components.rs:240-255 | Down keeps the invariant and gives `HistoryNext`: it steps to a newer entry, or leaves the history and restores the saved input |
| Palette.CommandPalette.AddToHistoryEntry | src/tui/app/components.rs:258-272 | keeps the invariant and gives `AddToHistory`: empty commands and repeats of the newest entry are skipped, and the oldest entry goes when over the bound |
| Palette.CommandPalette.ClearHistoryNavigation | src/tui/app/components.rs:275-278 | the walk ends and the saved input is cleared |
| Palette.CommandPalette.ClearInput | src/tui/app/components.rs:281-284 | the input is emptied and the walk ends |
| Palette.HistoryPrevKeepsInv | src/tui/app/components.rs:215-237 | Up keeps the walk position on the history and always enters a non-empty history |
| Palette.OperationsKeepInv | src/tui/app/components.rs:215-284 | every palette operation keeps the history within its bound and the walk position on the history |
| Palette.PrevShowsEntry | src/tui/app/components.rs:233-235 | after Up the input is the history entry the walk points at |
| Palette.PrevThenNextRestoresInput | src/tui/app/components.rs:215-255 | Up then Down from outside the history gives back exactly what the user had typed and ends the walk |
| Palette.WalkDirection | src/tui/app/components.rs:215-255 | Up moves one entry older and stops at the oldest; Down, while still inside the history, moves one entry newer |
| Palette.AddKeepsNoAdjacentDuplicates | src/tui/app/components.rs:258-272 | adding never creates two equal neighbouring entries, and an empty command changes nothing |
| Palette.AddAppendsNewest | src/tui/app/components.rs:258-272 | a new command becomes the newest entry and the entries before it are the newest part of the old history, one dropped when full |
| Palette.ClearResets | src/tui/app/components.rs:281-284 | clearing empties the input, ends the walk and keeps the history |
| Palette.InlinePrevAgrees | src/tui/app.rs:1468-1491 | the App's own Up agrees with the palette's, except that at the oldest entry it returns without rewriting the input |
| Palette.InlinePrevDiffersAfterEdit | src/tui/app.rs:1478-1481 | the two differ when the recalled oldest entry was edited: the App keeps the edit, the palette restores the entry |
| Palette.InlineAddAgrees | src/tui/app.rs:1512-1526 | the App's add is the palette's add of the trimmed command, with the bound fixed at 50 |
| Palette.InlineOperationsKeepInv | src/tui/app.rs:1468-1526 | the App's own Up and add keep the walk position on the history and the history within 50 |
| Palette.Matching | src/tui/app.rs:1451-1454 | never more matches than commands |
| Palette.Suggestions | src/tui/app.rs:1445-1457 | at most five suggestions |
| Palette.MatchingSpec | src/tui/app.rs:1451-1454 | a command is matched exactly when it is in the table and starts with the input, and matches keep table order |
| Palette.SuggestionsSpec | src/tui/app.rs:1445-1457 | suggestions are table commands starting with the trimmed, lower-cased input, in table order; when fewer than five are given, every such command is among them |
| Palette.BlankInputNoSuggestions | src/tui/app.rs:1447-1449 | blank input gets no suggestions |
| Palette.Autocomplete | src/tui/app.rs:1460-1465 | with no suggestion the input is unchanged; otherwise it becomes a table command that starts with the normalised input |
| Palette.CommandLine.constructor | src/tui/app.rs:905-908 | normal mode, empty command line, no history, no walk |
| Palette.CommandLine.EnterCommand | src/tui/app.rs:1424-1428 | command mode, an empty line and history navigation reset |
| Palette.CommandLine.ExitCommand | src/tui/app.rs:1431-1434 | normal mode and an empty line; the history is unchanged |
| Palette.CommandLine.CommandPush | src/tui/app.rs:1437-1439 | the character is appended to the line |
| Palette.CommandLine.CommandPop | src/tui/app.rs:1442-1444 | the last character is removed; an empty line stays empty |
| Palette.CommandLine.AutocompleteCommand | src/tui/app.rs:1460-1465 | the line becomes `Autocomplete` of the old line |
| Palette.CommandLine.CommandHistoryPrev | src/tui/app.rs:1468-1491 | Up gives `InlineHistoryPrev` of the old state |
| Palette.CommandLine.CommandHistoryNext | src/tui/app.rs:1494-1509 | Down gives `HistoryNext` of the old state |
| Palette.CommandLine.AddToCommandHistory | src/tui/app.rs:1512-1526 | the history becomes `InlineAddToHistory` of the old one |
| Palette.CommandLine.ResetHistoryNav | src/tui/app.rs:1529-1532 | the walk ends and the saved input is cleared |
| Palette.InlineAddSpec | src/tui/app.rs:1512-1526 | the App's history stays within 50 entries, ignores blank commands, and a new trimmed command becomes the newest entry |
| Selectable.MovesStayInRange | src/tui/app/traits.rs:25-57 | next, last and select always land on the list when it is not empty and leave the cursor alone on an empty list; prev and first keep a valid cursor valid |
| Selectable.NextPrevInverse | src/tui/app/traits.rs:25-37 | away from the ends, next and prev undo each other; next never moves back and prev never forward; each leaves the cursor in place exactly at its end of the list |
| Selectable.SelectAtSpec | src/tui/app/traits.rs:51-57 | `select(index)` picks the index itself when it is on the list and the last item when it is past the end, and selecting twice is selecting once |
| Selectable.BundleState.constructor | src/tui/app/list_state.rs:36-42 | a new bundle list holds the given bundles with the cursor on the first |
| Selectable.BundleState.Next | src/tui/app/list_state.rs:49-52 | the bundles are kept and the cursor moves as `select_next` does |
| Selectable.BundleState.Prev | src/tui/app/list_state.rs:54-57 | the bundles are kept and the cursor moves as `select_prev` does |
| Selectable.BundleState.First | src/tui/app/list_state.rs:59-62 | the bundles are kept and the cursor goes to 0 |
| Selectable.BundleState.Last | src/tui/app/list_state.rs:64-67 | the bundles are kept and the cursor moves as `select_last` does |
| Selectable.BundleState.Select | src/tui/app/list_state.rs:74-77 | the bundles are kept and the cursor moves as `select(index)` does |
| Selectable.BundleState.SelectedBundle | src/tui/app/list_state.rs:69-72 | a bundle is returned exactly when the cursor is on the list, and it is the bundle under the cursor |
| Selectable.BundleState.Get | src/tui/app/list_state.rs:91-94 | a bundle is returned exactly when the index is on the list, and it is the bundle at that index |
| Selectable.BundleState.Reload | src/tui/app/list_state.rs:79-84 | success exactly when the database read succeeds; a failed read changes nothing; otherwise the new bundles with the cursor clamped to them |
| Selectable.ReloadedIndexSpec | src/tui/app/list_state.rs:82 | after a reload the cursor is on a non-empty list, is 0 on an empty one, and stays put when its position still exists |
| ToolList.MaxOpt | src/tui/app.rs:1053-1063 | the best of the optional scores: present exactly when one of them is, at least as large as each present one, and equal to one of them |
| ToolList.BestScoreSpec | src/tui/app.rs:1040-1066 | a tool is found by a non-empty query exactly when its name, description or category fuzzy-matches, and a name match scores at least its fuzzy score plus the bonus of 10 |
| ToolList.KeptSpec | src/tui/app.rs:1011-1066 | the filtering step keeps a sub-multiset of the inventory, and a tool is kept exactly when it passes the source and favourites filters and, when searching, matches the query |
| ToolList.ToolLeTotal | src/tui/app.rs:1069-1087 | each of the four comparators (score, name, use count, updated time) is total and transitive, so the sort is well defined |
| ToolList.FilterAndSortMembers | src/tui/app.rs:1009-1087 | the shown list is a sub-multiset of the inventory and holds exactly the tools that pass the source and favourites filters and, while searching, match the query on name, description or category |
| ToolList.FilterAndSortByScore | src/tui/app.rs:1036-1072 | while searching every shown tool matches and the best scores come first: scores never increase along the list |
| ToolList.FilterAndSortByKey | src/tui/app.rs:1073-1087 | without a query the list is ordered by the chosen key: names ascending, use counts descending, or most recently updated first |
| ToolList.ClampIndex | src/tui/app.rs:1089-1093 | after refiltering the cursor is on a non-empty list, 0 on an empty one, and unchanged when still on the list |
| ToolList.SearchNextIndex | src/tui/app.rs:1115-1126 | the next item, wrapping from the last to the first; always on the list |
| ToolList.SearchPrevIndex | src/tui/app.rs:1129-1140 | the previous item, wrapping from the first to the last; on the list whenever the cursor was at most the length |
| ToolList.SearchWrapInverse | src/tui/app.rs:1115-1140 | on a valid cursor, `n` followed by `N`, or `N` followed by `n`, returns to the same item |
| ToolList.FirstWithInitial | src/tui/app.rs:1153-1163 | the index found is the first tool whose lowercased name starts with the letter; none is found exactly when no tool's name does |
| ToolList.Snapshot | src/tui/app/actions.rs:72-81 | the redo (undo) entry saved by undo (redo) is of the same kind as the entry popped |
| ToolList.StepsKeepJointBound | src/tui/app/actions.rs:70-147 | undo and redo keep the two stacks together within the history bound, even though redo pushes onto the undo stack directly |
| ToolList.EmptyStepsOnlyReport | src/tui/app/actions.rs:104-106 | with nothing to undo (redo) the fields and the history are unchanged and only the error status "Nothing to undo" ("Nothing to redo") is set |
| ToolList.UndoThenRedo | src/tui/app/actions.rs:70-147 | undo restores the recorded value of the popped entry's field; redo right after undo gives back all four fields and both stacks exactly as they were |
| ToolList.FilterUndoRedoScenario | src/tui/app/tests.rs:182-199 | recording "filter1", changing to "filter2" and undoing gives "filter1"; redoing gives "filter2" again |
| ToolList.Toggle | src/tui/app/actions.rs:26-30 | the toggled name's membership flips and every other name's membership is unchanged |
| ToolList.ToggleTwice | src/tui/app/actions.rs:26-30 | toggling the same name twice gives back the original selection |
| ToolList.VisibleSelected | src/tui/app/actions.rs:251-260 | the selected names kept are exactly those in the selection that some visible tool with that name and installed flag carries |
| ToolList.RequestTargetsSpec | src/tui/app/actions.rs:241-261 | with no selection, at most the cursor tool, and exactly it when it exists and its installed flag fits; with a selection, exactly the selected names visible with a fitting installed flag |
| ToolList.BuildInstallTask | src/tui/app/actions.rs:172-199 | the install task carries the given name, source, version and metadata; the display command is the package layer's command, or else `<source> install <name>` with `@<version>` when pinned |
| ToolList.TasksFor | src/tui/app/actions.rs:225-233 | at most one task per name, exactly one each when the database knows every name (and each has a version when one is needed), and every task is pinned exactly when versions are asked for |
| ToolList.TasksForKnown | src/tui/app/actions.rs:225-233 | every task is for a tool the database returned for one of the names |
| ToolList.InstallableOptions | src/tui/app/actions.rs:308-322 | the options kept are exactly those from crates.io, PyPI, npm, Homebrew or apt |
| ToolList.DiscoverInstallRequest | src/tui/app/actions.rs:303-365 | no selected result gives nothing; no installable option gives the error case; more than one gives a source choice at the first option holding exactly the installable options; exactly one gives a direct install of the result from that option's source |
| ToolList.NavigateIndex | src/tui/app/actions.rs:380-394 | moving through the source options keeps a valid index valid; forward is `(index + 1) mod len` |
| ToolList.NavigateInverse | src/tui/app/actions.rs:380-394 | forward and back through the source options undo each other, wrapping at both ends |
| ToolList.ListRow | src/tui/app.rs:1923-1936 | a row is reported exactly when the click is inside the list area and below its header row, and it is the row counted from below the header |
| ToolList.ToolListApp.constructor | src/tui/app.rs:826-912 | the App starts on the Installed tab in normal mode with all installed tools shown, no query, no filter, name order, nothing selected, nothing pending and an empty history of bound 50 |
| ToolList.ToolListApp.SetStatus | src/tui/app.rs:2200-2205 | only the status message changes, to the given text and error flag |
| ToolList.ToolListApp.ApplyFilterAndSort | src/tui/app.rs:1009-1094 | the visible list becomes the filtered and sorted inventory and the cursor is clamped onto it; no other field changes |
| ToolList.ToolListApp.CycleSort | src/tui/app.rs:1097-1100 | the sort key moves to the next one in the cycle and the list is recomputed with it, the cursor clamped; every other field, including the unfiltered list, the query and the status, is unchanged |
| ToolList.ToolListApp.RefreshTools | src/tui/app.rs:965-1001 | on a successful read the inventory becomes the tab's tools and the list is recomputed; a failed read leaves the lists and cursor alone |
| ToolList.ToolListApp.SwitchTab | src/tui/app.rs:934-942 | a different tab resets cursor, scroll offset and query and reloads the list: a successful read replaces the unfiltered list with the tab's tools and refilters, a failed read keeps both lists; the current tab changes nothing at all; every other field, including selection, sort order, pending action, input mode and status, is kept |
| ToolList.ToolListApp.NextTab | src/tui/app.rs:945-950 | the tab moves to the next one in the cycle of five and is loaded as by a tab switch, with the cursor, scroll offset and query reset; nothing else changes |
| ToolList.ToolListApp.PrevTab | src/tui/app.rs:953-962 | the tab moves to the previous one in the cycle of five and is loaded as by a tab switch, with the cursor, scroll offset and query reset; nothing else changes |
| ToolList.ToolListApp.SelectNext | src/tui/app.rs:1103-1107 | the cursor moves one down, stopping at the last tool; nothing changes on an empty list |
| ToolList.ToolListApp.SelectPrev | src/tui/app.rs:1110-1112 | the cursor moves one up, stopping at 0 |
| ToolList.ToolListApp.SelectFirst | src/tui/app.rs:1204-1206 | the cursor goes to 0 and nothing else changes |
| ToolList.ToolListApp.SelectLast | src/tui/app.rs:1209-1213 | the cursor goes to the last tool; nothing changes on an empty list; no other field changes |
| ToolList.ToolListApp.SearchNext | src/tui/app.rs:1115-1126 | the cursor moves to the next tool, wrapping to the first with the status "Search wrapped to top"; without a wrap the status is kept; nothing changes on an empty list; no field but the cursor and status changes |
| ToolList.ToolListApp.SearchPrev | src/tui/app.rs:1129-1140 | the cursor moves to the previous tool, wrapping to the last with the status "Search wrapped to bottom"; without a wrap the status is kept; nothing changes on an empty list; no field but the cursor and status changes |
| ToolList.ToolListApp.EnterJumpMode | src/tui/app.rs:1143-1145 | the input mode becomes jump-to-letter and nothing else changes |
| ToolList.ToolListApp.JumpToLetter | src/tui/app.rs:1153-1163 | the cursor goes to the first tool whose lowercased name starts with the lowercased letter and the status says so; without one the cursor and status stay; the mode is always back to normal; no other field changes |
| ToolList.ToolListApp.ReturnToNormal | src/tui/app.rs:1148-1150 | the input mode becomes normal and nothing else changes (`exit_jump_mode`, and `exit_search` at 1394-1396) |
| ToolList.ToolListApp.ClearStatus | src/tui/app.rs:2208-2210 | the status message is cleared and nothing else changes |
| ToolList.ToolListApp.EnterSearch | src/tui/app.rs:1387-1391 | the current query is pushed as a filter entry, the mode becomes search and the query is emptied; the list is not recomputed |
| ToolList.ToolListApp.SearchPush | src/tui/app.rs:1399-1402 | the query grows by the character and the list is recomputed with the cursor clamped |
| ToolList.ToolListApp.SearchPop | src/tui/app.rs:1405-1408 | the query loses its last character, if any, and the list is recomputed with the cursor clamped |
| ToolList.ToolListApp.ClearSearch | src/tui/app.rs:1411-1417 | with a query, it is pushed as a filter entry, emptied and the list recomputed; without one nothing changes |
| ToolList.ToolListApp.SelectNextBundle | src/tui/app.rs:1218-1222 | the bundle cursor moves one down, stopping at the last bundle; nothing changes with no bundles |
| ToolList.ToolListApp.SelectPrevBundle | src/tui/app.rs:1225-1227 | the bundle cursor moves one up, stopping at 0 |
| ToolList.ToolListApp.SelectedTool | src/tui/app.rs:1247-1249 | a tool is returned exactly when the cursor is on the list, and it is the tool under the cursor |
| ToolList.ToolListApp.RecordSelection | src/tui/app/actions.rs:150-153 | the current selection is pushed onto the undo history |
| ToolList.ToolListApp.RecordFilter | src/tui/app/actions.rs:156-159 | the current query is pushed onto the undo history |
| ToolList.ToolListApp.ToggleSelection | src/tui/app/actions.rs:21-32 | with a tool under the cursor the old selection is recorded and that tool's name flips membership; without one nothing changes |
| ToolList.ToolListApp.ClearSelection | src/tui/app/actions.rs:40-45 | the selection ends empty; it is recorded first only when it was not already empty |
| ToolList.ToolListApp.SelectAll | src/tui/app/actions.rs:48-53 | the old selection is recorded and the new one is the old one plus every visible tool's name; no other field and not the status changes |
| ToolList.ToolListApp.SetView | src/tui/app/actions.rs:83-101 | the selection, query, tab and sort key take the given values and no other field changes |
| ToolList.ToolListApp.Undo | src/tui/app/actions.rs:70-107 | fields, history and status are exactly the undo step of the old ones; after a filter or sort entry the list is recomputed with the cursor clamped, otherwise list and cursor are kept; the unfiltered list, scroll offset, input mode, pending action and settings are unchanged |
| ToolList.ToolListApp.Redo | src/tui/app/actions.rs:110-147 | fields, history and status are exactly the redo step of the old ones; after a filter or sort entry the list is recomputed with the cursor clamped, otherwise list and cursor are kept; the unfiltered list, scroll offset, input mode, pending action and settings are unchanged |
| ToolList.ToolListApp.RequestUninstall | src/tui/app/actions.rs:241-264 | the pending action becomes an uninstall of the target names when there are any, otherwise it is unchanged; no other field and not the status changes |
| ToolList.ToolListApp.RequestInstall | src/tui/app/actions.rs:202-238 | the pending action becomes an install of one task per target name the database knows, when there is at least one, otherwise it is unchanged; no other field and not the status changes |
| ToolList.ToolListApp.RequestUpdate | src/tui/app/actions.rs:267-300 | the pending action becomes an update of the target names with an available update, each pinned to its latest version, when there is at least one task, otherwise it is unchanged; no other field and not the status changes |
| ToolList.ToolListApp.RequestDiscoverInstall | src/tui/app/actions.rs:303-365 | without a selected result nothing changes; with no installable option only an error status is set; otherwise the pending action becomes the source choice or the direct install and the status is kept; no other field changes |
| ToolList.ToolListApp.NavigateSourceSelection | src/tui/app/actions.rs:380-394 | while a source choice is pending with options its index moves with wrap-around; any other pending action is left alone; no other field and not the status changes |
| ToolList.ToolListApp.ConfirmSourceSelection | src/tui/app/actions.rs:397-428 | the pending action is always taken out, whatever its kind; a source choice with a valid index becomes a direct install from that source with the status kept, an invalid index sets the error "Invalid selection"; no other field changes |
| ToolList.ToolListApp.ConfirmAction | src/tui/app/actions.rs:499-501 | returns the pending action and leaves none; nothing else changes |
| ToolList.ToolListApp.CancelAction | src/tui/app/actions.rs:504-506 | no action is pending afterwards and nothing else changes |
| ToolList.ToolListApp.ClickListItem | src/tui/app.rs:1875-1889 | on the Bundles tab a click on an existing bundle row selects it; elsewhere a click selects the tool at scroll offset plus row when it exists; a row past the end changes nothing |
| ToolList.ToolListApp.GetListRow | src/tui/app.rs:1923-1936 | a row is reported only when a list area was drawn and the click is below its header row |
| ToolList.TabTools | src/tui/app.rs:965-995 | Discover and Updates before any update check load nothing; other tabs load exactly when the read succeeds; Available keeps only uninstalled tools and Updates only tools with an update |
| ToolList.Retain | src/tui/app.rs:976-994 | keeps exactly the tools with an update, or the uninstalled tools |
| ToolList.UpdateTargets | src/tui/app/actions.rs:268-281 | every target has an available update; with a selection, the targets are exactly the selected names with an update |
| ToolList.WithUpdates | src/tui/app/actions.rs:276-280 | keeps exactly the names with an available update |
| ResultOrder.ByStarsOrder | src/discover.rs:1193 | the stars order used inside a deduplication group (most stars first, no stars last) is total and transitive, so sorting by it is well defined |
| ResultOrder.ByNameOrder | src/tui/app/discover.rs:74-75 | the order on lower-cased names is total and transitive |
| ResultOrder.ByStarsThenNameOrder | src/discover.rs:1229-1235 | the intended order of the merged list, most stars first, then unstarred results by name, is total and transitive |
| ResultOrder.BySourceOrder | src/tui/app/discover.rs:77-93 | the order by fixed source rank, then by lower-cased name, is total and transitive |
| ResultOrder.ByStarsThenNameMeaning | src/discover.rs:1229-1235 | in a list sorted in the intended order, stars never increase among starred results, no unstarred result precedes a starred one, and unstarred results are in name order |
| ResultOrder.SortByStarsThenName | src/discover.rs:1229-1235 | sorting the merged list gives a list sorted in the intended order that holds exactly the same results |
| ResultOrder.ByStarsAsWrittenOrder | src/discover.rs:1230-1235 | the stars comparator as written is total and transitive, so sorting by it is well defined |
| ResultOrder.ByStarsAsWrittenMeaning | src/discover.rs:1230-1235 | in a list sorted by the comparator as written, every unstarred result precedes every starred one, unstarred results are in name order, and stars never increase among starred ones |
| ResultOrder.SortByStarsAsWritten | src/discover.rs:1230-1235 | sorting with the comparator as written gives a list sorted in that sense that holds exactly the same results |
| ResultOrder.AsWrittenPutsUnstarredFirst | src/discover.rs:1230-1235 | the comparator as written sorts a starred result behind an unstarred one; the intended order keeps the starred result in front |
| Discovery.BuilderSpec | src/discover.rs:36-73 | a new result has exactly one install option, for its own source and command, and no stars, URL or language; each `with_*` sets only its own field |
| Discovery.RemoveSeparatorsSpec | src/discover.rs:1171-1173 | after removing separators no '-' or '_' is left, no other character is added, and a name without separators is unchanged |
| Discovery.NormalizeNameSpec | src/discover.rs:1171-1173 | a normalised name has no separators and no upper-case letter, and normalising it again changes nothing |
| Discovery.RemoveJoined | src/discover.rs:1171-1173 | words joined by one '-', one '_' or nothing normalise to the words run together |
| Discovery.NormalizePlainExample | src/discover.rs:1274-1279 | "ripgrep" normalises to itself |
| Discovery.NormalizeDashExample | src/discover.rs:1274-1279 | "rip-grep" normalises to "ripgrep" |
| Discovery.NormalizeUnderscoreExample | src/discover.rs:1274-1279 | "rip_grep" normalises to "ripgrep" |
| Discovery.NormalizeCaseExample | src/discover.rs:1274-1279 | "Rip-Grep" normalises to "ripgrep" |
| Discovery.OwnerRepoOfPath | src/discover.rs:129-144 | a repository is found only when, after removing ".git" and trailing slashes, the first two '/'-segments are non-empty; the result is those two segments, lowercased |
| Discovery.ShorthandRepo | src/discover.rs:100-108 | the shorthand applies only to text that starts with "github:" |
| Discovery.ExtractOwnerRepo | src/discover.rs:99-145 | the step-by-step prefix stripping (each optional scheme removed at most once, in order) gives the same answer as the functional definition |
| Discovery.OwnerRepoOfPathSpec | src/discover.rs:129-144 | a found repository is lowercase and is two non-empty segments joined by one '/' |
| Discovery.ExtractGithubOwnerRepoSpec | src/discover.rs:99-145 | every normalised name is lowercase and holds a '/'; outside the shorthand it is exactly two non-empty segments joined by '/' |
| Discovery.OwnerRepoOfSimplePath | src/discover.rs:132-140 | "owner/repo", optionally followed by ".git" or '/', gives "owner/repo" lowercased |
| Discovery.HttpsForm | src/discover.rs:110-127 | for `https://github.com/<path>` the answer depends on the path alone |
| Discovery.GitPlusForm | src/discover.rs:110-127 | for `git+https://github.com/<path>` the answer depends on the path alone |
| Discovery.SshForm | src/discover.rs:110-127 | for `git@github.com:<path>` the answer depends on the path alone |
| Discovery.ShorthandForm | src/discover.rs:100-108 | `github:<owner>/<repo>` gives the path lowercased |
| Discovery.HttpsExample | src/discover.rs:1324-1328 | "https://github.com/owner/repo" gives "owner/repo" |
| Discovery.DotGitExample | src/discover.rs:1330-1334 | a ".git" suffix is ignored |
| Discovery.GitPlusExample | src/discover.rs:1336-1340 | the npm `git+https://…/owner/repo.git` form gives "owner/repo" |
| Discovery.SshExample | src/discover.rs:1342-1346 | the SSH form `git@github.com:owner/repo.git` gives "owner/repo" |
| Discovery.ShorthandExample | src/discover.rs:1348-1352 | "github:owner/repo" gives "owner/repo" |
| Discovery.CaseExample | src/discover.rs:1354-1358 | letter case in owner and repo does not matter |
| Discovery.TrailingSlashExample | src/discover.rs:1360-1364 | a trailing slash is ignored |
| Discovery.NotAUrlExample | src/discover.rs:1366-1367 | "not-a-url" is no repository |
| Discovery.OtherHost | src/discover.rs:122-127 | an HTTPS URL whose host is not github.com is no repository |
| Discovery.OtherHostExample | src/discover.rs:1368-1371 | "https://gitlab.com/owner/repo" is no repository |
| Discovery.GithubUrlsMatchSpec | src/discover.rs:148-156 | matching is symmetric, is false when either URL is not a GitHub repository, and a URL matches itself exactly when it is one |
| Discovery.GitPlusMatchExample | src/discover.rs:1376-1379 | the https form and the `git+https://…/owner/repo.git` form of one repository match |
| Discovery.CaseMatchExample | src/discover.rs:1381-1385 | two URLs differing only in letter case match |
| Discovery.FilterGithubResultsIsIdentity | src/discover.rs:1241-1261 | as written the filter returns its input unchanged, because a result that is a GitHub result can never be a crates.io, PyPI or npm one |
| Discovery.Registries | src/discover.rs:1147-1157 | at most one search per enabled name |
| Discovery.RegistriesSpec | src/discover.rs:1147-1157 | every registry search comes from an enabled name with a search implementation, and each such name contributes its search |
| Discovery.GetEnabledSources | src/discover.rs:1137-1167 | the loop builds the registries of the enabled names in order, then GitHub, then the AI search when a provider is configured |
| Discovery.EnabledSourcesSpec | src/discover.rs:1137-1167 | GitHub is searched exactly once, right after the registries; the AI search is last exactly when a provider is configured and receives every enabled name |
| Dedup.AddOptionsSpec | src/discover.rs:1205-1214 | adding another member's options keeps the primary's options in front, makes the sources the union, and appends an option only for a source not yet present |
| Dedup.MergeAllOptions | src/discover.rs:1204-1225 | after the merge loop name, stars, source and language are the primary's, its options are in front, and the sources are the union over all members |
| Dedup.MergeAllUrl | src/discover.rs:1215-1222 | URL and description change at most once, to the first member with a GitHub URL, and only while the primary's URL is not a GitHub one |
| Dedup.FirstMaxIndex | src/discover.rs:1192-1195 | the primary's position is inside the group |
| Dedup.FirstMaxSpec | src/discover.rs:1192-1195 | the primary has the most stars (`None` lowest) and is the earliest among equals |
| Dedup.SortHead | src/discover.rs:1192-1195 | the stable sort by stars puts that member first, so `remove(0)` takes it |
| Dedup.MergeGroupSpec | src/discover.rs:1190-1226 | a merged group has the primary's name and stars, its options in front, exactly the group's sources, keeps a GitHub URL of the primary, and otherwise gets one when any member has one |
| Dedup.FirstGithub | src/discover.rs:1215-1222 | the first member with a GitHub URL, when there is one |
| Dedup.Group | src/discover.rs:1180-1185 | a group holds exactly the results with that key, in input order |
| Dedup.FirstKeysSpec | src/discover.rs:1188-1189 | first-occurrence order is one valid order of the group map's keys |
| Dedup.MergedGroups | src/discover.rs:1188-1227 | one merged result per key |
| Dedup.MergeGroupLoop | src/discover.rs:1190-1226 | the nested push loops compute the merge of the group |
| Dedup.GroupResults | src/discover.rs:1180-1185 | the grouping loop builds a map from each normalised name of the input to its group |
| Dedup.GroupStep | src/discover.rs:1182-1185 | one push onto the group map keeps it equal to the grouping of the prefix read so far |
| Dedup.DeduplicateResults | src/discover.rs:1176-1238 | the method returns the grouped, merged and sorted list for the map's key order, sorted in the intended stars order (see Findings) |
| Dedup.MergeGroups | src/discover.rs:1188-1227 | the map-over-groups loop gives one merged result per key, in the map's order |
| DedupProperties.MergedKey | src/discover.rs:1183-1195 | a merged group carries its group's key |
| DedupProperties.MergedGroupsSpec | src/discover.rs:1188-1227 | entry i before the final sort is the merge of key i's group |
| DedupProperties.MergedMembers | src/discover.rs:1188-1227 | every merged result is its own key's group merged, and that key occurs in the input |
| DedupProperties.MergedCovers | src/discover.rs:1188-1227 | every key of the input gets its merged result |
| DedupProperties.MergedDistinct | src/discover.rs:1188-1227 | before sorting no two results share a key |
| DedupProperties.DedupBySpec | src/discover.rs:1176-1238 | for any name-determined key: one result per key, each the merge of its group, in the intended stars-then-name order |
| DedupProperties.DedupBySources | src/discover.rs:1203-1214 | the merged list can be installed from exactly the sources the input offered |
| DedupProperties.MergedSources | src/discover.rs:1203-1214 | merging each name group keeps exactly the set of sources the input offered |
| DedupProperties.DeduplicatedSpec | src/discover.rs:1176-1238 | `deduplicate_results` gives one result per normalised name, each the merge of its group, in the intended stars-then-name order |
| DedupProperties.DeduplicatedAsWrittenSpec | src/discover.rs:1229-1235 | the list as the source sorts it holds exactly the same entries; every unstarred entry comes first, unstarred entries by lower-cased name, then starred entries with stars never increasing |
| DedupProperties.DeduplicatedSources | src/discover.rs:1203-1214 | `deduplicate_results` loses no install source |
| DiscoverSession.DiscoverSortCycle | src/tui/app/discover.rs:56-59 | cycling the sort order always changes it and comes back after three steps |
| DiscoverSession.SortedResultsSpec | src/tui/app/discover.rs:62-97 | sorting keeps exactly the same results (as a multiset) and leaves them ordered by the comparator of the chosen order: the intended stars then name, name, or source rank then name |
| DiscoverSession.StarsSortAsWrittenSpec | src/tui/app/discover.rs:63-69 | the Stars sort as written keeps exactly the same results, puts every unstarred result before every starred one, unstarred ones by lower-cased name and starred ones with stars never increasing |
| DiscoverSession.StarsSortAsWrittenDiffers | src/tui/app/discover.rs:63-69 | on a starred result followed by an unstarred one, the Stars sort as written gives the unstarred one first and the model's Stars sort the starred one |
| DiscoverSession.Toggled | src/tui/app/discover.rs:158-166 | the toggled filter's membership flips and every other filter is unchanged |
| DiscoverSession.ToggledTwice | src/tui/app/discover.rs:158-166 | toggling the same filter twice restores the filter set |
| DiscoverSession.Refreshed | src/tui/app/discover.rs:202-215 | a filter survives exactly when it is still enabled or is "github"; "github" is present whenever `gh` is available |
| DiscoverSession.RefreshedIdempotent | src/tui/app/discover.rs:202-215 | refreshing twice with the same configuration is the same as refreshing once |
| DiscoverSession.AvailableSourcesSpec | src/tui/app/discover.rs:168-199 | a source is offered exactly when its configuration flag (or `gh`, for GitHub) is set, nothing else is offered, and GitHub, when offered, comes last |
| DiscoverSession.SearchNamesSpec | src/tui/app/discover.rs:345-372 | at most one search per filter; only the six known searches appear, GitHub only when `gh` is available; a search appears exactly when some filter maps to it |
| DiscoverSession.SearchPlanSpec | src/tui/app/discover.rs:330-386 | a blank query schedules nothing; AI mode schedules the AI search alone and only with a provider; otherwise an empty list of searches is refused; whatever is scheduled has the trimmed query and a first step |
| DiscoverSession.SearchStepKeepsOpValid | src/tui/app/discover.rs:389-609 | every step leaves a schedulable operation for the same query and sources, says "more" exactly when it scheduled one, keeps loading while there are more steps, and stops loading when it finishes |
| DiscoverSession.RegistryStepSpec | src/tui/app/discover.rs:401-476 | a registry step appends that source's results (to an emptied list at step 0; nothing on a failed search), then schedules the next step or finishes with the deduplicated list after the last one |
| DiscoverSession.AiStepSpec | src/tui/app/discover.rs:478-609 | while the AI thread runs the same step is rescheduled and nothing is added; once it has finished its results are appended and the search moves on or finishes like any other step |
| DiscoverSession.ForDedupSpec | src/tui/app/discover.rs:617-640 | the conversion before deduplication keeps name, description, source, stars, URL and every install option (the first re-created under the result's own source), and drops the language |
| DiscoverSession.ForDedupAll | src/tui/app/discover.rs:615-641 | every result is converted, in order |
| DiscoverSession.FinalResultsSpec | src/tui/app/discover.rs:611-674 | the finished list has one entry per distinct normalised name found, loses no install source of what was found, and is in the intended stars-then-name order |
| DiscoverSession.FinalResultsAsWrittenSpec | src/discover.rs:1229-1235 | the finished list as the source sorts it holds exactly the entries of the model's finished list, with every unstarred entry before every starred one |
| DiscoverSession.RunFromSpec | src/tui/app/discover.rs:389-476 | a registry-only search run to the end finishes with the deduplication of every step's results, in step order, and is no longer loading |
| DiscoverSession.AiOnlySearch | src/tui/app/discover.rs:478-609 | an AI-only search starts the thread on the first call, waits on step 0 while it runs, and finishes with exactly the AI's results deduplicated |
| DiscoverSession.Prepended | src/tui/app/discover.rs:300-318 | a saved search becomes the newest entry, the older entries follow in order, and the history never exceeds 100 entries |
| DiscoverSession.HistoryIndexSpec | src/tui/app/discover.rs:226-280 | both history moves keep the index on the history; up enters a non-empty history at the newest entry and stops at the oldest; down undoes up and up undoes down inside the history |
| DiscoverSession.DiscoverTab.constructor | src/tui/app.rs:905-908 | an empty result list, cursor on top, not loading, nothing scheduled, empty query, AI off, no history position |
| DiscoverSession.DiscoverTab.SelectNextDiscover | src/tui/app/discover.rs:20-25 | the cursor moves down one, stopping at the last result; nothing else changes |
| DiscoverSession.DiscoverTab.SelectPrevDiscover | src/tui/app/discover.rs:28-32 | the cursor moves up one, stopping at the top; nothing else changes |
| DiscoverSession.DiscoverTab.SelectFirstDiscover | src/tui/app/discover.rs:35-37 | the cursor goes to the top; nothing else changes |
| DiscoverSession.DiscoverTab.SelectLastDiscover | src/tui/app/discover.rs:40-44 | the cursor goes to the last result when there is one; nothing else changes |
| DiscoverSession.DiscoverTab.SelectedDiscover | src/tui/app/discover.rs:47-49 | a result is returned exactly when the cursor is on the list, and it is the one under the cursor |
| DiscoverSession.DiscoverTab.SortDiscoverResults | src/tui/app/discover.rs:62-97 | the results are replaced by their sorted order under the current sort and the cursor returns to the top; nothing else changes |
| DiscoverSession.DiscoverTab.CycleDiscoverSort | src/tui/app/discover.rs:56-59 | the sort order advances and the results are re-sorted under it, cursor on top |
| DiscoverSession.DiscoverTab.ToggleDiscoverAi | src/tui/app/discover.rs:152-155 | AI mode flips and history navigation is reset; nothing else changes |
| DiscoverSession.DiscoverTab.ToggleDiscoverSourceFilter | src/tui/app/discover.rs:158-166 | the named filter flips and history navigation is reset; nothing else changes |
| DiscoverSession.DiscoverTab.RefreshDiscoverSources | src/tui/app/discover.rs:202-215 | the filters become `Refreshed` of the old filters; nothing else changes |
| DiscoverSession.DiscoverTab.ApplyHistoryEntry | src/tui/app/discover.rs:282-290 | with the index on an entry, the form takes that entry's query, AI flag and filters; otherwise the form is unchanged |
| DiscoverSession.DiscoverTab.DiscoverHistoryUp | src/tui/app/discover.rs:226-246 | an empty history changes nothing; otherwise the index moves to an older entry (stopping at the oldest) and the form shows that entry |
| DiscoverSession.DiscoverTab.DiscoverHistoryDown | src/tui/app/discover.rs:249-279 | leaving the newest entry clears the query, turns AI off and reloads the configured filters when the configuration loads; from an older entry the next newer one is shown; outside the history nothing changes |
| DiscoverSession.DiscoverTab.SaveDiscoverSearchToHistory | src/tui/app/discover.rs:293-323 | a blank query changes nothing; otherwise the trimmed search is prepended (only when the database accepted it, and cut to 100 entries) and history navigation is reset |
| DiscoverSession.DiscoverTab.StartDiscoverSearch | src/tui/app/discover.rs:330-386 | does exactly what `SearchPlan` decides: nothing, an error status, or a step-0 search scheduled with the trimmed query and the planned searches |
| DiscoverSession.DiscoverTab.ExecuteDiscoverSearchStep | src/tui/app/discover.rs:389-476 | the new search state and the "more" answer are those of `SearchStep`, whose properties are the lemmas above |
| DiscoverSession.DiscoverTab.RegistrySearchStep | src/tui/app/discover.rs:416-476 | progress is reported, the registry's answer appended and the search continued or finished |
| DiscoverSession.DiscoverTab.ContinueSearch | src/tui/app/discover.rs:462-475 | the next step is scheduled when there is one, otherwise the search is finalised |
| DiscoverSession.DiscoverTab.HandleAiSearchStep | src/tui/app/discover.rs:478-609 | the AI thread is started, or polled: still running reschedules the same step, finished appends its results with a status and continues |
| DiscoverSession.DiscoverTab.FinalizeDiscoverSearch | src/tui/app/discover.rs:611-674 | loading stops, the results become `FinalResults` of the gathered ones and the status reports their count ("No results found" for none) |
| DiscoverSession.DiscoverTab.ExecuteBackgroundStep | src/tui/app.rs:2226-2235 | with nothing scheduled nothing happens and the answer is "no more"; otherwise the scheduled step is taken off and run |
| VersionPolicyEngine.ParseU64 | src/version_policy.rs:137-142 | `parse::<u64>` accepts an optional `+` followed by at least one digit, and only values below 2^64, read as decimal |
| VersionPolicyEngine.PlainSemver | src/version_policy.rs:133 | the strict semantic-version reading accepts only strings of exactly three dot-separated parts |
| VersionPolicyEngine.Fallback | src/version_policy.rs:133-151 | the fallback reading gives no version for a string with fewer than two dot-separated parts |
| VersionPolicyEngine.PlainSemverAgreesWithFallback | src/version_policy.rs:124-152 | whatever the strict reading accepts, the fallback reads the same way |
| VersionPolicyEngine.SinglePartIsNoVersion | src/version_policy.rs:149-151 | a version string with fewer than two dot-separated parts after prefix stripping is not a version |
| VersionPolicyEngine.ShouldUpdateSpec | src/version_policy.rs:67-121 | pinned is always pinned; a missing version is unknown; equal strings are up to date; two readable versions are up to date unless the available one is newer, and then an update under Latest and, under Stable, held back exactly when the major rises; unreadable but different strings are an update |
| VersionPolicyEngine.HasUpdateIff | src/version_policy.rs:34-36 | `has_update` holds exactly when the tool is not pinned, both versions are known and differ, and, when both are readable, the available one is strictly newer |
| VersionPolicyEngine.StableHoldsBackMajor | src/version_policy.rs:97-104 | under Stable, a readable major bump is never a plain update |
| VersionPolicyEngine.ClassifyNewer | src/version_policy.rs:177-197 | for a strictly newer version the classification names the first component that changed: major, else minor, else patch |
| VersionPolicyEngine.ClassifyUnknownWithoutBoth | src/version_policy.rs:178-181 | a missing or unreadable side gives the unknown change |
| VersionPolicyEngine.ClassifyIgnoresOrder | src/version_policy.rs:184-194 | the components are compared one by one, not the versions as a whole: 2.0.0 to 1.5.0 is classified as a minor change although it is older |
| VersionPolicyEngine.FirstGoverning | src/version_policy.rs:53-59 | the bundle found is the first in list order that lists the tool and carries a policy; none is found exactly when no bundle does |
| VersionPolicyEngine.Origin | src/version_policy.rs:46-64 | a bundle origin always names a bundle of the list |
| VersionPolicyEngine.BundleSearchesAgree | src/version_policy.rs:53-59 | the loops of `resolve_policy` and `policy_source` stop at the same first governing bundle |
| VersionPolicyEngine.ResolveAndSourceAgree | src/version_policy.rs:46-64 | the cascade: the tool's own policy wins, then the first governing bundle, then the source default; `policy_source` (200-224) reports that same branch and that same bundle |
| VersionPolicyEngine.EarlierBundleWins | src/version_policy.rs:53-59 | when two bundles govern a tool, the later one is never the origin |
| VersionPolicyEngine.ReadsPlain | src/version_policy.rs:232-236 | "1.2.3" reads as 1.2.3 |
| VersionPolicyEngine.ReadsLowerV | src/version_policy.rs:232-236 | "v1.2.3" reads as 1.2.3 |
| VersionPolicyEngine.ReadsUpperV | src/version_policy.rs:232-236 | "V1.2.3" reads as 1.2.3 |
| VersionPolicyEngine.ReadsTwoParts | src/version_policy.rs:239-241 | "1.2" reads as 1.2.0 |
| VersionPolicyEngine.PatchSuffixDropped | src/version_policy.rs:139-141 | a patch part of digits followed by nothing or by a `-` or `+` suffix loses the suffix |
| VersionPolicyEngine.FallbackKeepsThree | src/version_policy.rs:134-143 | with three or more parts, the fallback keeps the first three numbers and drops both the extra parts and a `-` or `+` suffix of the patch ("1.2.3.4" is 1.2.3, test at 244-249) |
| VersionPolicyEngine.MajorBumpExample | src/version_policy.rs:252-297 | 1.0.0 against 2.0.0 is an update under Latest, held back under Stable, pinned under Pinned, and a major change |
| VersionPolicyEngine.MinorBumpExample | src/version_policy.rs:258-305 | 1.0.0 against 1.1.0 is an update under Stable and a minor change |
| Themes.ConfigRoundTrip | src/tui/theme.rs:247-273 | converting a variant to the configuration's theme name and back gives the same variant, and the other way round |
| Themes.IndexRoundTrip | src/tui/app.rs:203-236 | the configuration menu's theme position and the configured theme correspond one to one over positions 0 to 6, the custom theme at position 6 (`CUSTOM_THEME_INDEX`) |
| Themes.NextFollowsAll | src/tui/theme.rs:227-245 | the `t` cycle visits the built-ins in the order of `all()`, goes from Gruvbox to Custom only when the custom theme file exists, and from Custom back to Catppuccin Mocha |
| Themes.CustomReachedOnlyWithFile | src/tui/theme.rs:236-243 | the cycle reaches Custom from some variant exactly when it is at Gruvbox and the custom theme file exists |
| Themes.CycleWithoutCustom | src/tui/theme.rs:227-245 | without the custom theme file the cycle never leaves the built-ins and six steps bring each back to itself |
| Themes.CycleWithCustom | src/tui/theme.rs:227-245 | with the custom theme file seven steps bring every variant back to itself |
| Themes.AllBuiltIns | src/tui/theme.rs:275-285 | `all()` lists the six built-in variants, each once, and not Custom |
| Themes.DisplayNamesDistinct | src/tui/theme.rs:287-299 | distinct variants have distinct display names |
| ConfigMenu.ProviderIndex | src/tui/app.rs:206-212 | a provider's position in the provider list, as `from_config` looks it up |
| ConfigMenu.With | src/tui/app.rs:240-260 | setting one section's highlighted item leaves every other section's item alone |
| ConfigMenu.StepsInverse | src/tui/app.rs:240-302 | moving down and moving up with wrap-around stay inside the section and undo each other |
| ConfigMenu.SectionScrollShowsHeader | src/tui/app/config_menu.rs:83-89 | scrolling to a section caps the offset at 25 and keeps its header within the first six rows, on the first row for the first three sections |
| ConfigMenu.SaturatingSub | src/tui/app/config_menu.rs:126-129 | `saturating_sub` is the difference when it is non-negative and 0 otherwise |
| ConfigMenu.MenuState.constructor | src/tui/app.rs:189-202 | the default state focuses the AI section with every item, the focus and the scroll at 0 and the default sources |
| ConfigMenu.MenuState.Load | src/tui/app/config_menu.rs:17-25 | opening loads the configuration so that converting back gives it, or the default state when none can be read |
| ConfigMenu.MenuState.ToConfig | src/tui/app.rs:226-237 | the configuration built from the menu has the highlighted provider, theme, scan-or-hook mode and the toggled sources |
| ConfigMenu.MenuState.NextItem | src/tui/app.rs:240-260 | only the focused section's item moves, one down with wrap-around, and it stays in range |
| ConfigMenu.MenuState.PrevItem | src/tui/app.rs:262-302 | only the focused section's item moves, one up with wrap-around, and it stays in range |
| ConfigMenu.MenuState.ToggleCurrentSource | src/tui/app.rs:304-312 | on the source section with a focused source in the list that source flips; otherwise nothing changes |
| ConfigMenu.MenuState.ScrollUp | src/tui/app.rs:314-317 | scrolling up stops at 0 |
| ConfigMenu.MenuState.ScrollDown | src/tui/app.rs:319-323 | scrolling down moves one line only while below the maximum and never passes it |
| ConfigMenu.MenuState.FocusSection | src/tui/app/config_menu.rs:83-89 | focusing a section sets the scroll to its start line capped at 25 and leaves items and sources alone |
| ConfigMenu.ConfigMenuApp.constructor | src/tui/app/config_menu.rs:11-24 | the menu starts hidden with the given theme and AI availability |
| ConfigMenu.ConfigMenuApp.OpenConfigMenu | src/tui/app/config_menu.rs:17-25 | the menu shows, freshly loaded from the configuration or reset to the default |
| ConfigMenu.ConfigMenuApp.CloseConfigMenu | src/tui/app/config_menu.rs:28-38 | closing hides the menu, reverts theme and AI availability to the file's when it can be read, and refreshes the Discover source filters |
| ConfigMenu.ConfigMenuApp.SaveConfigMenu | src/tui/app/config_menu.rs:41-60 | saving applies the menu's theme and provider, reports a failed or successful write, hides the menu and refreshes the source filters |
| ConfigMenu.ConfigMenuApp.NextSection | src/tui/app/config_menu.rs:72-75 | the next section, cyclically, gets focus and is scrolled to |
| ConfigMenu.ConfigMenuApp.PrevSection | src/tui/app/config_menu.rs:77-80 | the previous section, cyclically, gets focus and is scrolled to |
| ConfigMenu.ConfigMenuApp.ToggleSource | src/tui/app/config_menu.rs:101-114 | a source flips only on the source section, in range and for a package manager that is present; otherwise nothing changes |
| ConfigMenu.ConfigMenuApp.ScrollDown | src/tui/app/config_menu.rs:126-129 | scrolling down never raises the offset above total minus visible lines |
| ConfigMenu.ConfigMenuApp.Select | src/tui/app/config_menu.rs:141-162 | Enter on the buttons saves or cancels and hides the menu; on sources it toggles without the availability check; on a radio section it moves to the next section without scrolling |
| ConfigMenu.LoadRoundTrip | src/tui/app.rs:206-237 | provider, theme and usage mode survive the trip from configuration to menu indices and back |
| ConfigMenu.ItemMovesStayInRange | src/tui/app.rs:240-302 | item moves keep every section's item in range, and a move down followed by a move up restores the cursor |
| Events.RoutePrecedence | src/tui/event.rs:25-75 | a key reaches the first layer present, in the order pending confirmation, help, configuration menu, details popup, input mode; under a pending action only y/Y confirm and only n/N/Esc cancel |
| Events.PlainPageDownIgnoredAsWritten | src/tui/event.rs:197-206 | with the Ctrl guard applying to both alternatives of each arm, plain PageDown and PageUp do nothing; the intended table pages on them |
| Events.AsWrittenDiffersOnlyOnPaging | src/tui/event.rs:160-291 | the table as written and the intended one differ exactly on plain PageDown and PageUp, and both page on Ctrl-d and Ctrl-u |
| Events.QuitKeys | src/tui/event.rs:163-164 | q quits with or without Ctrl, Ctrl-c quits, and a plain c opens the configuration menu (the later arm at line 274) |
| Events.ControlKeys | src/tui/event.rs:202-286 | plain u requests an update while Ctrl-u pages up; z and y undo and redo only with Ctrl |
| Events.TabDependentKeys | src/tui/event.rs:247-288 | Ctrl-a selects all on every tab; plain a tracks a bundle's tools only on the Bundles tab; r checks for updates on the Updates tab and reloads the list elsewhere |
| Events.DigitsGoToTabs | src/tui/event.rs:211-215 | the digits 1 to 5 switch to the five tabs in their order |
| Events.ActionStatus | src/tui/event.rs:481-537 | the status of a confirmed install, uninstall or update starts with its verb and names the single tool, or counts several |
| Events.MouseGating | src/tui/event.rs:326-341 | the configuration menu takes every mouse event while it shows; the list hears the mouse exactly when no overlay, popup or confirmation shows and the mode is normal |
| Events.TabStarts | src/tui/app.rs:1892-1920 | the tab titles start at columns 0, 12, 24, 34 and 44, each title padded by one space on either side and followed by a one-column divider |
| Events.TabUnderColumn | src/tui/app.rs:1892-1920 | a click picks a tab exactly when it falls within that tab's padded title; dividers and the space past the last tab pick none |
| Events.LineTargetSpec | src/tui/event.rs:430-476 | content lines 1-5 are the AI providers, 8-14 the themes, the sources and usage modes below (one line lower with the custom-theme hint), every line from the buttons down the buttons; each hit item lies inside its section |
| Events.Dashboard.constructor | src/tui/app.rs:905-908 | no overlay shows, the dashboard runs, and no tab bar or menu popup was drawn yet |
| Events.Dashboard.ExecuteAction | src/tui/event.rs:481-541 | a confirmed install, uninstall or update sets the status `ActionStatus` and clears the selection; the list is reloaded in every case; the tab, mode and pending action are untouched |
| Events.Dashboard.HandlePendingKey | src/tui/event.rs:27-41 | y/Y takes the pending action and executes it; n/N/Esc drops it and changes nothing else; any other key changes nothing |
| Events.Dashboard.HandleJumpMode | src/tui/event.rs:77-83 | every key returns to normal mode; an ASCII letter first jumps to the first tool starting with it, and the tool list itself is not changed |
| Events.Dashboard.HandleSearchMode | src/tui/event.rs:294-305 | Esc and Enter leave search mode, Backspace drops the last character, a character is appended, the list is refiltered after each edit, and other keys change nothing |
| Events.Dashboard.HandleCommandMode | src/tui/event.rs:307-324 | Enter hands back the typed line; Esc, or Backspace on an empty line, leaves command mode with the line cleared; Tab completes; Up and Down walk the history; a character is appended |
| Events.Dashboard.Preview | src/tui/event.rs:98-108 | after moving in the theme section the highlighted theme is shown at once; in the AI section the AI indicator is on exactly when a provider other than None is highlighted |
| Events.Dashboard.HandleConfigMenuKey | src/tui/event.rs:85-158 | Esc closes the menu; Tab and Shift-Tab change section; j/k and the arrows move inside the section with the live preview; h/l focus Save/Cancel only on the buttons; space toggles a source or activates a button; Enter selects; s saves |
| Events.Dashboard.HandleKeyEvent | src/tui/event.rs:25-75 | the route taken is `RouteKey`; the status line is cleared only when the key reaches the input mode; swallowed keys change nothing; in normal mode the command of the intended key table is handed back (see Findings), in command mode the submitted line |
| Events.Dashboard.PageDown | src/tui/event.rs:197-201 | ten steps down, so the cursor moves ten places and stops at the last tool |
| Events.Dashboard.PageUp | src/tui/event.rs:202-206 | ten steps up, so the cursor moves ten places and stops at the top |
| Events.Dashboard.ClickTab | src/tui/app.rs:1892-1920 | without a drawn tab bar nothing changes; otherwise the tab under the click, if any, becomes the current tab |
| Events.Dashboard.ClickMenuItem | src/tui/event.rs:430-476 | a click on a menu line focuses that line's section and picks its item: the theme is previewed, a source is toggled when it is available, and the buttons act as Enter |
| Events.Dashboard.HandleConfigMenuMouse | src/tui/event.rs:390-479 | before the popup is drawn nothing happens; the wheel scrolls the content; a left click inside the borders hits `LineTarget` of the clicked line, offset by the capped scroll |
| Events.Dashboard.HandleMouseEvent | src/tui/event.rs:326-388 | the route is `RouteMouse`; ignored events change nothing; the wheel moves the cursor (the bundle cursor on the Bundles tab); a left click picks a tab or a row; a right click on no row changes nothing |
| Readme.MarkdownLinkAt | src/tui/app/readme.rs:185-192 | a `[text](url)` match at a position: non-empty text without `]`, non-empty url without `)`, and the matched slice is exactly `[` text `](` url `)` |
| Readme.MarkdownLinks | src/tui/app/readme.rs:185-192 | the markdown links found left to right all have non-empty text and a non-empty url free of `)` |
| Readme.BareUrlAt | src/tui/app/readme.rs:194-196 | a bare URL match starts with `http://` or `https://`, has at least one character after the scheme and runs as far as URL characters go |
| Readme.AddBareSpec | src/tui/app/readme.rs:197-206 | adding bare URLs keeps the existing links as a prefix, makes every bare URL present, and appends only URLs not yet present, each once, labelled with itself |
| Readme.ExtractLinksSpec | src/tui/app/readme.rs:181-209 | the extracted links are the markdown links in order followed by the bare URLs not already present, each labelled with itself and none repeated; every link has a non-empty URL |
| Readme.RepoPath | src/tui/app/readme.rs:264-269 | the repository path is a prefix of the URL with the GitHub prefix removed and never ends in `.git` |
| Readme.FindReadmeName | src/tui/app/readme.rs:310-328 | a README name is returned only if it is a listed file whose lowercase form is one of the five README names; none is returned exactly when no listed file matches |
| Readme.FindReadmeNameIsFirst | src/tui/app/readme.rs:318-326 | the returned file is the first matching one in listing order |
| Readme.SaturatingAdd16 | src/tui/app/readme.rs:94-98 | `u16::saturating_add`: the sum when it fits in 16 bits, otherwise 65535 |
| Readme.SaturatingSub16 | src/tui/app/readme.rs:87-91 | `u16::saturating_sub`: the difference when it is not negative, otherwise 0 |
| Readme.GitHubUrl | src/tui/app/readme.rs:17-28 | a URL on github.com is used as it is; a URL on neither GitHub, crates.io nor npm gives no repository |
| Readme.ReadmeViewer.constructor | src/tui/app/readme.rs:73-75 | a new viewer shows no popup and has posted no notices |
| Readme.ReadmeViewer.OpenReadme | src/tui/app/readme.rs:15-70 | no URL: a warning and nothing else; a GitHub repository and a fetched README: the popup shows the content, not loading, scrolled to the top, with the extracted links and the picker closed; a failed fetch: no popup and an error; no GitHub repository: the URL goes to the browser with an info notice |
| Readme.ReadmeViewer.CloseReadme | src/tui/app/readme.rs:73-75 | the popup is gone and no notice is posted |
| Readme.ReadmeViewer.ScrollUp | src/tui/app/readme.rs:87-91 | with a popup only its scroll offset changes, to the saturating difference; without one nothing changes |
| Readme.ReadmeViewer.ScrollDown | src/tui/app/readme.rs:94-98 | with a popup only its scroll offset changes, to the saturating sum; without one nothing changes |
| Readme.ReadmeViewer.ToggleLinks | src/tui/app/readme.rs:105-114 | with links the picker flips and the first link is highlighted; with none an info notice is posted and the popup is unchanged; the highlighted link always exists while the picker shows |
| Readme.ReadmeViewer.SelectNextLink | src/tui/app/readme.rs:117-124 | while the picker shows the highlight moves one link down, stopping at the last; otherwise nothing changes |
| Readme.ReadmeViewer.SelectPrevLink | src/tui/app/readme.rs:127-134 | while the picker shows and the highlight is not on the first link it moves one up; otherwise nothing changes |
| Readme.ReadmeViewer.OpenSelectedLink | src/tui/app/readme.rs:137-150 | while the picker shows, the highlighted link's URL is returned for the browser and announced; in every case the picker is closed afterwards and the rest of the popup is kept |
| UiHelpers.Utf8 | src/tui/ui/helpers.rs:27 | a character's UTF-8 encoding, as `bytes()` yields it, is one to four bytes, each below 256 |
| UiHelpers.LabelColor | src/tui/ui/helpers.rs:17-29 | a label's colour is always one of the seven palette entries |
| UiHelpers.ByteSumConcat | src/tui/ui/helpers.rs:27 | the byte sum of two joined labels is the sum of their byte sums |
| UiHelpers.LabelColorIgnoresOrder | src/tui/ui/helpers.rs:27-28 | the colour depends only on the bytes, not their order: `ab` and `ba` get the same colour |
| UiHelpers.HealthColor | src/tui/ui/helpers.rs:165-177 | never used is red whatever the date; used with no timestamp is green; otherwise green under 7 days, yellow under 30, red after |
| UiHelpers.HealthWorsensWithAge | src/tui/ui/helpers.rs:165-177 | for the same use count, a longer time since the last use never gives a healthier colour |
| UiHelpers.HighlightMatches | src/tui/ui/helpers.rs:82-126 | with an empty or non-matching query, one plain span holding the name; otherwise spans that spell the name, each character highlighted exactly when its position is a match position, with non-empty spans that alternate in colour |
| UiHelpers.SplitRuns | src/tui/ui/helpers.rs:93-122 | the loop yields spans spelling the name, with exactly the given positions highlighted, every span non-empty and neighbouring spans in different colours |
| UiHelpers.RunsStep | src/tui/ui/helpers.rs:98-114 | one character step of the loop keeps the closed spans covering the text so far and the open run in one colour, in each of its three cases |
| UiHelpers.CloseRun | src/tui/ui/helpers.rs:101-110 | closing a non-empty open run extends the spans to cover the text so far, with the right marks and alternation kept |
| Parsers.WordsOfJoin | src/commands/ai/migrate.rs:319-321 | a command built by joining whitespace-free words with single spaces splits on whitespace back into those words, so the allow-list sees the tokens the command was made of |
| Parsers.ParseInstallCommandAccepts | src/commands/ai/discover.rs:466-570 | a command is accepted exactly when its whitespace-separated tokens are one of the ten listed shapes followed by one package name that `validate_package_name` accepts |
| Parsers.ParseInstallCommandTokens | src/commands/ai/discover.rs:474-566 | an accepted command runs its first token as the program with the remaining tokens as arguments, the last argument is the validated package, and the display text is the command verbatim |
| Parsers.BlankCommandRefused | src/commands/ai/discover.rs:467-470 | an empty or all-whitespace command is refused |
| Parsers.UnlistedShapesRefused | src/commands/ai/discover.rs:567-568 | shapes off the list are refused: an extra option such as `cargo install --git x`, `sudo apt install x` without `-y`, and a second package |
| Parsers.TrimStartMatches | src/ai/helpers.rs:34 | `trim_start_matches` leaves a suffix of its input that no longer starts with the pattern |
| Parsers.OwnerRepo | src/ai/helpers.rs:23-28 | owner and repository are found exactly when the path holds a `/` |
| Parsers.OwnerRepoIsSplit | src/ai/helpers.rs:23-28 | they are the first two pieces of `split('/')`, found exactly when there are at least two pieces, the repository without trailing `.git` |
| Parsers.ParseGitHubUrl | src/ai/helpers.rs:11-59 | a refused URL gives the error "Invalid GitHub URL format: " followed by the trimmed input |
| Parsers.WebForm | src/ai/helpers.rs:44-56 | `https://github.com/<path>` and `http://github.com/<path>` succeed exactly when the path has two `/`-separated parts, and then give those parts |
| Parsers.SshForm | src/ai/helpers.rs:32-42 | `git@github.com:<path>` succeeds exactly when the path, with every leading repetition of the prefix removed, has two parts, and then gives those parts |
| Parsers.ShorthandForm | src/ai/helpers.rs:21-30 | a text with a `/`, without `:` and without `github.com` is read as the shorthand `owner/repo` |
| Parsers.GitHubUrlForms | src/ai/helpers.rs:12-17 | `owner/repo` behind any of the three prefixes gives the owner and the repository in their own case, a trailing `.git` removed |
| Parsers.WebUrlExtraSegments | src/ai/helpers.rs:15 | path segments after the repository are ignored |
| Parsers.ParseGitHubUrlTrims | src/ai/helpers.rs:19 | surrounding whitespace does not change the result |
| Parsers.NoSlashRefused | src/ai/helpers.rs:22-58 | an input whose trimmed text has no `/` is refused by every form |
| Parsers.OtherHostRefused | src/ai/helpers.rs:22-58 | a URL of another host such as `https://gitlab.com/...` is refused |
| Parsers.ExtractBetweenSpec | src/ai/parsers.rs:16-45 | the cut succeeds exactly when the opening and closing characters both occur and the first opening one comes before the last closing one; it is then the text from that opening through that closing character; each missing character gives its own error |
| Parsers.ExtractBetweenIdempotent | src/ai/parsers.rs:16-28 | cutting an already cut answer gives it back unchanged |
| Parsers.ParseExtractResponse | src/ai/parsers.rs:94-109 | an extracted tool always has a name and a description; a missing JSON object, malformed JSON, a missing name and a missing description each give their own error, in that order of checking |
| Parsers.ParsePolicy | src/commands/policy.rs:233-236 | an unknown policy gives the error naming the input and the valid options |
| Parsers.ParsePolicySpec | src/commands/policy.rs:228-238 | a policy is accepted exactly when its lower-cased text is latest, stable, pinned or pin, each read as its policy, and only the lower-cased text matters |
| Parsers.PolicyNameRoundTrip | src/commands/policy.rs:229-232 | every policy's own name parses back to that policy, in any letter case |
| Parsers.TargetPackageNames | src/commands/ai/migrate.rs:232-247 | on cargo, fd, dust, delta and tldr (and their cargo names) map to fd-find, du-dust, git-delta and tealdeer; every other name, and every other target, keeps the tool's name |
| Parsers.TargetPackageNameIdempotent | src/commands/ai/migrate.rs:232-247 | a name already in the target's form maps to itself |
| Parsers.MigrationInstall | src/commands/ai/migrate.rs:318-323 | the install command is the target's install prefix followed by the package names joined by spaces |
| Parsers.MigrationUninstall | src/commands/ai/migrate.rs:326-334 | the uninstall command is the source's uninstall prefix followed by the tool names joined by spaces |
| Parsers.MigrationInstallJoin | src/commands/ai/migrate.rs:319-321 | a one-package cargo, pip or npm install command is that source's allow-list shape and the package joined by single spaces |
| Parsers.MigrationInstallAccepted | src/commands/ai/migrate.rs:319-321 | a one-package cargo, pip or npm install command printed by a migration passes the install allow-list of src/commands/ai/discover.rs, as that source's program with the package as last argument |
| Parsers.MigrationCommentsFallback | src/commands/ai/migrate.rs:322-333 | targets and sources without a known command get a `# Install from` / `# Uninstall from` comment instead |

## Left out

- Fixed-width integers: `i32` scores, `usize` indices and byte sums, and `u16` offsets are unbounded here. The exceptions are the README popup's `u16` saturating scroll and the config menu's scroll bound, which are modelled. The `u16` overflow of `area_x + width` in mouse hit tests is not.
- Letter case and whitespace are ASCII only. Unicode `to_lowercase`, `split_whitespace` and the regex class `\s` are not modelled beyond ASCII.
- `HashMap` and `HashSet` iteration order is not modelled. Where it decides an output, such as the grouping order of `deduplicate_results` or the order of the enabled source filters, the order is an input sequence.
- The `types` module of the later App is not part of this model. The `DiscoverSortBy` cycle order (Stars, Name, Source), the `TuiTheme` index order, the `AiProvider::all()` order and the default of `TuiTheme::from_index` are assumed from their uses.
- `semver::Version::parse` is modelled only on plain `N.N.N` with canonical numbers. Pre-release and build metadata and their ordering are not, because the crate is not part of this model.
- The regexes of `extract_markdown_links` are modelled by hand-written scanners over the README text.
- The database, HTTP registries, `gh`, the AI provider, clocks and threads are not modelled. Their answers are method parameters, including the AI poll's finished flag and the elapsed-time text.
- Background-operation scheduling is a `backgroundOp` field. The event loop that runs it is not modelled.
- Registry lookups, the README fetch, the repository resolve and the branch lookup of the README popup are parameters.
- `validate_package_name`, `get_install_command_versioned`, `HoardConfig::policy_for_source`, `enabled_sources` and `SourcesConfig::all_sources` are parameters, because their code is not part of this model.
- serde JSON deserialisation in `parse_extract_response` is a parameter.
- Whether the custom theme file exists and whether a package manager is available are parameters.
- `notify` in the config menu is modelled as a list of notices. Printing in `print_migration_commands`, opening URLs, icons, emoji labels, colours as RGB values and all rendering are left out.
- The `CheckUpdates` background operation is not modelled. `BackgroundOp` in src/tui/app.rs has only `CheckUpdates`, while the Discover tab schedules a search step; the model has one `DiscoverSearch` operation for that step.
- `discover_source_to_str` has no `Go` arm; the model maps `Go` to `"unknown"`, as it does for GitHub and AI.
- ConfigMenu.MenuState.ToConfig: returns only the four fields the menu edits (provider, theme, usage mode, sources). The other fields of `HoardConfig::default()` are left out.
- `execute_command` (the `:` command interpreter, including `set_sort_by_name`) is not modelled. The palette's history and suggestions are.
- Normal-mode keys are mapped to a command value, which `HandleKeyEvent` returns. Dispatching that value to the App is not modelled.
- In `execute_action`, the Discover variants only refresh the lists; installing through a package manager is a process call.
- ToolList.ToolListApp.RefreshTools: does not reload the bundle list on the Bundles tab (src/tui/app.rs:997-1001), because bundles come from the database; the model keeps the bundle list as it is.
- Sorting.Sort: stability (equal elements keep their input order) is not stated as a lemma. It is what the insertion order gives, and the proved properties are permutation and order only.
- Floating-point and time formatting (`sparkline`, `format_stars`, relative times and the date arithmetic of `health_indicator`) are left out; `health_indicator` takes the number of days since last use.
- Dedup.Deduplicated: sorts with the intended stars order, starred results first; src/discover.rs:1229-1235 puts unstarred results first. Dedup.DeduplicatedAsWritten is the code's order, with the same entries (DedupProperties.DeduplicatedAsWrittenSpec).
- Dedup.DeduplicateResults: returns `Deduplicated`, so its final order is the intended one, not the code's.
- DedupProperties.DedupBySpec: the order it proves is the intended one, not the code's unstarred-first order.
- DedupProperties.DeduplicatedSpec: the order it proves is the intended one, not the code's unstarred-first order.
- DiscoverSession.FinalResultsSpec: the order it proves is the intended one; the code's finished list has the same entries with unstarred ones first (DiscoverSession.FinalResultsAsWrittenSpec).
- DiscoverSession.DiscoverTab.ExecuteDiscoverSearchStep: a finishing step yields `FinalResults`, in the intended order rather than the code's.
- DiscoverSession.DiscoverTab.RegistrySearchStep: a finishing step yields `FinalResults`, in the intended order rather than the code's.
- DiscoverSession.DiscoverTab.ContinueSearch: finishing yields `FinalResults`, in the intended order rather than the code's.
- DiscoverSession.DiscoverTab.HandleAiSearchStep: a finishing poll yields `FinalResults`, in the intended order rather than the code's.
- DiscoverSession.DiscoverTab.FinalizeDiscoverSearch: the results become `FinalResults`, in the intended order; the code's order is `FinalResultsAsWritten`.
- DiscoverSession.DiscoverTab.ExecuteBackgroundStep: the steps it runs finish through `FinalResults`, in the intended order rather than the code's.
- DiscoverSession.SortedResultsSpec: the Stars order is the intended one; src/tui/app/discover.rs:63-69 puts unstarred results first (DiscoverSession.StarsSortAsWrittenSpec).
- DiscoverSession.DiscoverTab.SortDiscoverResults: sorts Stars with the intended comparator, not the as-written one of src/tui/app/discover.rs:63-69.
- DiscoverSession.DiscoverTab.CycleDiscoverSort: re-sorts Stars with the intended comparator, not the as-written one.
- Events.Dashboard.HandleKeyEvent: returns the command of the intended key table, `NormalCommandFor`; as written (`NormalCommandAsWritten`), plain PageDown and PageUp do nothing.

## Findings

| source | as written | input that shows it | evidently intended | confidence | as-written member | corrected member |
|---|---|---|---|---|---|---|
| src/discover.rs:1229-1234 | the stars comparator matches on `(b.stars, a.stars)` but returns `Less` for `(Some(_), None)`, which puts `a`, the result without stars, first | a result with stars followed by one without: the sort puts the unstarred one first | results with stars before results without, as the comment "Sort by stars desc" and the `Some`/`Some` arm say; proved of the corrected order by ResultOrder.ByStarsThenNameMeaning and ResultOrder.SortByStarsThenName | not executed | ResultOrder.AsWrittenPutsUnstarredFirst | ResultOrder.ByStarsThenName |
| src/tui/app/discover.rs:63-69 | the Stars sort of the Discover tab uses the same comparator: `match (b.stars, a.stars)` with `(Some(_), None) => Less` puts the result without stars first | a starred result followed by an unstarred one under the Stars sort: the unstarred one comes first | results with stars first, most stars first, as "sort by stars" means; proved of the corrected sort by DiscoverSession.SortedResultsSpec and ResultOrder.ByStarsThenNameMeaning | not executed | DiscoverSession.StarsSortAsWrittenDiffers | DiscoverSession.Comparator |
| src/tui/event.rs:197-206 | the match guard `if key.modifiers.contains(CONTROL)` applies to both alternatives `PageDown \| Char('d')`, so plain PageDown and PageUp fall through to the catch-all | PageDown or PageUp pressed without Ctrl in normal mode: nothing happens | PageDown and PageUp page by ten with or without Ctrl; Ctrl-d and Ctrl-u page too; proved of the corrected table by Events.PlainPageDownIgnoredAsWritten and Events.AsWrittenDiffersOnlyOnPaging | not executed | Events.NormalCommandAsWritten | Events.NormalCommandFor |
