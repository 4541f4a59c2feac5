# sshrack in Dafny

A model of the interactive half of sshrack, the SSH and SFTP host manager, with
proofs of the properties its code relies on. The screens are state machines;
keys, worker messages and answers of popups are their steps, and the main
results hold for every run and every interleaving.

Check everything with `dafny verify dfyconfig.toml`.

## Files

- `Prelude`, `Keys`, `Config`: shared vocabulary, key events, the configuration.
- `StableSort`, `Ranking`, `DirSource`: the stable in-place sort, the fuzzy
  ranking of rows, directory listings and path resolution.
- `Browser`, `FilePicker`, `Panes`: the directory browser with its two-phase
  switch and cursor memory, the key-file picker, the two transfer panes.
  `BrowserRules`, `PickerRules`, `RowMoves`: what each of their keys does.
- `Fit`, `Highlight`, `Rows`: scrolling window, truncation by display cells,
  column widths, highlight spans over UTF-8 offsets, whole list rows.
- `Panels`, `App`, `AppSafety`, `Application`: the Hosts and Credentials panels,
  key routing and loop outcomes as functions, what every run keeps, and the
  object with its in-place methods. `PanelRules`: what the lists show.
  `AppActions`: which record a delete and a connection are about. `AppKeys`,
  `AppEntry`: what every other key does, and where the program starts.
- `Ledger`, `Transfer`, `TransferSafety`: the transfer queue and its manager, the
  loop and the SFTP worker with their channels, and the safety of all runs.
  `LedgerByTask`: every edit and key of the manager, task by task.
  `TransferRules`: every step of the protocol, from its own inputs.
- `Search`, `SearchSafety`, `Pathfind`, `FindCursor`: cross-directory find with
  debounce, generations and workers, and the walk a worker performs.
  `FindResults`: which entries a search finds. `SearchRules`: every step.
- `Persist`, `Saving`, `KeyringSlots`: saving and deleting hosts and credentials,
  sealing of secrets; the same as methods that replace the configuration; which
  keyring entries still have an owner. `SavedRecords`: what an accepted save
  stores, and when it is accepted.

Each class method is proved equal to a function on the value of the object; the
lemmas are about those functions.

## Where the code differs from its own comments

- `begin_switch` overwrites the origin of a switch under way
  (`src/tui/browser_core.rs:181`). The two-phase switch equals the atomic one
  only when none is pending, and the remote pane can end in a directory over the
  entries of another: `Browser.TwoPhaseRefinesAtomic`,
  `Panes.RemoteStepKeepsInv`, `Panes.OverlappingNavigationsSplitPane`.
- The overwrite answer is documented as valid for a batch but is never reset
  while the screen is open, and a No also skips jobs without a conflict. A job
  gets what was promised for its batch exactly when its batch found no answer
  set, or a Yes it has no use for: `TransferSafety.BatchAnswerDecides`. Runs in
  which a later batch does not: `TransferSafety.YesReachesTheNextBatch`,
  `TransferSafety.NoReachesTheNextBatch`. See also
  `TransferSafety.AnswerIsForever`, `TransferSafety.NoMeansNothingMoves`.
- A late cancel does not hit the next job (`src/tui/run_loop.rs:778`): it is in
  the queue before it and is dropped: `TransferSafety.CancelHitsItsJob`.
- A failed job stops the queue until a key enqueues, works on the queue or
  closes the screen: `TransferSafety.FailureStalls`.
- `search_request` returns early on the empty query and leaves the pending
  launch armed; a launch withdrawn by a key on the other pane leaves a spinner
  running, unless a search of that pane is still in flight; the recorded side
  outlives its search; the end of a superseded search stops the spinner of the
  pending one:
  `SearchSafety.LeavingFindMode`, `SearchSafety.StepKeepsHonest`,
  `SearchSafety.SupersededEndStopsSpinner`, and as runs
  `SearchSafety.SecondQueryStrandsFirst`, `SearchSafety.EscStrandsWaitingPane`,
  `SearchSafety.EndedSearchStrandsPane`, `SearchSafety.SupersededEndRun`.
- Opening a transfer goes on when the first local listing fails
  (`src/tui/transfer/open.rs:152`), and downloads then go into a directory that
  was never listed: `Panes.DownloadLandsInListedDirectory`,
  `Panes.DownloadIntoUnlistedDirectory`. The remote pane is alike:
  `Panes.FirstAnswer`.
- Tab-completion narrows the list without clamping the cursor. The cursor stays
  on a row exactly when it is on the first or its index is below the number of
  matching entries: `Browser.StepKeepsCursor`, `Browser.CompletionCanLoseCursor`.
- A failed store switch closes the picker: `AppSafety.FailedSwitchClosesPicker`.
- A migration that fails half-way is said to leave the configuration untouched
  (`crates/sshrack-core/src/secret/vault/mod.rs:236`), but the bodies migrated so
  far stay changed in memory; the model lets a switch break off with any of them
  moved (`App.Unswitched`).
- A host save seals before it checks the new name; a refused save has changed
  the keyring exactly when the form held a new secret for it:
  `Persist.RefusedSaveKeepsKeyring`, `Persist.RefusedRenameReplacesPassword`. A
  delete forgets the keyring entries before it writes the file:
  `KeyringSlots.RefusedDeleteKeepsKeyring`. An edit is said to clean up the old
  entry (`src/tui/persist.rs:71`) and forgets none:
  `KeyringSlots.StepKeepsTidy`, `KeyringSlots.EditLeavesPassword`. A credential
  edit with a blank password drops the keyring marker:
  `Persist.CredBlankPasswordIsKept`.
- Match indices are said to be character indices (`src/tui/panel.rs:123`), but
  the matcher sees bytes: `Highlight.HighlightsTheMatch`,
  `Highlight.WrongCharacterIsMarked`.
- `column_widths` can underflow: `Fit.ColumnWidthsDefined`. In a build with
  overflow checks that is a panic, without them a huge width.

## Model

| member | source | states |
|---|---|---|
| Browser.TwoPhaseRefinesAtomic | src/tui/browser_core.rs:178-231 | begin, set cwd, finish leaves the same state in every field as the atomic switch, if and only if no restore was pending before |
| Browser.FailedSwitchIsUndone | src/tui/browser_core.rs:178-258 | a failed switch restores directory and entries, shows the whole listing, keeps the cursor on the path it was on even if a filter was active, and a second revert does nothing |
| Browser.RunRemembersChild | src/tui/browser_core.rs:178-258 | the remembered child of a directory survives every run of switches, failures, moves and queries that stays at or below that child |
| Browser.SwitchLandsOnRemembered | src/tui/browser_core.rs:312-326 | a switch puts the cursor on the remembered path when the new listing contains it |
| Browser.ReturningLandsOnChild | src/tui/browser_core.rs:178-258 | after entering a child and any such run below it, switching back to the parent leaves the cursor on that child |
| Browser.StepKeepsCursor | src/tui/browser_core.rs:111-307 | every operation keeps the ranked list distinct and valid and the cursor on a row, except Tab-completion (and the query reset of a jump), which does if and only if the cursor is on the first row or its index is below the number of entries whose names match the new query |
| Browser.JumpKeepsCursor | src/tui/transfer/search_dispatch.rs:259-288 | the query reset of a jump to a found directory always keeps the cursor on a row, though it does not clamp |
| Browser.RankedAreMatching | src/tui/browser_core.rs:111-115 | the ranked list has one row for each entry whose name matches the query |
| Browser.RunKeepsCursor | src/tui/browser_core.rs:111-307 | hence over every run without Tab-completion |
| Browser.CompletionCanLoseCursor | src/tui/transfer/search_dispatch.rs:184-196 | a listing and a run of four steps, Tab last, that leaves the cursor on no row |
| Browser.CursorIsVisible | src/tui/browser_core.rs:159-161 | in every state reached without Tab-completion a viewport of at least one row shows the cursor |
| Browser.UnfilteredShowsPath | src/tui/browser_core.rs:111-115 | under the empty query every entry has a row, so a path in the listing is found |
| Browser.BrowserCore.constructor | src/tui/browser_core.rs:94-106 | a fresh browser shows nothing, remembers nothing and has no switch under way |
| Browser.BrowserCore.DoRecompute | src/tui/browser_core.rs:111-115 | the ranked list becomes the ranking of the entries under the query, nothing else changes |
| Browser.BrowserCore.DoMoveCursor | src/tui/browser_core.rs:127-133 | the cursor moves cyclically over the ranked rows |
| Browser.BrowserCore.DoToggleMark | src/tui/browser_core.rs:165-172 | toggles the mark of the entry under the cursor and reports its path; without one nothing changes |
| Browser.BrowserCore.DoBeginSwitch | src/tui/browser_core.rs:178-189 | in place, the first half of the switch the lemmas above are about |
| Browser.BrowserCore.DoFinishSwitch | src/tui/browser_core.rs:196-210 | in place, the second half |
| Browser.BrowserCore.DoCommitSwitch | src/tui/browser_core.rs:216-231 | in place, the atomic switch |
| Browser.BrowserCore.DoRevertSwitch | src/tui/browser_core.rs:243-258 | in place, the roll-back |
| Browser.BrowserCore.DoNavKey | src/tui/browser_core.rs:265-307 | the reported decision and the new state for every key |
| BrowserRules.ListShowsMatches | src/tui/browser_core.rs:111-115 | the list holds each entry whose name matches exactly once, by falling score, then name, then position in the listing |
| BrowserRules.ArrowsMoveOneRow | src/tui/browser_core.rs:265-307 | the arrows and Ctrl-N, Ctrl-P move the cursor one row down or up, round the ends, and nothing else |
| BrowserRules.TypingFilters | src/tui/browser_core.rs:265-307 | a letter lengthens the query and goes to the first row, Backspace shortens it and keeps the row, and both show the list of the new query |
| BrowserRules.OtherKeysAreLeft | src/tui/browser_core.rs:265-307 | Left asks for the parent and changes nothing; every other key is not handled |
| BrowserRules.MarkTogglesCursorEntry | src/tui/browser_core.rs:165-172 | the mark of exactly the entry under the cursor is flipped, and its path reported |
| BrowserRules.CursorEntryIsItsRow | src/tui/browser_core.rs:137-150 | the entry under the cursor is the one its row stands for |
| BrowserRules.SwitchShowsListing | src/tui/browser_core.rs:216-231 | a switch shows the whole new listing, without query or marks |
| BrowserRules.SwitchRemembers | src/tui/browser_core.rs:178-231 | the directory left remembers the entry under the cursor, the parent of the one entered remembers it, every other memory stays |
| BrowserRules.SwitchLandsOnRow | src/tui/browser_core.rs:312-326 | the cursor is put on the row of the remembered entry, or on the first |
| BrowserRules.RefreshTakesEntries | src/tui/browser_core.rs:196-210 | a listing with no switch under way replaces the entries and goes to the first row |
| BrowserRules.RevertShowsOrigin | src/tui/browser_core.rs:243-258 | giving up a switch shows the whole listing of the directory left, unmarked, on the row remembered for it |
| BrowserRules.EscShowsAll | src/tui/transfer/search_dispatch.rs:390-396 | Esc on a query shows everything and keeps the row where it can |
| BrowserRules.TabCompletes | src/tui/transfer/search_dispatch.rs:184-250 | Tab replaces the last segment of the query by the name under the cursor, with a slash behind a directory |
| FilePicker.Picker.DoLoad | src/tui/file_picker.rs:108-120 | a failed listing changes the status alone, a successful one adopts exactly that listing |
| FilePicker.Picker.DoEnsureStarted | src/tui/file_picker.rs:90-102 | starts once, at the first usable candidate directory |
| FilePicker.Picker.DoActivate | src/tui/file_picker.rs:192-221 | Enter on a path-like query resolves it, otherwise on the row |
| FilePicker.Picker.DoOnKey | src/tui/file_picker.rs:127-162 | the new state and outcome of every key |
| FilePicker.LoadKeepsInv | src/tui/file_picker.rs:108-120 | the picker is pristine or shows exactly the listing of its directory, cursor in range |
| FilePicker.OnKeyKeepsInv | src/tui/file_picker.rs:127-221 | every key keeps that |
| FilePicker.RunKeepsInv | src/tui/file_picker.rs:90-221 | and so does every key sequence |
| FilePicker.PickIsAListedFile | src/tui/file_picker.rs:192-221 | a pick is a non-directory row of the current listing or a path that resolves to a file |
| PickerRules.EnterTakesCursorRow | src/tui/file_picker.rs:192-221 | Enter picks the very file under the cursor, by its path, or opens the directory there |
| PickerRules.EnterTakesTypedPath | src/tui/file_picker.rs:192-221 | Enter on a typed path picks the file it names, opens the directory it names, or says that nothing is there |
| PickerRules.SideKeysOpen | src/tui/file_picker.rs:165-190 | Right opens the directory under the cursor and no file, Left the parent of the directory on screen |
| PickerRules.OtherKeys | src/tui/file_picker.rs:127-162 | Esc and Ctrl-C leave, a release does nothing, all other keys go to the browser |
| PickerRules.FirstKeyStarts | src/tui/file_picker.rs:90-120 | the picker starts once, in the first candidate that is a directory, or at the root; a start that cannot be listed is tried again |
| PickerRules.WrittenPathIsRead | crates/sshrack-core/src/dirsource.rs:69-90 | a path written out is read back as it was |
| PickerRules.TypedPathStartsSomewhere | crates/sshrack-core/src/pathutil.rs:40-56 | a typed path starts at the root, at home, or in the directory on screen |
| PickerRules.BlankSegmentsVanish | crates/sshrack-core/src/dirsource.rs:69-90 | doubled slashes and single dots behind the front of a typed path count for nothing |
| PickerRules.LeadingDotIsHere | crates/sshrack-core/src/dirsource.rs:69-90 | a dot at the front of a typed path stands for the directory on screen |
| PickerRules.SourceDecides | crates/sshrack-core/src/dirsource.rs:69-90 | what stands at the path decides: a file, a directory, also behind a link, or nothing |
| Panes.DrainLocalList | src/tui/run_loop.rs:510-548 | the local arm of the drain: a listed switch or a complete roll-back |
| Panes.RefreshLocal | src/tui/run_loop.rs:809-833 | the re-listing after a download keeps the directory |
| Panes.LocalEntriesBelongToCwd | src/tui/run_loop.rs:510-548 | through every run of succeeding and failing navigations and refreshes the local entries are the initial ones or come from a successful listing of exactly the current directory |
| Panes.DownloadLandsInListedDirectory | src/tui/transfer/open.rs:152-168 | a download is written into the directory the local pane names, and that directory was listed with the entries on screen if and only if the first listing or some later one has succeeded |
| Panes.ListedStays | src/tui/run_loop.rs:510-548 | from the first success on, the local pane shows a listing of its directory |
| Panes.DownloadIntoUnlistedDirectory | src/tui/transfer/open.rs:152-168 | a run with a failed first listing in which a download goes into a directory never listed |
| Panes.RemoteStepKeepsInv | src/tui/transfer/screen.rs:305-331 | the pane invariant (entries of the current directory, or a switch whose answer is due and whose undo leads back to them, or the first answer still due) survives exactly the steps that start no second navigation before the first is answered, lose no list command and do not fail the first listing |
| Panes.StepCanSplit | src/tui/browser_core.rs:178-258 | after a step from such a state some answers leave the pane naming a directory whose listing it does not show, if and only if nothing has been listed yet, or the step was outside that guard and not the loss of a command for the directory already shown |
| Panes.FirstAnswer | src/tui/run_loop.rs:707-732 | the state after connecting satisfies the invariant; its first answer shows the home directory, or leaves the pane empty in a directory never listed |
| BrowserRules.LocalGoSwitches | src/tui/run_loop.rs:510-548 | a local navigation is the atomic switch when the directory can be listed and is undone when not; a failed refresh changes nothing |
| BrowserRules.AnswersAreAdopted | src/tui/transfer/screen.rs:305-331 | an answer for the directory on screen is shown, one for another changes nothing, an error leads back |
| BrowserRules.OpeningShowsListing | src/tui/transfer/screen.rs:233-260 | a pane opens on the listing of its directory, on the first row, or empty |
| BrowserRules.RemoteReloadAsks | src/tui/run_loop.rs:834-846 | a remote refresh asks for the directory on screen and changes nothing yet |
| BrowserRules.RemoteGoAsks | src/tui/run_loop.rs:549-572 | a remote navigation names the target at once, keeps the entries, and asks for the listing |
| BrowserRules.DestinationKeepsName | src/tui/transfer/screen.rs:626-680 | a job writes under the name of its source |
| Panes.GuardedRemoteIsConsistent | src/tui/transfer/screen.rs:305-331 | hence over every run within that guard, once all answers are in |
| Panes.OverlappingNavigationsSplitPane | src/tui/browser_core.rs:178-189 | two quick remote navigations of which the second fails leave a directory over foreign entries |
| Panes.SwallowedListStrandsPane | crates/sshrack-core/src/connect/sftp/worker.rs:819-823 | a remote navigation while a transfer runs is dropped by the worker and leaves the pane in a directory never listed |
| StableSort.SortInPlace | src/tui/panel.rs:34-62 | the in-place sort of an array of row indices is the insertion of its elements, stable |
| StableSort.SortByOrdered | src/tui/panel.rs:34-62 | its result is ordered, stable and a permutation |
| StableSort.OrderedUnique | src/tui/panel.rs:34-62 | there is only one such arrangement |
| Ranking.BestFieldScore | src/tui/panel.rs:68-81 | the maximum of the field scores, none when no field matches |
| Ranking.CollectKept | src/tui/panel.rs:34-62 | the filter pass keeps exactly the matching rows, ascending |
| Ranking.RankByFields | src/tui/panel.rs:34-62 | the method returns the specified ranking |
| Ranking.RankIsTheRanking | src/tui/panel.rs:34-62 | that ranking holds exactly the matching rows, each once, by match, score, name and original order, and is the only list that does |
| Ranking.RankValid | src/tui/panel.rs:34-62 | its indices are valid and distinct |
| Ranking.EmptyQueryShowsAll | src/tui/panel.rs:34-62 | the empty query shows every row |
| Ranking.EmptyQueryIsIndifferentMatch | src/tui/panel.rs:34-62 | the empty-query branch is the general branch under a constant matcher, if and only if every row has a field |
| DirSource.BuildEntries | crates/sshrack-core/src/dirsource.rs:183-202 | listing a directory: directories first, then lower-case name, one entry per item |
| DirSource.ListingOrderIsTheOrder | crates/sshrack-core/src/dirsource.rs:183-202 | that order is a stable permutation, and the only one |
| DirSource.EntryIsItsItem | crates/sshrack-core/src/dirsource.rs:169-202 | each entry carries the name of its item with a slash behind a directory and an at sign behind a link, its path, kind and size |
| DirSource.ResolveStart | crates/sshrack-core/src/dirsource.rs:93-108 | the first candidate that names a directory, after expanding a leading ~ |
| Prelude.LexIsFirstDifference | src/tui/panel.rs:34-62 | the order of names and paths is decided at their first difference |
| Ranking.AboveIsBefore | src/tui/panel.rs:34-62 | of two rows the one with the higher best score stands above, then the smaller first field, then the earlier row |
| Panels.RankHosts | src/tui/launcher.rs:74-111 | one ranked row per index of the shared ranking, valid for the host list |
| Panels.RankHostsScores | src/tui/launcher.rs:74-111 | re-attached scores are the true best field scores, the zero default is never used, scores never rise down the list and no match is missing |
| Panels.RankHostsByFrecency | src/tui/launcher.rs:74-111 | without a query all hosts are shown by descending frecency with score 0 |
| PanelRules.HostListShowsMatches | src/tui/launcher.rs:74-125 | the host list holds each host matched by name, user or address exactly once, with the best of the three scores, by falling score, then frecency, then name, then position |
| PanelRules.CredListShowsMatches | src/tui/cred_panel.rs:282-296 | the credential list holds each credential matched by name or user exactly once, by falling score, then name, then position |
| Fit.FocusWindowShowsSelection | src/tui/fit.rs:18-29 | the window lies inside the list, has full length and contains the clamped selection |
| Fit.FocusWindowScrollsSmoothly | src/tui/fit.rs:18-29 | moving the selection by one moves the window by at most one, never backwards |
| Fit.FitLenIsLongest | src/tui/fit.rs:81-102 | the kept prefix is the longest that fits the budget |
| Fit.TruncateCells | src/tui/fit.rs:81-102 | the loop computes the specified truncation |
| Fit.TruncateCellsHead | src/tui/fit.rs:48-74 | head truncation is the mirror image of tail truncation |
| Fit.TruncateIsOptimal | src/tui/fit.rs:48-102 | never wider than allowed; the input itself, or the longest fitting prefix and an ellipsis |
| Fit.TruncateIdempotent | src/tui/fit.rs:48-102 | truncating twice is truncating once |
| Fit.ColumnWidthsDefined | src/tui/fit.rs:118-144 | the split is free of unsigned underflow exactly under this condition on its arguments |
| Fit.ColumnWidthsSplit | src/tui/fit.rs:118-144 | where defined the two columns fit the width, and both needs are met when they fit |
| Fit.ColumnWidthsUnderflows | src/tui/fit.rs:118-144 | arguments on which the subtraction underflows |
| Fit.FocusWindowCentres | src/tui/fit.rs:18-29 | the selection is in the middle of the window wherever the ends of the list allow it |
| Fit.ColumnWidthsContend | src/tui/fit.rs:118-144 | when both columns need more than there is, each gets its floor or its share |
| Highlight.HighlightedSpans | src/tui/panel.rs:88-121 | spans concatenate to the text, cut it on character boundaries only, and mark exactly the matched characters |
| Highlight.SortDedup | src/tui/panel.rs:126-136 | indices become strictly ascending with the same members |
| Highlight.SpansAt | src/tui/panel.rs:88-121 | the same for any index list, unsorted, repeated or out of range |
| Highlight.HighlightsTheMatch | src/tui/panel.rs:123-136 | the matcher answers byte offsets; the matched characters are the ones highlighted if and only if each has ASCII alone before it |
| Highlight.OffsetsAgree | src/tui/panel.rs:123-136 | for every match inside a text exactly when at most its last character is beyond ASCII |
| Highlight.WrongCharacterIsMarked | src/tui/panel.rs:123-136 | a text in which the character after the matched one is highlighted |
| Rows.FormatAddressFits | src/tui/launcher.rs:509-527 | the address never exceeds its column; user and port survive while they fit |
| Rows.FormatAddressCutsHost | src/tui/launcher.rs:509-527 | an address too long loses the end of its host name alone, as long as user and port leave room; otherwise the whole text is cut |
| Rows.PortIsWritten | src/tui/launcher.rs:509-527 | the port is written exactly when it is not 22, and reads back as the number |
| Rows.HostColumnsContend | src/tui/launcher.rs:400-430 | when names and addresses contend, a name has two fifths of the cells or what it needs, the address keeps twelve cells unless the name is down to six |
| Rows.CredColumnsContend | src/tui/cred_panel.rs:220-272 | when names and users contend, a name has half of the cells or what it needs, the user keeps four unless the name is down to six |
| Config.HostUserIsShown | src/tui/launcher.rs:485-497 | the user shown is that of the credential or of the body of the host, and a question mark when there is none |
| Rows.NeedIsReached | src/tui/launcher.rs:400-456 | the columns are as wide as the widest of the hosts needs |
| Rows.CredRowShowsFields | src/tui/cred_panel.rs:322-361 | a credential row shows its name, kind and user, cut to their columns |
| Rows.KindIsNamed | src/tui/cred_panel.rs:322-361 | the kind named is that of the secret the body holds |
| Rows.HostLine | src/tui/launcher.rs:536-564 | the spans of a host row spell the specified text |
| Rows.HostColumnsDefined | src/tui/launcher.rs:400-456 | column widths of the host list are defined exactly under this condition |
| Rows.HostRowsAligned | src/tui/launcher.rs:536-564 | for width at least 10 every host row fits and all addresses start at the same cell |
| Rows.CredRow | src/tui/cred_panel.rs:322-361 | the spans of a credential row spell the specified text |
| Rows.CredColumnsDefined | src/tui/cred_panel.rs:220-272 | column widths of the credential list are defined exactly under this condition |
| Rows.CredRowsFill | src/tui/cred_panel.rs:322-361 | for width at least 20 every credential row fills the width exactly |
| Panels.HostList.constructor | src/tui/launcher.rs:163-171 | a fresh launcher shows the frecency order |
| Panels.HostList.Recompute | src/tui/launcher.rs:176-190 | re-rank and clamp |
| Panels.HostList.MoveSelection | src/tui/launcher.rs:194-205 | cyclic move |
| Panels.HostList.DoSelectById | src/tui/launcher.rs:216-222 | lands on the id or changes nothing |
| Panels.HostList.OnKey | src/tui/launcher.rs:247-325 | in place, the key function that AppActions.EnterConnectsToHostUnderCursor, AppKeys.ArrowsMoveTheCursor and AppKeys.TypingFilters are about |
| Panels.CredList.Recompute | src/tui/cred_panel.rs:76-89 | re-rank and clamp |
| Panels.CredList.OnKey | src/tui/cred_panel.rs:122-158 | new state for every credential panel key |
| Panels.InSyncIsValid | src/tui/launcher.rs:118-140 | a panel in agreement with the configuration holds distinct valid indices and, unless empty, a selected row |
| Panels.LauncherKeyKeepsSync | src/tui/launcher.rs:247-325 | every key keeps the launcher in agreement |
| Panels.CredKeyKeepsSync | src/tui/cred_panel.rs:122-158 | every key keeps the credential panel in agreement |
| Panels.SelectByIdLands | src/tui/launcher.rs:216-222 | selecting by id succeeds exactly when the list shows that host |
| Panels.UnfilteredShowsHost | src/tui/app.rs:350-365 | without a query every existing id can be selected |
| Application.AppObject.HandleKey | src/tui/app.rs:664-780 | the layers in order: help, F1, transfer screen, Ctrl-C, Ctrl-T, overlay, panel |
| Application.AppObject.HelpLayer | src/tui/app.rs:675-709 | scroll and dismiss keys of the help |
| Application.AppObject.TransferLayer | src/tui/app.rs:846-910 | what each answer of the transfer screen sets |
| Application.AppObject.OverlayLayer | src/tui/app.rs:785-833 | which answers drop the overlay; a wizard keeps the record it edits |
| Application.AppObject.PanelLayer | src/tui/app.rs:915-964 | tabs, add, edit, delete, Esc and Enter before the panel |
| Application.AppObject.OpenEditOverlay | src/tui/app.rs:993-1031 | the edit form is filled from the record found again by id or name |
| Application.AppObject.DoCloseHostWizard | src/tui/app.rs:350-365 | close, re-rank, land on the saved host |
| AppSafety.RunKeepsInv | src/tui/app.rs:350-539 | from every way to enter the program and over every run of keys, saves, deletes and store switches, carried through, refused or broken off, both panels show the ranking of the current configuration, and the layers stay consistent: an open store picker has its view, transfer and overlay are never both open, quitting only from the bare launcher, help scrolled within its text |
| AppSafety.HostEntryLandsOnNamed | src/tui/app.rs:478-524 | entering to edit a named host opens the wizard and puts the cursor on a host of that name, the same one whenever names and ids are not repeated |
| Application.AppObject.ApplyEntryMode | src/tui/app.rs:478-539 | tab first, then the overlay and the selection, for every entry mode |
| AppSafety.IndicesAgree | src/tui/launcher.rs:176-222 | so at each draw the lists are distinct valid indices with the selection in range |
| AppSafety.HelpIsModal | src/tui/app.rs:675-709 | a key under open help changes the help alone |
| AppSafety.HelpRoundTrip | src/tui/app.rs:675-719 | F1, any keys, and the dismissing key restore the exact state on every surface, but for the restarted search debounce |
| AppSafety.QuitExactly | src/tui/app.rs:664-964 | the keys that quit: Ctrl-C, Esc on an empty query, on the Hosts tab also Esc with a modifier; only on the bare launcher |
| AppSafety.SaveLandsOnHost | src/tui/app.rs:350-365 | after any successful save, in any configuration, the selection is on a host with the saved id, and the query is kept exactly when it shows such a host |
| AppSafety.SwitchKeepsRows | src/tui/persist.rs:528-624 | a store switch, which keeps identities, changes nothing the panels rank by |
| AppSafety.RefusalKeepsConfig | src/tui/persist.rs:78-411 | a refused save or delete leaves the configuration as it was |
| AppSafety.FailedSwitchClosesPicker | src/tui/app.rs:807-831 | a store switch that is refused or breaks off does close the picker, against the comments in the loop; the panels stay, and only a broken-off switch changes the configuration, in secrets alone |
| AppActions.DeleteNeedsYes | src/tui/run_loop.rs:311-391 | after anything but a Yes the whole world is as it was, for hosts and credentials |
| AppActions.YesDeletesHost | src/tui/run_loop.rs:311-354 | after a Yes, with a disk that takes the file, exactly the hosts of the name asked about are gone, the others stay in order, the credentials all stay |
| AppActions.YesDeletesCred | src/tui/run_loop.rs:355-391 | the same for a credential |
| AppActions.CtrlDDeletesHostUnderCursor | src/tui/app.rs:1037-1068 | the run from the key: Ctrl-D and Yes remove the hosts of the name of the first host with the id of the one under the cursor; with names and ids not repeated that is the host under the cursor alone |
| AppActions.CtrlDDeletesCredUnderCursor | src/tui/app.rs:1037-1068 | the run from the key for a credential: its name is that under the cursor |
| AppActions.EnterConnectsToHostUnderCursor | src/tui/launcher.rs:285-288 | Enter on the bare Hosts tab with a host under the cursor ends connected to exactly that host; when the connection fails, with nothing changed and nothing pending |
| AppActions.OnlyEnterConnects | src/tui/run_loop.rs:180-202 | no other key ever sets or changes the connection |
| AppEntry.BareEntryLands | src/tui/app.rs:478-482 | without a command the program starts on the bare hosts |
| AppEntry.SftpEntryLands | src/tui/app.rs:505-510 | a transfer entry opens the transfer screen over the hosts, if it can be opened |
| AppEntry.AddHostEntryLands | src/tui/app.rs:478-484 | a host add entry opens an empty form over the hosts |
| AppEntry.AddCredEntryLands | src/tui/app.rs:493-496 | a credential add entry opens an empty form over the credentials |
| AppEntry.HostEntryShowsNamed | src/tui/app.rs:478-524 | a named host edit opens the form of a host with the id of one of that name, the first when names and ids are not repeated; an unknown name opens nothing |
| AppEntry.CredEntryShowsNamed | src/tui/app.rs:478-539 | a named credential edit opens the form of the first of that name with the cursor on one of the name; an unknown name opens nothing |
| AppKeys.ArrowsMoveTheCursor | src/tui/launcher.rs:247-325 | the arrows move the highlight of the list on screen by one row, round the ends |
| AppKeys.TypingFilters | src/tui/launcher.rs:247-325 | typing filters the list on screen by the new query and keeps the row where it can |
| AppKeys.TabKeysCycle | src/tui/app.rs:915-964 | Tab goes hosts, credentials, settings and round, BackTab back, and changes nothing else |
| AppKeys.EscClearsTheQuery | src/tui/app.rs:1141-1160 | Esc with a query shows the whole list |
| AppKeys.AddKeyOpensEmptyForm | src/tui/app.rs:968-991 | Ctrl-A opens an empty form for the kind of record on the tab |
| AppKeys.EditKeyOpensRecordUnderCursor | src/tui/app.rs:993-1031 | Ctrl-E opens a form that shows the record under the cursor: for a host the first with its id, for a credential the first with its name |
| AppKeys.EnterEditsCredential | src/tui/app.rs:1070-1098 | Enter on the credentials tab opens the form of the credential under the cursor, and does nothing without one |
| AppKeys.HostWizardSaves | src/tui/run_loop.rs:203-224 | the host wizard saves the form on screen under the id it was opened for; a refusal keeps it open on that form |
| AppKeys.CredWizardSaves | src/tui/run_loop.rs:225-230 | so does the credential wizard, which first lets an undecided store be decided |
| AppKeys.PickerOffers | src/tui/store.rs:102-135 | the rows of the store picker, in order |
| AppKeys.PickerKeys | src/tui/store.rs:137-170 | the arrows go round the modes; Enter asks for the one highlighted, and when the switch goes through the store is in that mode |
| AppKeys.SettingsOpenPicker | src/tui/settings.rs:56-76 | Enter on the settings tab opens the picker on its first row |
| AppKeys.F1OpensHelp | src/tui/app.rs:249-271 | F1 opens the help of what is on screen, at its top |
| AppKeys.HelpKeysScroll | src/tui/app.rs:675-709 | four keys dismiss the help, the scroll keys move it by one line or five within its text |
| AppKeys.CtrlTOpensTransfer | src/tui/app.rs:740-780 | Ctrl-T on the Hosts tab opens the transfer screen for the host under the cursor, if it can be opened |
| AppKeys.TransferKeysSetFlags | src/tui/app.rs:846-910 | an enqueue asks for a dispatch if nothing runs, a cancel is remembered, a close drops the screen and both |
| Ledger.TransferLedger.DoEnqueue | src/tui/transfer/ledger.rs:65-81 | appends a waiting entry with a fresh id |
| Ledger.TransferLedger.NextToDispatch | src/tui/transfer/ledger.rs:87-97 | starts the head of the queue unless paused |
| Ledger.TransferLedger.FinishInflight | src/tui/transfer/ledger.rs:139-148 | in place, the edit that TransferRules.EndRecordsOutcome and LedgerByTask.FinishRecordsOutcome are about |
| Ledger.TransferLedger.DoRetry | src/tui/transfer/ledger.rs:153-167 | only failed and cancelled entries wait again |
| Ledger.TransferLedger.DoRemove | src/tui/transfer/ledger.rs:172-183 | everything but a running entry can be removed |
| Ledger.TransferLedger.DoClearQueued | src/tui/transfer/ledger.rs:186-188 | drops all that wait |
| Ledger.TransferLedger.DoAbortInflight | src/tui/transfer/ledger.rs:192-195 | drops the running entry |
| Ledger.EditKeepsSound | src/tui/transfer/ledger.rs:65-207 | ids stay ascending, progress stays with the running entry, at most one runs, through every edit |
| Ledger.StartKeepsSound | src/tui/transfer/ledger.rs:87-97 | starting keeps at most one running exactly when nothing would start or nothing runs |
| Ledger.StartTakesOldest | src/tui/transfer/ledger.rs:87-97 | what starts is the waiting entry with the smallest id, and only it changes |
| Ledger.EditKeepsRunning | src/tui/transfer/ledger.rs:65-207 | edits by the user leave the running entry running |
| Ledger.CountersAddUp | src/tui/transfer/ledger.rs:212-240 | the counters account for every entry |
| Ledger.TaskIndices | src/tui/transfer/queue_overlay.rs:74-111 | the loops collect the rows of a tab |
| Ledger.TabsPartition | src/tui/transfer/queue_overlay.rs:74-111 | every entry is a row of exactly one tab, once |
| Ledger.QueueOverlay.OnKey | src/tui/transfer/queue_overlay.rs:166-253 | new cursors, new ledger and outcome of every key of the queue manager |
| Ledger.KeyActsOnShownTask | src/tui/transfer/queue_overlay.rs:156-253 | a key acts on the highlighted entry only, never removes a running one, and asks for a cancel only while one runs |
| LedgerByTask.EditActsOnEachTask | src/tui/transfer/ledger.rs:65-207 | every edit is one function of each single task, applied to all in order; a new task comes last, waiting, under the next number |
| LedgerByTask.FinishRecordsOutcome | src/tui/transfer/ledger.rs:139-148 | the running task is over with exactly the outcome, without progress, and with its job; every other task is unchanged; it stands in the tab of the outcome and can be retried exactly when it failed or was cancelled |
| LedgerByTask.CountIsRows | src/tui/transfer/ledger.rs:212-240 | each counter is the number of rows it is about |
| LedgerByTask.RowsAreInOrder | src/tui/transfer/queue_overlay.rs:74-111 | a tab shows running before waiting, failed before cancelled, and within that oldest first |
| LedgerByTask.ShownIsOnTab | src/tui/transfer/queue_overlay.rs:43-60 | whenever the tab has a row one is highlighted, the one at the cursor or the last |
| LedgerByTask.RetryKeyRetries | src/tui/transfer/queue_overlay.rs:166-253 | Enter and r queue the highlighted task again exactly if it failed or was cancelled |
| LedgerByTask.DismissKeyDismisses | src/tui/transfer/queue_overlay.rs:166-253 | d, c and Delete ask for the cancel of a running task and remove any other |
| LedgerByTask.PauseKeyPauses | src/tui/transfer/queue_overlay.rs:166-253 | p pauses, or resumes and asks for a dispatch when something waits and nothing runs |
| LedgerByTask.OtherKeysAreInert | src/tui/transfer/queue_overlay.rs:166-253 | no other key touches the ledger |
| LedgerByTask.KeysChangeTheTab | src/tui/transfer/queue_overlay.rs:140-165 | Esc alone closes, Tab and BackTab alone change the tab |
| LedgerByTask.KeysMoveTheHighlight | src/tui/transfer/queue_overlay.rs:166-253 | the highlight goes one row down or up without wrapping, and is pulled back into its list |
| Transfer.Session.RouteTransfer | src/tui/app.rs:875-892 | an enqueue asks for a dispatch only with nothing in flight; a cancel is remembered |
| Transfer.Session.HandleOne | src/tui/run_loop.rs:694-776 | the effect of one worker event |
| Transfer.Session.DrainEvents | src/tui/run_loop.rs:694-776 | the drain loop is the repeated handling of the head event |
| Transfer.Session.ResolveConflict | src/tui/run_loop.rs:899-970 | in place, the popup, policy and sending that TransferRules.DispatchAsksAndSends is about |
| Transfer.Session.Dispatch | src/tui/run_loop.rs:877-971 | start the head of the queue and send it, or drop the batch |
| Transfer.Session.WorkerMove | crates/sshrack-core/src/connect/sftp/worker.rs:629-843 | one step of the worker on its ends of the channels |
| Transfer.Session.DrainTransferEvents | src/tui/run_loop.rs:494-847 | one tick: drain, honour a cancel, dispatch, refresh, with the worker sending and taking messages between any two steps of it |
| TransferSafety.RunKeepsInv | src/tui/run_loop.rs:685-971 | the invariant of loop, worker and their channels under every interleaving |
| TransferSafety.TickIsARun | src/tui/run_loop.rs:685-847 | a whole tick as the loop performs it, with any interference of the worker, is a run of the protocol |
| TransferSafety.TickKeepsInv | src/tui/run_loop.rs:685-847 | so every tick keeps the invariant |
| TransferSafety.WorkerKeeps | crates/sshrack-core/src/connect/sftp/worker.rs:629-843 | every step of the worker keeps the invariant |
| TransferSafety.TransfersAreSerial | src/tui/run_loop.rs:877-971 | at most one entry is in flight, the worker runs that very job, and no job is sent that a busy worker would drop |
| TransferSafety.CancelHitsItsJob | src/tui/run_loop.rs:778-793 | a cancel stops the job that was in flight at its key or finds that job over; it never reaches a later job, against the comment there |
| TransferSafety.ExistingFileNeedsYes | src/tui/run_loop.rs:899-951 | for every job sent: it is skipped if and only if a refusal was given before in the session, and one whose destination existed is sent to overwrite if and only if a Yes was; TransferRules.DispatchAsksAndSends says when it is recorded to have existed |
| TransferSafety.BatchAnswerDecides | src/tui/run_loop.rs:899-946 | the promise for one batch (overwrite only after a Yes of that batch, skip only after a refusal of it) holds for a job if and only if its batch found no policy set, or found a Yes and the job met no existing file |
| TransferSafety.YesReachesTheNextBatch | src/tui/run_loop.rs:899-946 | a run of two batches: the Yes given in the first overwrites an existing file of the second without a popup |
| TransferSafety.NoReachesTheNextBatch | src/tui/run_loop.rs:899-970 | a run of two batches: the No given in the first skips a job of the second that meets no file at all, and reports it done |
| TransferSafety.AnswerIsForever | src/tui/run_loop.rs:905-946 | the first answer other than Esc is the last popup of the session: the policy outlives its batch |
| TransferSafety.NoMeansNothingMoves | src/tui/run_loop.rs:952-970 | after a No nothing is copied any more in either direction while the screen stays open |
| TransferSafety.QueueConserved | src/tui/run_loop.rs:877-951 | each entry into the queue ends in exactly one send or drop, or still waits |
| TransferSafety.StallsOnlyAfterFailure | src/tui/run_loop.rs:763-793 | work waits with nothing in flight and no pause only after a failed job |
| TransferSafety.FailureStalls | src/tui/run_loop.rs:763-793 | and once a failure is drained nothing is sent and the same entries wait through every run without a key that enqueues, works on the queue or closes the screen |
| TransferSafety.RefreshFollowsTheJob | src/tui/run_loop.rs:856-865 | the pane refreshed is the one the finished job wrote to, exactly when it did not fail and nothing waits |
| TransferRules.DispatchAsksAndSends | src/tui/run_loop.rs:877-971 | in every reachable state, for the oldest waiting job and the inputs of the step: the popup comes exactly for a download onto an existing file with no policy set, whatever else waits; Yes sends it to overwrite, No and a failed popup to skip, Esc sends nothing and drops what waits; unasked, the policy in force is sent; the record says whether the destination existed |
| TransferRules.IdleDispatchSendsNothing | src/tui/run_loop.rs:877-898 | a dispatch that is not due, or finds the queue paused or empty, asks and sends nothing |
| TransferRules.EndRecordsOutcome | src/tui/run_loop.rs:750-777 | in every reachable state the drained end of a job gives the task of that very job exactly that outcome and changes no other; the task then stands in the tab of the outcome, and can be retried exactly when it failed or was cancelled |
| TransferRules.ProgressIsShown | src/tui/run_loop.rs:702-706 | progress is shown on the running task alone |
| TransferRules.EnqueueAppends | src/tui/app.rs:875-892 | enqueued jobs wait behind all tasks in their order; a dispatch is asked for exactly when nothing is in flight |
| TransferRules.QueueKeyAsks | src/tui/app.rs:875-892 | a key of the queue manager asks for a dispatch or a cancel just as the manager answers |
| TransferRules.CancelKeyCancels | src/tui/run_loop.rs:778-793 | the cancel of a running task reaches the worker in the same tick, for the job of the highlighted task |
| TransferRules.IdleWorkerTakesJob | crates/sshrack-core/src/connect/sftp/worker.rs:629-658 | an idle worker reports a job to be skipped as done, untouched, one it cannot start as failed, and runs any other as it came |
| TransferRules.BusyWorkerHeedsCancel | crates/sshrack-core/src/connect/sftp/worker.rs:790-843 | a busy worker ends its job on a cancel and drops every other message |
| TransferRules.IdleWorkerTakesOther | crates/sshrack-core/src/connect/sftp/worker.rs:629-662 | an idle worker lets a late cancel go and answers a listing |
| TransferRules.WorkerReportsEnd | crates/sshrack-core/src/connect/sftp/worker.rs:629-843 | the end of the job is reported with its outcome |
| TransferRules.WorkerReportsProgress | crates/sshrack-core/src/connect/sftp/worker.rs:780-796 | a busy worker reports its progress |
| TransferRules.CloseForgets | src/tui/app.rs:629-635 | leaving the screen forgets the queue, the answers and the policy |
| Search.FindScreen.DoApplySearchEvent | src/tui/transfer/search_dispatch.rs:38-120 | one event changes at most the named pane |
| Search.FindScreen.DoSearchRequest | src/tui/transfer/search_dispatch.rs:136-175 | filter mode, find mode and what becomes of the pending launch |
| Search.FindScreen.DoBeginSearch | src/tui/transfer/search_dispatch.rs:337-346 | the displaced pane stops its spinner |
| Search.FindScreen.DoCancelSearch | src/tui/transfer/search_dispatch.rs:356-383 | clears the pane whose search is in flight |
| Search.FindScreen.DoDrainEvents | src/tui/run_loop.rs:578-622 | the snapshot loop applies all buffered events |
| Search.FindScreen.DoFirePending | src/tui/run_loop.rs:630-672 | debounce, new generation, new channel |
| SearchSafety.OnlyLatestSearchPaints | src/tui/run_loop.rs:578-684 | a pane changes only through events of the last search launched, not cancelled, and launched for that pane, also after the counter wraps |
| SearchSafety.ResultsComeFromOneLaunch | src/tui/transfer/search_dispatch.rs:38-120 | within one turn of the 32-bit counter a pane never shows hits of two searches together |
| SearchSafety.AbsorbKeepsOneLaunch | src/tui/transfer/search_dispatch.rs:38-120 | they mix exactly when the new search carries the generation number of the old one |
| SearchSafety.WrapMixesResults | src/tui/transfer/search_dispatch.rs:38-120 | a run of 2^32 + 1 launches after which they do mix |
| SearchSafety.DebounceNeverLoses | src/tui/run_loop.rs:630-672 | without further keys a pending search is launched once, for its pane, at the first tick 80 ms after the last key |
| SearchSafety.LeavingFindMode | src/tui/transfer/search_dispatch.rs:136-175 | leaving find mode withdraws the pending launch exactly when the query is not empty |
| SearchSafety.EmptiedQueryStillFires | src/tui/transfer/search_dispatch.rs:136-142 | so emptying the query still launches the abandoned search |
| SearchSafety.StepKeepsHonest | src/tui/transfer/search_dispatch.rs:73-383 | a pane comes to spin with no search of its own in flight or about to start exactly when a key withdraws the launch it waited for while no search of its own is in flight; a search whose end has been drained is not in flight, though its side stays recorded |
| SearchSafety.RunKeepsHonest | src/tui/transfer/search_dispatch.rs:73-383 | hence no pane does in any run without such a key |
| SearchSafety.StrandedSpinsOn | src/tui/transfer/search_dispatch.rs:337-346 | such a pane spins on, and its search is never launched, through every run that does not touch its query, except that the launch of a waiting search of the other pane stops the spinner, exactly when this pane is still the recorded one |
| SearchSafety.SecondQueryStrandsFirst | src/tui/transfer/search_dispatch.rs:136-175 | a run from the empty screen: two queries within the debounce, and the first pane spins for ever without a search |
| SearchSafety.EscStrandsWaitingPane | src/tui/transfer/search_dispatch.rs:356-383 | a run in which Esc on the waiting pane cancels the other search and leaves the waiting pane spinning for ever |
| SearchSafety.EndedSearchStrandsPane | src/tui/transfer/search_dispatch.rs:73-175 | a run in which a pane whose search has ended is recorded as searched, has its new launch withdrawn by a plain name on the other pane, and spins for ever |
| SearchSafety.SupersededEndStopsSpinner | src/tui/transfer/search_dispatch.rs:38-120 | the end of a superseded search stops the spinner of the one still pending |
| SearchSafety.SupersededEndRun | src/tui/transfer/search_dispatch.rs:38-120 | a run from the empty screen in which it does |
| SearchSafety.AbsorbKeepsCursor | src/tui/transfer/search_dispatch.rs:38-120 | an event loses the find cursor exactly when a second drilled directory removes the "." row under a cursor on the last row |
| FindCursor.FindCursorStays | src/tui/transfer/search_dispatch.rs:38-120 | so over every run in which workers send beginnings of walks, within one turn of the search counter, the find cursor of both panes is on a row |
| SearchSafety.RunKeepsCursors | src/tui/transfer/search_dispatch.rs:38-120 | the same for any workers that name a drilled directory first if at all |
| SearchSafety.WrapLosesCursor | src/tui/transfer/search_dispatch.rs:38-120 | a run of 2^32 + 1 launches after which the cursor is on no row |
| SearchSafety.IncrementalRankIsBatch | crates/sshrack-core/src/pathfind.rs:157-168 | re-ranking after each hit gives the one stable ranking of all hits |
| SearchSafety.RankHitsRanks | crates/sshrack-core/src/pathfind.rs:157-168 | that ranking is ordered and a permutation |
| Pathfind.WalkLevels | crates/sshrack-core/src/pathfind.rs:244-387 | the loops emit the specified events, for any listing and matcher and any moment of cancellation; FindResults.ResultsAreTheMatches says which matches those are |
| Pathfind.CancelledNeverFinishes | crates/sshrack-core/src/pathfind.rs:241-387 | a cancelled walk sends a beginning of the events of the whole walk, and its end event exactly when the flag is not found set at any of its reads |
| Pathfind.DescentFollowsTheNames | crates/sshrack-core/src/pathfind.rs:277-321 | the level-by-level descent with its visited set is a walk along one chain of child names, stopped by an unlistable directory or a missing child |
| Pathfind.WalkEvents | crates/sshrack-core/src/pathfind.rs:244-387 | so a search ends with the matching entries of one directory, with one error, or with nothing |
| Pathfind.DrilledComesFirst | crates/sshrack-core/src/pathfind.rs:349-355 | only the first event can name a drilled directory |
| Pathfind.FindShowsTheMatches | src/tui/transfer/search_dispatch.rs:38-120 | after a whole search the pane shows the ranking of the hits of one directory, with the directory on top when everything is listed, cursor on the first row, spinner stopped |
| Pathfind.FindShowsNothing | src/tui/transfer/search_dispatch.rs:38-120 | a query that leads nowhere leaves an empty list, an unlistable directory an empty list and its error |
| FindResults.ResultsAreTheMatches | crates/sshrack-core/src/pathfind.rs:354-383 | the list after a whole search holds one hit for each entry with a file name that the pattern matches, directories included, all of them without a pattern; each with the path, the kind and the score of the matcher, 0 without a pattern; nothing else; best first |
| FindResults.QueryDivides | crates/sshrack-core/src/pathfind.rs:244-276 | a query that ends in a slash is descended into whole; otherwise its last segment is the pattern and the others are descended into |
| FindResults.DescentEntersChildren | crates/sshrack-core/src/pathfind.rs:277-321 | each step of the descent enters a listed directory of exactly the next name, or there is none |
| FindResults.LevelTakesAllChildren | crates/sshrack-core/src/pathfind.rs:277-321 | a level of the descent takes in every child of the name of every listable directory of the level above, and no other |
| SearchRules.QueryArmsSearch | src/tui/transfer/search_dispatch.rs:136-175 | a query that needs a search arms one for its pane, which spins and keeps what it shows; the search in flight and the other pane stay |
| SearchRules.PlainNameFilters | src/tui/transfer/search_dispatch.rs:136-175 | a plain name leaves find mode and arms nothing |
| SearchRules.LaunchStartsSearch | src/tui/run_loop.rs:630-684 | a launch gives the search the next number and an empty channel, for the pane that asked |
| SearchRules.EarlyTickWaits | src/tui/run_loop.rs:620-672 | before the debounce is over nothing is launched |
| SearchRules.EscEndsSearch | src/tui/transfer/search_dispatch.rs:356-383 | Esc ends the search in flight and takes its pane, or else the focused one, out of find mode |
| SearchRules.EscIsQuiet | src/tui/transfer/search_dispatch.rs:356-383 | after an Esc no pane changes and no search starts before the next query, whatever workers send |
| SearchRules.JumpLeavesFind | src/tui/transfer/search_dispatch.rs:259-288 | going into a directory found takes the pane out of find mode, and later events of the search are lost on it |
| SearchRules.ArrowsMoveFindCursor | src/tui/transfer/search.rs:133-143 | the find cursor moves by one row over the dot row and the results, round the ends |
| SearchRules.FindCursorRow | src/tui/transfer/search.rs:107-130 | the row under the find cursor: the dot row first if shown, then the results |
| SearchRules.StaleEventIsDropped | src/tui/transfer/search_dispatch.rs:38-72 | an event that is not of the latest search is dropped; one that is changes the pane it is for and nothing else |
| SearchRules.FirstEventClears | src/tui/transfer/search_dispatch.rs:38-120 | the first event of a new search drops what older searches left |
| SearchRules.LaterEventAdds | src/tui/transfer/search_dispatch.rs:38-120 | a later event adds a hit, ends the spinner, or shows an error in place of everything |
| Persist.SealHidesAndKeeps | crates/sshrack-core/src/secret/vault/mod.rs:260-400 | sealing under Keyring or Vault leaves no plaintext in the body, and what can be revealed afterwards is what went in |
| Persist.SealIfPlainHides | src/tui/persist.rs:155-174 | a save never stores plaintext in a guarded or undecided store |
| Persist.HostSaveIsLocal | src/tui/persist.rs:78-226 | in any configuration an edit replaces the first host with the id and no other, an add appends, and the saved host has the name, address, port and arguments of the form; credentials do not change; a refusal changes nothing |
| Persist.CredSaveIsLocal | src/tui/persist.rs:306-411 | the same for credentials |
| Persist.UndecidedStoreRejectsPlaintext | src/tui/persist.rs:155-174 | an undecided store refuses a body with plaintext and nothing changes |
| Persist.RefusedSaveKeepsKeyring | src/tui/persist.rs:78-226 | a refused save leaves the whole world as it was, exactly unless the form resolves to an inline body with a plain secret its keyring slot does not hold, in keyring mode with the daemon up |
| Persist.RefusedCredSaveKeepsKeyring | src/tui/persist.rs:306-411 | the same for credentials |
| Persist.RefusedRenameReplacesPassword | src/tui/persist.rs:165-190 | in keyring mode a refused rename has already replaced the stored password |
| KeyringSlots.RefusedDeleteKeepsKeyring | src/tui/persist.rs:241-288 | a refused delete leaves the whole world as it was, exactly unless the record has a marked entry in a keyring that can be reached |
| KeyringSlots.RefusedDeleteLosesPassword | src/tui/persist.rs:241-250 | a delete that cannot write the file keeps the host and has lost its password |
| KeyringSlots.StepKeepsTidy | src/tui/persist.rs:71-411 | a save or delete keeps every keyring entry owned by a body that marks it if and only if it does not store a body that leaves an entry it holds or receives unmarked, is not refused after making an unowned entry, and does not delete while the keyring is out of reach |
| KeyringSlots.RunKeepsTidy | src/tui/persist.rs:71-411 | hence over every run of such saves and deletes |
| KeyringSlots.EditLeavesPassword | src/tui/persist.rs:71-196 | a host added with a password, edited to a key file and deleted, all accepted: the password stays in the keyring |
| Persist.HostBlankPasswordIsKept | src/tui/persist.rs:121-142 | a host edit that leaves the password blank keeps the password |
| Persist.CredBlankPasswordIsKept | src/tui/persist.rs:326-343 | a credential edit does so exactly when the password is not in the keyring |
| Saving.ConfigHolder.SaveHost | src/tui/persist.rs:78-226 | in place: resolve, seal, check, splice or append, write, adopt; refusals at each step |
| Saving.ConfigHolder.SaveCredential | src/tui/persist.rs:306-411 | the same for credentials |
| Saving.ConfigHolder.DeleteHost | src/tui/persist.rs:241-257 | forget the keyring entries, drop the host, write, adopt |
| Saving.ConfigHolder.DeleteCredential | src/tui/persist.rs:272-288 | the same for credentials |
| Saving.ReplaceHost | src/tui/persist.rs:192-196 | the loop overwrites the first host with the id |
| SavedRecords.SavedHostIsTheForm | src/tui/persist.rs:78-226 | an accepted save stores the whole form: name, address, port, arguments, and a reference to the credential of the chosen name or a body whose user, key and secrets read back as typed |
| SavedRecords.FirstOfTheName | src/tui/persist.rs:100-121 | that credential is the first of its name, and exists exactly when the name does |
| SavedRecords.SavedCredIsTheForm | src/tui/persist.rs:306-411 | the same for credentials |
| SavedRecords.HostSaveAccepted | src/tui/persist.rs:78-226 | a host save is accepted if and only if name and arguments pass their checks, the credential exists or the secrets can be stored, and the disk takes the file |
| SavedRecords.CredSaveAccepted | src/tui/persist.rs:306-411 | a credential save is accepted if and only if the name passes its checks, the secrets can be stored, a new body is valid once they are, and the disk takes the file |
| SavedRecords.UntouchedEditIsIdentity | src/tui/wizard/host.rs:230-310 | opening a record for an edit and saving it unchanged changes neither configuration nor keyring |
| SavedRecords.LostReferenceTakesFirst | src/tui/wizard/host.rs:230-310 | a host whose credential is gone takes the first credential at its next save, even an untouched one |
| Persist.StepKeepsInv | src/tui/persist.rs:78-411 | each save or delete keeps names and ids unique and guarded stores free of plaintext |
| Persist.RunKeepsInv | src/tui/persist.rs:78-411 | hence over every run of saves and deletes |
| Persist.SpliceHostReplaces | src/tui/persist.rs:192-196 | splicing replaces exactly the host with that id |

## Left out

- The fuzzy matcher, the width table, encryption, the OS keyring, the file system, ssh and sftp are parameters or inputs; popups are answers.
- Ratatui drawing, colours and layout, status messages, the terminal guard, and the command line with its tables and JSON output.
- SavedRecords.SavedHostIsTheForm: the texts of a form are taken as trimmed, and its port as the number read from it.
- The wizard forms answer with a new form and one of stay, save, dismiss; only the fields a save reads are modelled.
- The connection phase of the worker, host-key confirmation, progress rates and partial-file removal; a transfer session starts connected.
- `parse_query` and the listing cache of `crates/sshrack-core/src/pathfind.rs`.
- Pathfind.WalkLevels: a walk that ends because its receiver is gone sends into nothing, so only the cancel flag is modelled.
- Vault migration: a store switch is any change of secrets that keeps ids, names, addresses and users, carried through or broken off, or a refusal.
- Reading back a saved configuration file gives what was written; TOML is not modelled.
- Saving.ConfigHolder.SaveHost: the keyring daemon is up or down for a whole save.
- Browser.BrowserCore.DoMoveCursor: integers are unbounded, so the casts to `i32` of lists beyond two thousand million rows are not modelled.
- Panels.HostList.MoveSelection: the same casts.
- Fit.TruncateIsOptimal: the width of a string is the sum of the widths its characters have in the loop. Control characters, which count one cell in a string and none alone, and grapheme clusters are not modelled; five of U+0001 cut to three cells come out wider than three.
- Fit.TruncateCells: the same; so do the rows built from it.
- FilePicker.Picker.DoActivate: `trim` removes ASCII blanks only.
- Application.AppObject.HelpLayer: the scroll offset is unbounded, where the code saturates at 16 bits.
- Search.FindScreen.DoFirePending: elapsed time is an input; the remote search without a connection, which has no worker and so never ends, is not modelled.
- SearchSafety.OnlyLatestSearchPaints: a worker whose channel was replaced may go on sending; its messages are lost, as with a dropped receiver.
