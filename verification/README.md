# Choir binder manager — a Dafny model

This project models the core of a terminal application that keeps track of a
choir's physical binders and the songs filed in each one. The model covers
these parts of the application:

- **The store.** Binders, songs and the binder–song join table, with their
  queries and writes. This covers the number-uniqueness rule, the
  "not found" errors, the idempotent link insert, cascading deletes and the
  orderings every query uses.
- **The screens.** The binder grid, the song view of one binder, the song
  manager with its "without link" switch, the song picker, and the
  "To Print" report. The report compares every binder with the director's
  binder (number 0), offers a tick box for each song a binder lacks, and
  keeps a per-song tally of copies still needed.
- **The forms and dialogs.** The binder form, and the song form with
  composer autocompletion. The confirmation dialogs, including the
  three-button Apply / Discard / Cancel dialog shown when leaving the report
  with ticked boxes.
- **The controller.** A pure step function from (application state, key)
  to (new state, quit?). It covers:
  - grid moves;
  - Tab/BackTab cycling through binders by number with wrap-around;
  - the next free binder number;
  - reconciling the report;
  - applying ticked boxes as links;
  - batch linking from the picker;
  - the Ctrl-E stash-and-restore of a running search;
  - the Ctrl-L switch;
  - the exit gating that stops the program from quitting while ticked boxes
    are pending.
- **The single-file build** (`src/ui.rs`). It duplicates the controller. It
  differs from the split one only in two places: its song-grouped report
  rows are not sorted, and its picker links only the highlighted song. Both
  differences are modelled and compared with the split build.

The store is a value (`Store.Store`). Every write returns the new store and
a `Result` (`Store.Write`). Errors are `anyhow`-style chains of messages,
outermost context first. The program shows the innermost one
(`Helpers.SurfaceError`).

## Model

| member | source | states |
|---|---|---|
| Outcomes.Fail | src/db/binders.rs:49-63 | an error made from one message carries exactly that message |
| Outcomes.Context | src/db/songs.rs:159-166 | adding context puts the new message outermost and keeps the whole inner chain, so the innermost cause is unchanged |
| Text.Lower | src/ui/screens.rs:33-66 | lower-casing keeps the length and lower-cases every ASCII capital position by position |
| Text.LowerIdempotent | src/ui/forms.rs:265-292 | lower-casing twice is lower-casing once, so comparing lower-cased candidates with a lower-cased query is stable |
| Text.Trim | src/ui/forms.rs:252-262 | trimming gives the contiguous slice of the input left after removing a whitespace prefix and a whitespace suffix, and that slice neither starts nor ends with whitespace |
| Text.BlankIffAllWhitespace | src/models.rs:51-57 | `trim().is_empty()` holds exactly when every character is whitespace |
| Text.NatToString | src/ui/screens.rs:506-517 | a count is rendered as a non-empty run of decimal digits with no leading zero |
| Text.IntToString | src/ui/forms.rs:31-37 | an integer renders as a non-empty string that starts with a digit exactly when the integer is non-negative |
| Text.TrimIntToString | src/ui/forms.rs:40-47 | a rendered binder number survives the trim done when the form is parsed |
| Text.Pad2 | src/ui/screens.rs:430-436 | the `{:02}` binder number in a report header is the decimal rendering, zero-padded to width two with the sign counting toward the width (so `-5` stays `-5`) |
| Text.Pad2RoundTrip | src/ui/screens.rs:430-436 | the padded number of any 64-bit binder number reads back as that number |
| Text.ParseIntToString | src/ui/forms.rs:97-110 | parsing a rendered 64-bit integer gives the integer back |
| Collation.ComposerLeTotalPreorder | src/db/songs.rs:36-54 | ordering composers by lower-cased text, then by the original text, is a total preorder |
| Collation.ComposerLeStrict | src/db/songs.rs:36-54 | two distinct composer strings are never tied in that order |
| Models.DisplayTitle | src/models.rs:51-57 | the display title starts with the title and adds " - " and the composer exactly when the composer is not blank |
| Models.WhitespaceComposerHasNoSeparator | src/models.rs:51-57 | a composer made only of whitespace leaves the display title equal to the title |
| Models.BinderDisplay | src/models.rs:27-29 | a binder displays as exactly its label |
| Store.Empty | src/db/connection.rs:17-61 | the empty database satisfies the schema's key, uniqueness and foreign-key constraints |
| Store.BinderLeTotalPreorder | src/db/binders.rs:8-26 | ordering binders by number is a total preorder, so the fetch order is well defined |
| Store.SongLeTotalPreorder | src/db/songs.rs:8-31 | ordering songs by case-insensitive title, then composer, is a total preorder |
| Store.SortSongs | src/db/songs.rs:8-31 | song queries return a permutation of their rows sorted by title, then composer |
| BinderStore.UniqueMessage | src/db/binders.rs:82-91 | a number clash is reported with the prefix "Binder number " and the suffix " already exists." |
| BinderStore.UniqueMessageNamesNumber | src/db/binders.rs:82-91 | the text between that prefix and suffix is the clashing number, which reads back as itself: the message is "Binder number N already exists." |
| BinderStore.FetchBinders | src/db/binders.rs:8-26 | every binder is returned once, in strictly ascending number order on a valid store |
| BinderStore.CreateBinder | src/db/binders.rs:30-44 | a taken number fails with the uniqueness message and leaves the store unchanged; otherwise a binder with the given number and label and a fresh id is added; validity is kept |
| BinderStore.UpdateBinder | src/db/binders.rs:49-63 | an absent id fails with "Binder not found"; a number used by another binder fails with the uniqueness message; success rewrites exactly that row |
| BinderStore.WithoutBinder | src/db/binders.rs:67-77 | removing a binder keeps every other binder and every song, and drops exactly the join rows that name it |
| BinderStore.WithoutBinderValid | src/db/binders.rs:67-77 | the cascading delete keeps the store valid |
| BinderStore.DeleteBinder | src/db/binders.rs:67-77 | an absent id fails with "Binder not found" and changes nothing; otherwise the binder and its links go |
| SongStore.FetchAllSongs | src/db/songs.rs:8-31 | every song, as a permutation sorted by title, then composer |
| SongStore.FetchSongsForBinder | src/db/songs.rs:58-83 | exactly the songs joined to the binder, sorted |
| SongStore.FetchAvailableSongs | src/db/songs.rs:87-113 | exactly the songs not joined to the binder, sorted |
| SongStore.BinderSongsPartition | src/db/songs.rs:58-113 | the songs on a binder and the songs offered for it together make up every song, with none in both |
| SongStore.FetchComposers | src/db/songs.rs:36-54 | each non-empty composer of some song appears once, in composer order |
| SongStore.CreateSong | src/db/songs.rs:117-131 | always succeeds, echoing the given fields with a fresh id appended to the songs |
| SongStore.UpdateSong | src/db/songs.rs:135-154 | an absent id fails with "Song not found"; otherwise exactly that song's three fields are rewritten |
| SongStore.AddSongToBinder | src/db/songs.rs:159-166 | succeeds exactly when both ends exist, adding the pair; otherwise fails and changes nothing, with the chain `failed to link song to binder` / `FOREIGN KEY constraint failed` / `Error code 787: A foreign key constraint failed` (rusqlite's error and its result-code source) |
| SongStore.AddSongToBinderIdempotent | src/db/songs.rs:159-166 | linking an already linked pair succeeds and leaves the store as it was |
| SongStore.RemoveSongFromBinder | src/db/songs.rs:170-183 | an absent pair fails with "Song not linked to this binder"; otherwise exactly that pair is removed |
| SongStore.RemoveUndoesAdd | src/db/songs.rs:159-183 | removing a link that was just added restores the store |
| SongStore.WithoutSong | src/db/songs.rs:187-197 | removing a song keeps every other song and binder and drops exactly its join rows |
| SongStore.WithoutSongValid | src/db/songs.rs:187-197 | the cascading song delete keeps the store valid |
| SongStore.DeleteSong | src/db/songs.rs:187-197 | an absent id fails with "Song not found"; otherwise the song and its links go |
| SongStore.DeletedSongOnNoBinder | src/db/songs.rs:187-197 | after a delete no binder lists the song |
| Helpers.RepeatPatternRow | src/ui/helpers.rs:9-20 | the tiled motif row is exactly `width` characters, blank when the motif is empty |
| Helpers.PatternRowPeriodic | src/ui/helpers.rs:9-20 | the tiled row starts with the motif and repeats with the motif's period |
| Helpers.PatternRowTiles | src/ui/helpers.rs:9-20 | column `i` shows motif character `i mod len` |
| Helpers.BinderLabelLine | src/ui/helpers.rs:23-48 | the label line is exactly `width` wide, blank for a blank label, otherwise the bracketed trimmed label centred and cut to fit |
| Helpers.LabelFitsWhole | src/ui/helpers.rs:23-48 | a label that fits appears whole, brackets included |
| Helpers.FitTo | src/ui/helpers.rs:23-48 | the closing step pads with blanks or cuts so the line is exactly `width` |
| Helpers.Centre | src/ui/helpers.rs:23-48 | the text sits between margins whose sizes differ by at most one, the extra blank on the right |
| Helpers.PatternRows | src/ui/helpers.rs:52-115 | the pattern part of a cover has the requested number of `width`-wide rows cycling through the motifs |
| Helpers.CoverLines | src/ui/helpers.rs:52-115 | a zero-sized cover is one empty line; otherwise every line is `width` wide and there are `height` lines |
| Helpers.PadLines | src/ui/helpers.rs:52-115 | the closing loop keeps the lines built and appends blank lines up to the height |
| Helpers.CoverLayout | src/ui/helpers.rs:52-115 | a cover of height two or more shows its pattern rows first and a blank spacer right above the label line |
| Helpers.SurfaceError | src/ui/helpers.rs:142-147 | the message shown is one of the chain's messages, its innermost cause |
| Helpers.SurfaceErrorIgnoresContext | src/ui/helpers.rs:142-147 | adding context never changes what the user is shown |
| Helpers.SurfaceErrorOfFail | src/ui/helpers.rs:142-147 | a one-message error shows exactly that message |
| SongLists.Clamp | src/ui/screens.rs:115-121 | the selection is kept when it fits, moved to the last row when past the end, and 0 for an empty list |
| SongLists.MoveClamped | src/ui/screens.rs:83-96 | a move does nothing on an empty list and otherwise lands on the target row clamped to the list |
| SongLists.Search | src/ui/screens.rs:33-66 | a missing or blank query keeps every song; otherwise the songs whose lower-cased title or composer contains the lower-cased query |
| SongLists.Refilter | src/ui/screens.rs:33-66 | the shown songs are the songs passing search and, when switched on, the blank-link test; a selection that still fits is kept |
| SongLists.SearchThenLinkIsShown | src/ui/screens.rs:33-66 | the two filtering passes select the same songs as one combined test, in the same order |
| SongLists.RefilterMembers | src/ui/screens.rs:33-66 | a song is shown exactly when it is in the list, passes the search and, when asked, has no link |
| SongLists.CurrentSong | src/ui/screens.rs:79-81 | the highlighted song exists exactly when the selection is inside the shown list |
| SongLists.MoveSelection | src/ui/screens.rs:83-96 | moving keeps the lists and keeps the selection in bounds |
| SongLists.SelectFirst | src/ui/screens.rs:98-102 | jumps to the top row, or does nothing on an empty list |
| SongLists.SelectLast | src/ui/screens.rs:104-108 | jumps to the bottom row, or does nothing on an empty list |
| SongLists.NewManager | src/ui/screens.rs:20-31 | a new manager shows every song, no search, switch off, first row selected |
| SongLists.ManagerSetFilter | src/ui/screens.rs:68-71 | a new search is stored and applied, keeping the songs and the switch |
| SongLists.ManagerSetSongs | src/ui/screens.rs:110-113 | new songs are stored and the current search re-applied |
| SongLists.ToggleShowNoLink | src/ui/screens.rs:73-77 | the switch flips, the list is refiltered and the new state is returned |
| SongLists.ToggleShowNoLinkTwice | src/ui/screens.rs:73-77 | switching twice restores the switch and the shown songs |
| SongLists.NoLinkOnlyNarrows | src/ui/screens.rs:33-66 | turning the switch on shows only songs with a blank link and never adds a song |
| SongLists.NewSongScreen | src/ui/screens.rs:537-548 | a binder's song view starts unfiltered with every song shown and the first row selected |
| SongLists.SongScreenSetFilter | src/ui/screens.rs:577-580 | a new search is stored and applied, keeping the binder and its songs |
| SongLists.SongScreenSetSongs | src/ui/screens.rs:617-620 | new songs are stored and the search re-applied, keeping the binder |
| Picker.Load | src/ui/screens.rs:648-660 | "create new" comes first, then exactly the songs not on the binder; nothing is ticked and the first row is selected |
| Picker.MoveSelection | src/ui/screens.rs:666-679 | a move keeps items and ticks and lands inside a non-empty list |
| Picker.SelectFirst | src/ui/screens.rs:681-685 | jumps to the first item unless the list is empty |
| Picker.SelectLast | src/ui/screens.rs:687-691 | jumps to the last item unless the list is empty |
| Picker.CurrentItem | src/ui/screens.rs:693-695 | the highlighted item exists exactly when the selection is inside the list |
| Picker.ToggleCurrent | src/ui/screens.rs:704-710 | on an existing song the tick of its id flips and no other tick changes; otherwise nothing changes |
| Picker.ToggleCurrentTwice | src/ui/screens.rs:704-710 | ticking twice restores the picker |
| Picker.ExistingSongs | src/ui/screens.rs:712-722 | a song is among the result exactly when some row holds it |
| Picker.ExistingSongsOfAsItems | src/ui/screens.rs:648-660 | reading the songs back from their rows gives the songs in their original order |
| Picker.LoadListsAvailable | src/ui/screens.rs:648-660 | a freshly loaded picker lists exactly the available songs, in the order the query returns them |
| Picker.CheckedSongs | src/ui/screens.rs:712-722 | exactly the listed songs whose id is ticked, in list order |
| ToPrint.Flip | src/ui/screens.rs:286-313 | flipping a box changes that box alone |
| ToPrint.EntryText | src/ui/screens.rs:441-444 | a song row is "[x] " when ticked and "[ ] " otherwise, followed by exactly the song's display title |
| ToPrint.BuildBinderRows | src/ui/screens.rs:423-462 | one header per report plus one row per missing song, each row pointing at the entry it shows |
| ToPrint.NeedsPrinting | src/ui/screens.rs:374-412 | exactly the tally entries still needing copies, as a permutation sorted by title, then composer |
| ToPrint.FromNeeded | src/ui/screens.rs:506-517 | a song row names its song, starts with its display title and "  (", and ends with " copy)" exactly when one copy is needed, " copies)" otherwise |
| ToPrint.FromNeededNamesCount | src/ui/screens.rs:506-517 | between the opening bracket and the unit the row shows the count in decimal, which reads back as the count |
| ToPrint.SongRowsOf | src/ui/screens.rs:374-412 | one row per song still needed, in sorted order, or the placeholder "No songs need printing." alone |
| ToPrint.SongRowsOrdered | src/ui/screens.rs:374-412 | song rows come in title-then-composer order |
| ToPrint.SongRowsCoverNeeds | src/ui/screens.rs:374-412 | every song with copies still needed has a row |
| ToPrint.MaxScroll | src/ui/screens.rs:338-343 | the scroll limit fits a `u16` and is the last row index on a short list |
| ToPrint.UpdateScroll | src/ui/screens.rs:345-360 | keeps three rows above the selection in view and never scrolls past the last row; resets everything when there is nothing to show |
| ToPrint.Settle | src/ui/screens.rs:345-360 | after clamping and scrolling the selection is inside the current rows |
| ToPrint.RefreshBinderRows | src/ui/screens.rs:423-462 | without a director the rows are cleared; otherwise rebuilt, with the selection clamped in the binder view |
| ToPrint.RefreshSongRows | src/ui/screens.rs:374-412 | the song rows are rebuilt, with the selection clamped in the song view |
| ToPrint.WithData | src/ui/screens.rs:144-162 | a new report shows the binder view with nothing pending and both row lists built |
| ToPrint.MissingDirector | src/ui/screens.rs:164-176 | without a director the report is empty with nothing pending |
| ToPrint.ToggleMode | src/ui/screens.rs:178-189 | switches grouping and returns to the top; nothing happens without a director |
| ToPrint.MoveSelection | src/ui/screens.rs:191-211 | moves within the current rows; nothing happens without a director |
| ToPrint.SelectFirst | src/ui/screens.rs:213-223 | jumps to the first row when a director exists |
| ToPrint.SelectLast | src/ui/screens.rs:225-236 | jumps to the last row when a director exists |
| ToPrint.CurrentSong | src/ui/screens.rs:414-421 | in the song view with a director and the selection in range, exactly the highlighted row's song (none for the placeholder); nothing otherwise |
| ToPrint.CurrentSongNeedsCopies | src/ui/screens.rs:414-421 | with rows rebuilt from the tally, the highlighted song is one that still needs copies, and there is none when nothing needs printing |
| ToPrint.AdjustTotals | src/ui/screens.rs:362-372 | only the first tally entry of the song changes, by `delta` and never below zero |
| ToPrint.AdjustSongNeeded | src/ui/screens.rs:362-372 | the tally is adjusted and the song rows rebuilt from it |
| ToPrint.ToggleCurrent | src/ui/screens.rs:286-313 | in the binder view, on a song row, the box flips, the pending count and the song's tally move by one in opposite directions, and the new state is returned; elsewhere nothing changes |
| ToPrint.ReportAssignments | src/ui/screens.rs:319-329 | one (binder id, song id) pair per ticked box of a report, exactly those pairs, in the report's song order |
| ToPrint.Assignments | src/ui/screens.rs:319-329 | one pair per ticked box over all reports, and exactly those pairs |
| ToPrint.AssignmentsAppend | src/ui/screens.rs:319-329 | the pairs of earlier reports come before those of later ones: collecting a run of reports is collecting its parts in turn |
| ToPrint.PendingAssignments | src/ui/screens.rs:319-329 | the pairs of exactly the ticked boxes, as many as there are ticks, collected report by report |
| ToPrint.NoneCheckedCountsZero | src/ui/screens.rs:315-317 | with no box ticked the ticked count is zero |
| ToPrint.WithDataInv | src/ui/screens.rs:144-162 | a report built with empty boxes and an exact tally satisfies the report invariant |
| ToPrint.MissingDirectorInv | src/ui/screens.rs:164-176 | the empty report satisfies the invariant |
| ToPrint.ToggleCurrentActsOnSongRows | src/ui/screens.rs:286-313 | under the invariant a toggle acts exactly on song rows of the binder view |
| ToPrint.ToggleCurrentKeepsInv | src/ui/screens.rs:286-313 | toggling keeps the pending counter equal to the ticked boxes and the tally exact |
| ToPrint.TallyAfterFlip | src/ui/screens.rs:286-313 | flipping a box and moving the song's tally the opposite way keeps the tally exact |
| Forms.WithNumber | src/ui/forms.rs:31-37 | a positive suggestion is filled in as its digits; zero or less leaves the field empty; label empty, focus on the number |
| Forms.ToggleBinderField | src/ui/forms.rs:55-60 | focus moves to the other field and nothing else changes |
| Forms.ToggleBinderFieldTwice | src/ui/forms.rs:55-60 | toggling twice restores the form |
| Forms.BinderPushChar | src/ui/forms.rs:63-82 | a character is accepted exactly when it suits the focused field (an ASCII digit for the number, any non-control character for the label), and is appended to that field only |
| Forms.BinderBackspace | src/ui/forms.rs:85-94 | the last character of the focused field goes; the other field is untouched |
| Forms.EditingKeepsDigitsOnly | src/ui/forms.rs:63-94 | typing and erasing keep a number field made only of digits |
| Forms.BackspaceUndoesBinderPush | src/ui/forms.rs:63-94 | erasing an accepted character restores the form |
| Forms.ParseBinderInputs | src/ui/forms.rs:97-110 | a blank number, an unparsable number and a blank label each give their own error; otherwise the parsed number and the trimmed label |
| Forms.FromBinderRoundTrip | src/ui/forms.rs:40-47 | a form seeded from a binder parses back to its number and trimmed label |
| Forms.WithNumberRoundTrip | src/ui/forms.rs:31-37 | a form seeded with a positive suggestion parses back to that number |
| Forms.ToggleSongField | src/ui/forms.rs:207-216 | focus cycles title, composer, link; leaving the composer drops the suggestion |
| Forms.ToggleSongFieldThrice | src/ui/forms.rs:207-216 | three presses return focus to where it was, with no suggestion |
| Forms.SongPushChar | src/ui/forms.rs:219-232 | any non-control character is appended to the focused field only; typing in the composer re-enables autocompletion |
| Forms.SongBackspace | src/ui/forms.rs:235-248 | the focused field loses its last character; erasing in the composer re-enables autocompletion |
| Forms.ParseSongInputs | src/ui/forms.rs:252-262 | fails with "Song title is required." exactly when the title is blank; otherwise the three trimmed fields |
| Forms.FromSongRoundTrip | src/ui/forms.rs:194-204 | a form seeded from a song parses back to its trimmed fields |
| Forms.UpdateSuggestion | src/ui/forms.rs:265-292 | no suggestion outside the composer, when disabled, or under two characters; a suggestion is the first known composer that extends the typed text case-insensitively, and it is longer than the text; when no known composer extends the text, none is offered |
| Forms.SuggestionOffered | src/ui/forms.rs:265-292 | with suggestions enabled, the first known composer extending the typed text case-insensitively is suggested exactly when it is longer than the text; when it is the text itself nothing is suggested, even if a later composer extends it |
| Forms.SuggestionSuffix | src/ui/forms.rs:324-337 | the suffix is what the suggestion adds beyond the typed length, and it is non-empty |
| Forms.SuggestionSuffixCompletes | src/ui/forms.rs:265-337 | a fresh suggestion always shows a non-empty suffix |
| Forms.AcceptSuggestion | src/ui/forms.rs:295-305 | with a suffix showing, the composer becomes the suggestion and autocompletion is switched off; otherwise nothing changes |
| Forms.AcceptedSuggestionIsFinal | src/ui/forms.rs:295-305 | after accepting nothing more is suggested until the composer is edited again |
| Forms.CancelAutocomplete | src/ui/forms.rs:308-315 | Esc on a showing suggestion drops it and disables autocompletion; otherwise nothing changes |
| Forms.NewConfirmToPrintExit | src/ui/forms.rs:422-427 | the exit dialog opens on the first button, remembering whether the program is quitting |
| Forms.SelectedIndex | src/ui/forms.rs:457-463 | Apply, Discard and Cancel are buttons 0, 1 and 2 |
| Forms.ChoiceMovesWrap | src/ui/forms.rs:430-445 | next and previous move the highlight one button right or left, wrapping round |
| Forms.NextPreviousInverse | src/ui/forms.rs:430-445 | next and previous undo each other |
| Forms.Labels | src/ui/forms.rs:448-454 | captions "Apply & …", "Discard & …" and "Cancel", with the same verb, which is "Quit" exactly when quitting |
| Reconcile.FindDirector | src/ui/app.rs:1918-1975 | the director is the first binder numbered 0, and exists exactly when some binder has number 0 |
| Reconcile.Unticked | src/ui/app.rs:1918-1975 | missing songs start with empty boxes, in order |
| Reconcile.ReportFor | src/ui/app.rs:1918-1975 | a binder's report lists exactly the director's songs it lacks, in director order, all unticked |
| Reconcile.Reports | src/ui/app.rs:1918-1975 | reports are produced only for binders that lack something, with every box empty |
| Reconcile.ReportsInBinderOrder | src/ui/app.rs:1918-1975 | the reports are those of the binders that lack something, one each, in the binders' order |
| Reconcile.Missing | src/ui/app.rs:1918-1975 | the songs a binder lacks are exactly the director's songs not linked to it, in the director binder's order |
| Reconcile.ReportsSound | src/ui/app.rs:1918-1975 | every report comes from one of the other binders and lists at least one song |
| Reconcile.ReportsComplete | src/ui/app.rs:1918-1975 | every other binder that lacks a director song gets its report |
| Reconcile.ReportsExactly | src/ui/app.rs:1918-1975 | a report is produced exactly for each non-director binder whose report is non-empty |
| Reconcile.BumpTallies | src/ui/app.rs:1918-1975 | counting one more missing song keeps the tally exact |
| Reconcile.TallyOfTallies | src/ui/app.rs:1918-1975 | counting a run of missing songs keeps the tally exact |
| Reconcile.TalliesTrack | src/ui/app.rs:1918-1975 | an exact tally of the flattened entries is the tally the report invariant asks for |
| Reconcile.TallyFromScratch | src/ui/app.rs:1918-1975 | the tally counted over every entry satisfies the report invariant |
| Reconcile.OpenToPrint | src/ui/app.rs:1918-1975 | the report finds a director exactly when a binder is numbered 0; it then holds the reconciled reports; it starts with nothing pending and satisfies the invariant |
| Reconcile.ReportedExactly | src/ui/app.rs:1918-1975 | binder `b` shows an empty box for song `s` exactly when `b` is not the director and `s` is on the director's binder but not on `b` |
| Controller.MaxNumber | src/ui/app.rs:2014-2021 | the highest binder number in use |
| Controller.NextBinderNumber | src/ui/app.rs:2014-2021 | one above every number in use and next to the highest, or 1 with no binders |
| Controller.SuggestedNumberIsFree | src/ui/app.rs:2014-2021 | the suggested number is never taken, so creating a binder with it succeeds |
| Controller.MoveBy | src/ui/app.rs:2036-2053 | on the grid a move that stays inside the binders happens; any other move does nothing |
| Controller.GridMovesStayOnGrid | src/ui/app.rs:2036-2053 | moves keep the selection on the grid, and a vertical move keeps the column |
| Controller.GridMoveUndo | src/ui/app.rs:2036-2053 | a move that happened is undone by the opposite move |
| Controller.ReloadBinders | src/ui/app.rs:1846-1865 | the binders are refetched; the selection goes to the focused id when present and is otherwise clamped |
| Controller.Ordered | src/ui/app.rs:1873-1909 | the binders sorted by number, as a permutation |
| Controller.Neighbour | src/ui/app.rs:1873-1909 | the binder reached is one of the binders |
| Controller.NeighbourOfUnknown | src/ui/app.rs:1873-1909 | an unknown current binder counts as position 0, so the step lands on `offset rem_euclid len` |
| Controller.OpenRelativeBinder | src/ui/app.rs:1873-1909 | on a binder's song view with binders present, Tab/BackTab open the neighbouring binder's songs; otherwise nothing changes |
| Controller.PositionOf | src/ui/app.rs:1873-1909 | with distinct ids a binder sits at exactly one place in number order, and the step lands `offset` places further round |
| Controller.NeighbourRoundTrip | src/ui/app.rs:1873-1909 | stepping `offset` binders away and `offset` back returns to the start |
| Controller.WrapBack | src/ui/app.rs:1873-1909 | stepping round a cycle with `rem_euclid` and back returns to the start position |
| Controller.OrderedIncreasing | src/ui/app.rs:1873-1909 | with distinct numbers, number order is strictly increasing |
| Controller.NextNeighbourByNumber | src/ui/app.rs:1873-1909 | Tab opens the binder with the next higher number, and from the highest the lowest |
| Controller.OpenToPrintView | src/ui/app.rs:1918-1975 | the report screen opens with nothing pending; it satisfies the invariant and has a director exactly when a binder is numbered 0 |
| Controller.RefreshSongScreen | src/ui/app.rs:1992-1998 | a binder's song view re-reads its songs and keeps its search; other screens are untouched |
| Controller.RefreshSongManager | src/ui/app.rs:2000-2007 | the manager re-reads every song, keeping search and switch, and the composer list is refetched |
| Controller.LinkAll | src/ui/app.rs:1977-1990 | pairs are linked in order until the first refusal; the failure is reported exactly when some pair is left, with the refusal's chain |
| Controller.LinkAllComplete | src/ui/app.rs:1977-1990 | when every pair is acceptable, every pair ends up linked with no failure |
| Controller.ApplyToPrintChanges | src/ui/app.rs:1977-1990 | the ticked pairs are linked; success reports how many; a failure keeps the screen and reports the error |
| Controller.SaveNewBinder | src/ui/app.rs:1810-1819 | an invalid form or a taken number gives the error; otherwise the binder is created and the grid reloaded with the new binder selected |
| Controller.NewBinderFocused | src/ui/app.rs:1810-1819 | after the insert the reload selects the new binder |
| Controller.SaveExistingBinder | src/ui/app.rs:1821-1833 | an invalid form gives its error; the update succeeds exactly when the binder exists and no other binder has the number; on success the binder is rewritten, "Updated Binder NN." is reported, and an open song list of that binder shows the new number and label |
| Controller.PerformDelete | src/ui/app.rs:1835-1844 | deleting fails exactly when the binder is gone; otherwise the binder and its links are removed and the grid reloaded |
| Keys.OpenSongLink | src/ui/app.rs:284-302 | no song does nothing; a blank link is an error; otherwise the launcher's success or failure sets the status; nothing else changes |
| Keys.CurrentSongOn | src/ui/app.rs:1048-1083 | the highlighted song of the list that is showing, if any |
| Keys.Navigate | src/ui/app.rs:809-1000 | exactly the arrow, page and home/end keys move within a list, keeping its contents |
| Keys.SetFilterOn | src/ui/app.rs:809-1000 | the search is set on whichever song list is showing; other screens are untouched |
| Keys.EditCurrent | src/ui/app.rs:332-345 | with a highlighted song its editor opens; without one "No song selected to edit." is shown |
| Keys.BindersKey | src/ui/app.rs:186-240 | on the grid the program quits exactly on `q` or Esc, and no key writes to the store |
| Keys.EditBinderAt | src/ui/app.rs:226-235 | `e` on the grid never writes and never quits |
| Keys.SongsKey | src/ui/app.rs:241-364 | on a binder's songs the program quits exactly on `q`, and no key writes |
| Keys.ManagerKey | src/ui/app.rs:365-470 | in the manager the program quits exactly on `q`, and no key writes |
| Keys.ToggleNoLink | src/ui/app.rs:446-448 | `l` flips the manager's switch and reports its new state |
| Keys.ToPrintKey | src/ui/app.rs:471-508 | on the report the program quits exactly on `q` with nothing pending, and no key writes |
| Keys.LeaveToPrint | src/ui/app.rs:479-486 | leaving the report never writes and never quits |
| Keys.NormalKey | src/ui/app.rs:184-509 | no key outside a form or dialog writes to the store |
| Keys.AddBinderKey | src/ui/app.rs:511-541 | Enter saves the new binder, keeping the form open with the error on failure; other keys never write |
| Keys.EditBinderKey | src/ui/app.rs:543-573 | Enter saves the edited binder, keeping the form open with the error on failure; other keys never write |
| Keys.ConfirmBinderDeleteKey | src/ui/app.rs:575-597 | `n` or Esc cancels; `y` deletes; any other key keeps the dialog |
| Keys.CloseEditor | src/ui/app.rs:655-662 | a closing song editor returns to the stashed search if there is one, clearing the stash, and otherwise to normal mode |
| Keys.EditSongKey | src/ui/app.rs:599-663 | Esc first dismisses a suggestion, then closes the editor; Enter with valid inputs updates the song; other keys never write |
| Keys.CreateSongKey | src/ui/app.rs:2118-2188 | an abort happens only on Enter for a binder that has vanished; invalid inputs keep the form with the error; other keys never write |
| Keys.SaveNewSong | src/ui/app.rs:2147-2172 | the song is created; with a binder it is also linked, aborting exactly when the binder is gone, with the three-message link chain; the lists are refreshed |
| Keys.ConfirmSongRemoveKey | src/ui/app.rs:665-691 | `n` or Esc cancels; `y` unlinks the song from the binder; any other key keeps the dialog |
| Keys.ConfirmSongDeleteKey | src/ui/app.rs:693-720 | `n` or Esc cancels; `y` deletes the song everywhere; any other key keeps the dialog |
| Keys.PairsFor | src/ui/app.rs:754-758 | one (binder, song) pair per ticked song, in order |
| Keys.LinkTicked | src/ui/app.rs:753-781 | ticked songs are linked in order until the store refuses one; the refusal is shown; the picker stays open only if nothing was linked |
| Keys.SelectSongKey | src/ui/app.rs:722-807 | Enter with ticks links them all; with no ticks it acts on the highlighted item; other keys never write or quit |
| Keys.FilterFor | src/ui/app.rs:809-1000 | a blank query means no filter; otherwise the query itself |
| Keys.SearchKey | src/ui/app.rs:809-1000 | Esc clears the filter and ends the search; typing and Backspace edit the query and re-filter; the search ends when its list is gone; nothing writes |
| Keys.Refilter | src/ui/app.rs:809-1000 | the current query is re-applied to the list and the search continues |
| Keys.ConfirmToPrintExitKey | src/ui/app.rs:2055-2116 | Esc and Cancel go back; arrows move the highlight; Discard leaves without linking; Apply links the ticked pairs; the program quits only on Apply or Discard from `q` |
| Keys.CtrlE | src/ui/app.rs:1048-1083 | only during a search: the search is stashed and the highlighted song's editor opens; with no highlighted song the mode returns to normal, with "No song selected to edit." on a song list |
| Keys.CtrlL | src/ui/app.rs:1085-1096 | on the manager the switch flips; elsewhere nothing changes |
| Keys.Dispatch | src/ui/terminal.rs:32-44 | Ctrl-E and Ctrl-L go to their handlers before the mode sees the key; other keys go to the mode's handler |
| KeyProperties.QuitsOnlyWhenSafe | src/ui/app.rs:156-182 | the program quits only from normal mode with nothing pending on the report, or by Enter in an exit dialog that was opened by `q` |
| KeyProperties.PendingChangesNeedConfirmation | src/ui/app.rs:471-486 | with ticked boxes pending, no key on the report quits or leaves it; `q`, Esc and `p` open the exit dialog |
| KeyProperties.NothingPendingLeavesDirectly | src/ui/app.rs:471-486 | with nothing pending, `q` quits at once and Esc returns to the grid |
| KeyProperties.CancelKeepsReport | src/ui/app.rs:2055-2116 | Esc, or Enter on Cancel, closes the exit dialog and keeps the report |
| KeyProperties.DiscardLinksNothing | src/ui/app.rs:2055-2116 | Discard leaves or quits without touching the store |
| KeyProperties.ApplyLinksTicked | src/ui/app.rs:2055-2116 | Apply links every ticked pair when the store accepts them all |
| KeyProperties.BatchLinksAllTicked | src/ui/app.rs:722-807 | Enter in the picker links every ticked song when the binder and the songs exist |
| KeyProperties.InPicker | src/ui/app.rs:156-182 | in the picker every key goes to the picker's handler, after the mode is taken out |
| KeyProperties.LinkTickedComplete | src/ui/app.rs:753-781 | when the binder and every ticked song exist, all are linked and the picker closes |
| KeyProperties.PairsForLinks | src/ui/app.rs:754-758 | the pairs asked for are exactly one per ticked song |
| KeyProperties.BatchRefusedAtOnceKeepsPicker | src/ui/app.rs:753-766 | when the store refuses the first ticked song, nothing is linked, the picker stays open and the error line shows the innermost cause `Error code 787: A foreign key constraint failed` |
| KeyProperties.CtrlEThenEscReturnsToSearch | src/ui/app.rs:1048-1083 | Ctrl-E during a search opens the editor, and cancelling the editor returns to the same search |
| KeyProperties.CtrlECharInSearchForgetsSearch | src/ui/app.rs:809-1000 | a Ctrl-E that reaches the search as a control character opens the editor without stashing the search, so cancelling the editor ends in normal mode |
| KeyProperties.TypingInSearchFilters | src/ui/app.rs:809-1000 | a visible character is appended to the query, and the list is filtered by it unless it is blank |
| KeyProperties.CtrlLTwiceRestores | src/ui/app.rs:1085-1096 | two Ctrl-L presses on the manager restore its switch and shown songs |
| KeyProperties.AddBinderSuggestsFreeNumber | src/ui/app.rs:210-215 | `+` on the grid opens the binder form with the next free number, focused on the number |
| KeyProperties.AbortsOnlyOnVanishedBinder | src/ui/app.rs:2147-2156 | the only key that ends in an uncaught error is Enter when creating a song for a binder that is gone |
| KeyProperties.NoAbortOutsideSongCreation | src/ui/app.rs:156-182 | in every mode other than song creation, a key press ends normally: each handler turns store errors into a status message |
| KeyProperties.OnlyConfirmationWrites | src/ui/app.rs:156-182 | only Enter, `y` or `Y` can change the store |
| Monolithic.StillNeeded | src/ui.rs:3310-3336 | the tally entries still needing copies, in the tally's own order |
| Monolithic.SongRowsOf | src/ui.rs:3310-3336 | one row per entry still needed, in first-seen order, or the placeholder alone |
| Monolithic.SameNumberNeeded | src/ui.rs:3310-3336 | both builds keep the same number of entries |
| Monolithic.SameRowsAsSplit | src/ui.rs:3310-3336 | both builds show the same rows, possibly in a different order |
| Monolithic.FirstSeenOrderDiffers | src/ui.rs:3310-3336 | two songs met out of title order stay out of order in the single-file build but not in the split one |
| Monolithic.RefreshSongRows | src/ui.rs:3310-3336 | the rows are rebuilt and, in the song view, the selection is clamped |
| Monolithic.RefreshLikeSplit | src/ui.rs:3310-3336 | selection and scrolling come out as in the split build; only the row order differs |
| Monolithic.SelectSongKey | src/ui.rs:856-903 | Enter links the highlighted song alone, staying in the picker with the error on refusal; the space bar does nothing |
| Monolithic.AgreesWhenNothingTicked | src/ui.rs:856-903 | with nothing ticked, both pickers react to every key except the space bar in the same way |
| Monolithic.LinksOnlyHighlighted | src/ui.rs:883-900 | Enter links at most the highlighted song, whatever else is ticked |

## Left out

- Rendering. This covers the `draw_*` methods, `footer_instructions`,
  `build_line`, `value_len`, `render_song_cards`, `split_rows`/`split_columns`,
  `centered_rect`, `display_lines` and the styles. These are presentation
  only. Only the text and structure of rows and cover lines are modelled.
- The terminal driver (`src/ui/terminal.rs`, `run_app`, `cleanup_terminal`).
  Raw mode, the alternate screen and event polling are I/O. The driver is a
  sequence of key presses, and its Ctrl-E/Ctrl-L routing is `Keys.Dispatch`.
- Opening a link in a browser is a call into the operating system. It is
  the `Keys.Opener` parameter, and only its success or failure matters.
- SQL text, rusqlite and the database file. Also left out:
  - `src/db/connection.rs` (path and DDL) and `src/main.rs` (bootstrap);
  - the module layout of `src/db.rs` versus `src/db/mod.rs`.
  The tables and constraints are modelled by `Store`.
- Failures of reads and of I/O inside the store. Fetches always succeed in
  the model. The `?` after a failed refresh is therefore unreachable. The
  one reachable fatal `?`, the link after creating a song for a vanished
  binder, is the `Aborted` step.
- `AddSongState::load_director_song_ids`. Its result is never read.
- Unicode. Case folding is ASCII only. Byte lengths versus character
  lengths are not distinguished. Whitespace is the Unicode White_Space set,
  and control characters are category Cc.
- Controller.NextBinderNumber: does not model `i64` overflow when the
  highest number is `i64::MAX`, because numbers are unbounded here.
- Reconcile.ReportFor: states the order of missing songs as a subsequence
  of the director's list rather than through the exact iteration.
- Ties in the song order. Songs that compare equal by title and composer
  keep their insertion order here. SQLite leaves their order unspecified.
- Keys.NormalKey: states only that the store is unchanged. What each screen
  does with a key is stated by the per-screen handlers and by the
  `KeyProperties` lemmas.
- ToPrint.ToggleCurrent: out-of-range row indices are guarded here. In the
  Rust code they would panic, but the report invariant rules them out.
- The single-file build's remaining handlers are not modelled separately.
  These are the grid moves, binder cycling, `toggle_current`,
  `pending_assignments`, `open_to_print_view`, Ctrl-E handling and the
  dialogs. They are textually the same as the split controller's, so the
  split model stands for them.
- The binder's `label` field is called `labelText`, because `label` is a
  Dafny keyword.
