/** The "To Print" report (`ToPrintScreen`): for every binder, the songs of
    the director's binder (number 0) it lacks, each with a checkbox meaning
    "a copy has been added"; a per-song tally of copies still needed; and two
    row projections, grouped by binder and grouped by song. */
module ToPrint {
  import opened Outcomes
  import opened Text
  import opened Models
  import Store
  import Seqs
  import SongLists

  const PLACEHOLDER := "No songs need printing."
  /** The scroll offset is a `u16`. */
  const SCROLL_RANGE := 0x1_0000
  /** Rows kept visible above the selection. */
  const SCROLL_MARGIN := 3

  datatype MissingSong = MissingSong(song: Song, checked: bool)

  datatype BinderReport = BinderReport(binderId: int, binderNumber: int, binderLabel: string, songs: seq<MissingSong>)

  datatype RowKind = Header | Entry

  datatype BinderRow = BinderRow(kind: RowKind, text: string, binderIndex: Option<nat>, songIndex: Option<nat>)

  datatype SongNeeded = SongNeeded(song: Song, needed: nat)

  datatype SongRow = SongRow(text: string, song: Option<Song>)

  datatype Mode = ByBinder | BySong

  datatype Screen = Screen(
    directorExists: bool,
    mode: Mode,
    reports: seq<BinderReport>,
    binderRows: seq<BinderRow>,
    totals: seq<SongNeeded>,
    songRows: seq<SongRow>,
    scroll: nat,
    selected: nat,
    pending: nat)

  // ---------------------------------------------------------------------
  // Entries across all reports
  // ---------------------------------------------------------------------

  /** Every missing-song entry, report by report. */
  function Flatten(reports: seq<BinderReport>): (r: seq<MissingSong>)
    decreases |reports|
  {
    if |reports| == 0 then [] else reports[0].songs + Flatten(reports[1..])
  }

  function IsChecked(): MissingSong -> bool {
    (m: MissingSong) => m.checked
  }

  /** Entries for song `id` whose box is still empty. */
  function UncheckedWithId(id: int): MissingSong -> bool {
    (m: MissingSong) => !m.checked && m.song.id == id
  }

  function WithId(id: int): MissingSong -> bool {
    (m: MissingSong) => m.song.id == id
  }

  function CheckedCount(reports: seq<BinderReport>): nat {
    Seqs.CountIf(Flatten(reports), IsChecked())
  }

  predicate ValidEntry(reports: seq<BinderReport>, b: nat, j: nat) {
    b < |reports| && j < |reports[b].songs|
  }

  /** The reports with the box of entry `j` of report `b` flipped. */
  function Flip(reports: seq<BinderReport>, b: nat, j: nat): (r: seq<BinderReport>)
    requires ValidEntry(reports, b, j)
    ensures |r| == |reports|
    ensures forall k | 0 <= k < |r| ::
      && r[k].binderId == reports[k].binderId
      && r[k].binderNumber == reports[k].binderNumber
      && r[k].binderLabel == reports[k].binderLabel
      && |r[k].songs| == |reports[k].songs|
    ensures r[b].songs[j] == reports[b].songs[j].(checked := !reports[b].songs[j].checked)
    ensures forall k, i | 0 <= k < |r| && 0 <= i < |r[k].songs| && (k, i) != (b, j) ::
      r[k].songs[i] == reports[k].songs[i]
  {
    var was := reports[b].songs[j];
    reports[b := reports[b].(songs := reports[b].songs[j := was.(checked := !was.checked)])]
  }

  /** Flipping one box changes any count over the entries by exactly what
      the entry contributed before and after. */
  lemma {:induction false} FlipCount(reports: seq<BinderReport>, b: nat, j: nat, f: MissingSong -> bool)
    requires ValidEntry(reports, b, j)
    ensures var m := reports[b].songs[j];
      Seqs.CountIf(Flatten(Flip(reports, b, j)), f) + (if f(m) then 1 else 0)
        == Seqs.CountIf(Flatten(reports), f) + (if f(m.(checked := !m.checked)) then 1 else 0)
    decreases b
  {
    var flipped := Flip(reports, b, j);
    var m := reports[b].songs[j];
    assert Flatten(flipped) == flipped[0].songs + Flatten(flipped[1..]);
    assert Flatten(reports) == reports[0].songs + Flatten(reports[1..]);
    Seqs.CountIfAppend(flipped[0].songs, Flatten(flipped[1..]), f);
    Seqs.CountIfAppend(reports[0].songs, Flatten(reports[1..]), f);
    if b == 0 {
      assert flipped[1..] == reports[1..];
      assert flipped[0].songs == reports[0].songs[j := m.(checked := !m.checked)];
      Seqs.CountIfUpdate(reports[0].songs, j, m.(checked := !m.checked), f);
    } else {
      assert flipped[0] == reports[0];
      assert flipped[1..] == Flip(reports[1..], b - 1, j);
      FlipCount(reports[1..], b - 1, j, f);
    }
  }

  /** An entry of a report is among the flattened entries. */
  lemma {:induction false} EntryInFlatten(reports: seq<BinderReport>, b: nat, j: nat, f: MissingSong -> bool)
    requires ValidEntry(reports, b, j) && f(reports[b].songs[j])
    ensures Seqs.CountIf(Flatten(reports), f) >= 1
    decreases b
  {
    assert Flatten(reports) == reports[0].songs + Flatten(reports[1..]);
    Seqs.CountIfAppend(reports[0].songs, Flatten(reports[1..]), f);
    if b == 0 {
      Seqs.CountIfMember(reports[0].songs, j, f);
    } else {
      EntryInFlatten(reports[1..], b - 1, j, f);
    }
  }

  // ---------------------------------------------------------------------
  // Rows grouped by binder
  // ---------------------------------------------------------------------

  /** `"Binder {:02} • {label}"`. */
  function HeaderText(r: BinderReport): string {
    "Binder " + Pad2(r.binderNumber) + " • " + r.binderLabel
  }

  /** `"[x] "` or `"[ ] "` before the song's display title. */
  function EntryText(m: MissingSong): (t: string)
    ensures StartsWith(t, if m.checked then "[x] " else "[ ] ")
    ensures |t| == 4 + |DisplayTitle(m.song)| && t[4..] == DisplayTitle(m.song)
  {
    (if m.checked then "[x]" else "[ ]") + " " + DisplayTitle(m.song)
  }

  /** What a row must say about the report it points into. */
  predicate RowPointsInto(reports: seq<BinderReport>, row: BinderRow) {
    && row.binderIndex.Some? && row.binderIndex.value < |reports|
    && (row.kind == Header <==> row.songIndex.None?)
    && (row.kind == Header ==> row.text == HeaderText(reports[row.binderIndex.value]))
    && (row.kind == Entry ==>
          && row.songIndex.value < |reports[row.binderIndex.value].songs|
          && row.text == EntryText(reports[row.binderIndex.value].songs[row.songIndex.value]))
  }

  predicate RowsWellFormed(reports: seq<BinderReport>, rows: seq<BinderRow>) {
    forall i | 0 <= i < |rows| :: RowPointsInto(reports, rows[i])
  }

  function ReportRows(r: BinderReport, b: nat): (rows: seq<BinderRow>)
    ensures |rows| == |r.songs| + 1
  {
    [BinderRow(Header, HeaderText(r), Some(b), None)]
      + seq(|r.songs|, j requires 0 <= j < |r.songs| =>
          BinderRow(Entry, EntryText(r.songs[j]), Some(b), Some(j)))
  }

  function RowsFrom(reports: seq<BinderReport>, k: nat): (rows: seq<BinderRow>)
    requires k <= |reports|
    decreases |reports| - k
  {
    if k == |reports| then [] else ReportRows(reports[k], k) + RowsFrom(reports, k + 1)
  }

  lemma ReportRowsWellFormed(reports: seq<BinderReport>, k: nat)
    requires k < |reports|
    ensures RowsWellFormed(reports, ReportRows(reports[k], k))
  {
    var rows := ReportRows(reports[k], k);
    forall i | 0 <= i < |rows|
      ensures RowPointsInto(reports, rows[i])
    {
    }
  }

  lemma WellFormedAppend(reports: seq<BinderReport>, xs: seq<BinderRow>, ys: seq<BinderRow>)
    requires RowsWellFormed(reports, xs) && RowsWellFormed(reports, ys)
    ensures RowsWellFormed(reports, xs + ys)
  {
    forall i | 0 <= i < |xs + ys|
      ensures RowPointsInto(reports, (xs + ys)[i])
    {
      if i >= |xs| {
        assert (xs + ys)[i] == ys[i - |xs|];
      }
    }
  }

  lemma {:induction false} RowsFromWellFormed(reports: seq<BinderReport>, k: nat)
    requires k <= |reports|
    ensures RowsWellFormed(reports, RowsFrom(reports, k))
    ensures |RowsFrom(reports, k)| == (|reports| - k) + |Flatten(reports[k..])|
    decreases |reports| - k
  {
    if k < |reports| {
      RowsFromWellFormed(reports, k + 1);
      var head := ReportRows(reports[k], k);
      var tail := RowsFrom(reports, k + 1);
      assert RowsFrom(reports, k) == head + tail;
      ReportRowsWellFormed(reports, k);
      WellFormedAppend(reports, head, tail);
      assert reports[k..][1..] == reports[k + 1..];
      assert Flatten(reports[k..]) == reports[k].songs + Flatten(reports[k + 1..]);
    } else {
      assert reports[k..] == [];
    }
  }

  /** `refresh_binder_rows` without the selection step: a header per report
      followed by one row per missing song, each row pointing at the entry
      it shows. */
  function BuildBinderRows(reports: seq<BinderReport>): (rows: seq<BinderRow>)
    ensures RowsWellFormed(reports, rows)
    ensures |rows| == |reports| + |Flatten(reports)|
  {
    RowsFromWellFormed(reports, 0);
    assert reports[0..] == reports;
    RowsFrom(reports, 0)
  }

  // ---------------------------------------------------------------------
  // Rows grouped by song
  // ---------------------------------------------------------------------

  function Positive(): SongNeeded -> bool {
    (e: SongNeeded) => e.needed > 0
  }

  /** Lower-cased title, then lower-cased composer. */
  predicate NeededLe(a: SongNeeded, b: SongNeeded) {
    Store.SongLe(a.song, b.song)
  }

  /** The entries still needing copies, in title-then-composer order. */
  function NeedsPrinting(totals: seq<SongNeeded>): (r: seq<SongNeeded>)
    ensures multiset(r) == multiset(Seqs.Filter(totals, Positive()))
    ensures forall e :: e in r <==> e in totals && e.needed > 0
    ensures Seqs.SortedBy(r, NeededLe)
  {
    Store.SongLeTotalPreorder();
    Seqs.SortBySorted(Seqs.Filter(totals, Positive()), NeededLe);
    var r := Seqs.SortBy(Seqs.Filter(totals, Positive()), NeededLe);
    assert forall e :: e in r <==> e in multiset(r);
    r
  }

  /** The bracketed count's closing: " copy)" for one, " copies)" otherwise. */
  function UnitSuffix(needed: nat): string {
    if needed == 1 then " copy)" else " copies)"
  }

  /** `SongRow::from_needed`: the display title, then the number of copies
      still needed in brackets, with "copy" for one and "copies" otherwise. */
  function FromNeeded(e: SongNeeded): (row: SongRow)
    ensures row.song == Some(e.song)
    ensures StartsWith(row.text, DisplayTitle(e.song) + "  (")
    ensures EndsWith(row.text, " copy)") <==> e.needed == 1
    ensures e.needed != 1 ==> EndsWith(row.text, " copies)")
  {
    var opening := DisplayTitle(e.song) + "  (";
    var head := opening + NatToString(e.needed);
    assert (head + UnitSuffix(e.needed))[..|opening|] == opening;
    EndsWithAppend(head, UnitSuffix(e.needed), " copy)");
    EndsWithAppend(head, UnitSuffix(e.needed), UnitSuffix(e.needed));
    assert !EndsWith(" copies)", " copy)") by {
      assert " copies)"[2..][1] != " copy)"[1];
    }
    SongRow(head + UnitSuffix(e.needed), Some(e.song))
  }

  /** The text between the title's `"  ("` and the unit word is the count
      in decimal, and it reads back as the count. */
  lemma FromNeededNamesCount(e: SongNeeded)
    ensures var t := FromNeeded(e).text;
      var start := |DisplayTitle(e.song)| + 3;
      && start + |UnitSuffix(e.needed)| <= |t|
      && t[start..|t| - |UnitSuffix(e.needed)|] == NatToString(e.needed)
      && Fold(0, t[start..|t| - |UnitSuffix(e.needed)|]) == e.needed
  {
    var t := FromNeeded(e).text;
    var start := |DisplayTitle(e.song)| + 3;
    assert t[start..|t| - |UnitSuffix(e.needed)|] == NatToString(e.needed);
    FoldNatToString(e.needed);
  }

  /** The song-grouped rows: one per song still needed, or the placeholder
      alone, so never empty. */
  function SongRowsOf(totals: seq<SongNeeded>): (rows: seq<SongRow>)
    ensures |rows| >= 1
    ensures |NeedsPrinting(totals)| == 0 ==> rows == [SongRow(PLACEHOLDER, None)]
    ensures |NeedsPrinting(totals)| > 0 ==>
      |rows| == |NeedsPrinting(totals)|
      && forall i | 0 <= i < |rows| :: rows[i] == FromNeeded(NeedsPrinting(totals)[i])
  {
    var needs := NeedsPrinting(totals);
    if |needs| == 0 then [SongRow(PLACEHOLDER, None)]
    else seq(|needs|, i requires 0 <= i < |needs| => FromNeeded(needs[i]))
  }

  /** Song rows come in title-then-composer order. */
  lemma SongRowsOrdered(totals: seq<SongNeeded>, i: nat, j: nat)
    requires i < j < |SongRowsOf(totals)| && SongRowsOf(totals)[j].song.Some?
    ensures SongRowsOf(totals)[i].song.Some?
    ensures Store.SongLe(SongRowsOf(totals)[i].song.value, SongRowsOf(totals)[j].song.value)
  {
    var needs := NeedsPrinting(totals);
    assert |needs| > 0;
    assert NeededLe(needs[i], needs[j]);
  }

  /** Every song with copies still needed has a row. */
  lemma SongRowsCoverNeeds(totals: seq<SongNeeded>, e: SongNeeded)
    requires e in totals && e.needed > 0
    ensures exists i | 0 <= i < |SongRowsOf(totals)| :: SongRowsOf(totals)[i].song == Some(e.song)
  {
    var needs := NeedsPrinting(totals);
    var rows := SongRowsOf(totals);
    var i :| 0 <= i < |needs| && needs[i] == e;
    assert rows[i].song == Some(e.song);
  }

  // ---------------------------------------------------------------------
  // Selection and scrolling
  // ---------------------------------------------------------------------

  function CurrentLen(s: Screen): nat {
    match s.mode
    case ByBinder => |s.binderRows|
    case BySong => |s.songRows|
  }

  /** `max_scroll`: the last row index, as a `u16`. */
  function MaxScroll(s: Screen): (m: nat)
    ensures m < SCROLL_RANGE
    ensures s.directorExists && 0 < CurrentLen(s) <= SCROLL_RANGE ==> m == CurrentLen(s) - 1
  {
    if !s.directorExists then 0
    else (if CurrentLen(s) > 0 then CurrentLen(s) - 1 else 0) % SCROLL_RANGE
  }

  /** `update_scroll`: keeps three rows above the selection in view, never
      past the last row; resets everything when there is nothing to show. */
  function UpdateScroll(s: Screen): (r: Screen)
    ensures r == s.(scroll := r.scroll, selected := r.selected)
    ensures r.scroll < SCROLL_RANGE
    ensures !s.directorExists || CurrentLen(s) == 0 ==> r.scroll == 0 && r.selected == 0
    ensures s.directorExists && CurrentLen(s) > 0 ==> r.selected == s.selected && r.scroll <= MaxScroll(s)
    ensures s.directorExists && s.selected < CurrentLen(s) <= SCROLL_RANGE ==>
      r.scroll == (if s.selected >= SCROLL_MARGIN then s.selected - SCROLL_MARGIN else 0)
  {
    if !s.directorExists || CurrentLen(s) == 0 then s.(scroll := 0, selected := 0)
    else
      var desired := (if s.selected >= SCROLL_MARGIN then s.selected - SCROLL_MARGIN else 0) % SCROLL_RANGE;
      var max := MaxScroll(s);
      s.(scroll := if desired < max then desired else max)
  }

  /** Clamp the selection into the current rows, then scroll. */
  function Settle(s: Screen): (r: Screen)
    ensures r == s.(scroll := r.scroll, selected := r.selected)
    ensures s.directorExists ==> SongLists.InBounds(r.selected, CurrentLen(s))
  {
    UpdateScroll(s.(selected := SongLists.Clamp(s.selected, CurrentLen(s))))
  }

  /** `refresh_binder_rows`. Without a director the rows are cleared and
      nothing else is touched. */
  function RefreshBinderRows(s: Screen): (r: Screen)
    ensures !s.directorExists ==> r == s.(binderRows := [])
    ensures s.directorExists ==> r.binderRows == BuildBinderRows(s.reports)
    ensures r == s.(binderRows := r.binderRows, scroll := r.scroll, selected := r.selected)
    ensures s.directorExists && s.mode == ByBinder ==> SongLists.InBounds(r.selected, |r.binderRows|)
    ensures s.mode == BySong ==> r.selected == s.selected && r.scroll == s.scroll
  {
    if !s.directorExists then s.(binderRows := [])
    else
      var s1 := s.(binderRows := BuildBinderRows(s.reports));
      if s.mode == ByBinder then Settle(s1) else s1
  }

  /** `refresh_song_rows`. */
  function RefreshSongRows(s: Screen): (r: Screen)
    ensures r.songRows == SongRowsOf(s.totals)
    ensures r == s.(songRows := r.songRows, scroll := r.scroll, selected := r.selected)
    ensures s.directorExists && s.mode == BySong ==> SongLists.InBounds(r.selected, |r.songRows|)
    ensures s.mode == ByBinder ==> r.selected == s.selected && r.scroll == s.scroll
  {
    var s1 := s.(songRows := SongRowsOf(s.totals));
    if s.mode == BySong then Settle(s1) else s1
  }

  /** `ToPrintScreen::with_data`: the binder view, nothing ticked yet. */
  function WithData(reports: seq<BinderReport>, totals: seq<SongNeeded>): (s: Screen)
    ensures s.directorExists && s.mode == ByBinder && s.pending == 0
    ensures s.reports == reports && s.totals == totals
    ensures s.binderRows == BuildBinderRows(reports) && s.songRows == SongRowsOf(totals)
    ensures SongLists.InBounds(s.selected, |s.binderRows|)
  {
    var s0 := Screen(true, ByBinder, reports, [], totals, [], 0, 0, 0);
    RefreshSongRows(RefreshBinderRows(s0))
  }

  /** `ToPrintScreen::missing_director`. */
  function MissingDirector(): (s: Screen)
    ensures !s.directorExists && s.reports == [] && s.totals == [] && s.pending == 0
    ensures s.binderRows == [] && s.songRows == []
  {
    Screen(false, ByBinder, [], [], [], [], 0, 0, 0)
  }

  /** `toggle_mode`: switches grouping and returns to the top. */
  function ToggleMode(s: Screen): (r: Screen)
    ensures !s.directorExists ==> r == s
    ensures s.directorExists ==>
      && r.mode != s.mode && r.selected == 0 && r.scroll == 0
      && r == s.(mode := r.mode, selected := 0, scroll := 0)
  {
    if !s.directorExists then s
    else
      var mode := if s.mode == ByBinder then BySong else ByBinder;
      UpdateScroll(s.(mode := mode, selected := 0, scroll := 0))
  }

  function MoveSelection(s: Screen, delta: int): (r: Screen)
    ensures !s.directorExists ==> r == s
    ensures s.directorExists ==> SongLists.InBounds(r.selected, CurrentLen(s))
    ensures s.directorExists && CurrentLen(s) > 0 ==>
      r.selected == SongLists.MoveClamped(s.selected, CurrentLen(s), delta)
    ensures r == s.(scroll := r.scroll, selected := r.selected)
  {
    if !s.directorExists then s
    else if CurrentLen(s) == 0 then s.(selected := 0, scroll := 0)
    else UpdateScroll(s.(selected := SongLists.MoveClamped(s.selected, CurrentLen(s), delta)))
  }

  function SelectFirst(s: Screen): (r: Screen)
    ensures !s.directorExists ==> r == s
    ensures s.directorExists ==> r.selected == 0
    ensures r == s.(scroll := r.scroll, selected := r.selected)
  {
    if !s.directorExists then s else UpdateScroll(s.(selected := 0))
  }

  function SelectLast(s: Screen): (r: Screen)
    ensures !s.directorExists ==> r == s
    ensures s.directorExists && CurrentLen(s) > 0 ==> r.selected == CurrentLen(s) - 1
    ensures s.directorExists && CurrentLen(s) == 0 ==> r.selected == 0
    ensures r == s.(scroll := r.scroll, selected := r.selected)
  {
    if !s.directorExists then s
    else UpdateScroll(s.(selected := if CurrentLen(s) == 0 then 0 else CurrentLen(s) - 1))
  }

  /** `current_song` of the song view: the song of the highlighted row;
      nothing for the placeholder or in the binder view. */
  function CurrentSong(s: Screen): (r: Option<Song>)
    ensures r.Some? ==>
      && s.directorExists && s.mode == BySong && s.selected < |s.songRows|
      && s.songRows[s.selected].song == r
    ensures s.directorExists && s.mode == BySong && s.selected < |s.songRows| ==>
      r == s.songRows[s.selected].song
    ensures !s.directorExists || s.mode != BySong || s.selected >= |s.songRows| ==> r.None?
  {
    if !s.directorExists || s.mode != BySong || s.selected >= |s.songRows| then None
    else s.songRows[s.selected].song
  }

  /** Once the song rows are rebuilt from the tally, the highlighted song is
      one that still needs copies; the placeholder row yields none. */
  lemma CurrentSongNeedsCopies(s: Screen)
    requires s.songRows == SongRowsOf(s.totals)
    ensures CurrentSong(s).Some? ==>
      exists e | e in s.totals :: e.song == CurrentSong(s).value && e.needed > 0
    ensures |NeedsPrinting(s.totals)| == 0 ==> CurrentSong(s).None?
  {
    if CurrentSong(s).Some? {
      var needs := NeedsPrinting(s.totals);
      assert |needs| > 0;
      var e := needs[s.selected];
      assert s.songRows[s.selected] == FromNeeded(e);
      assert e in s.totals && e.song == CurrentSong(s).value;
    }
  }

  // ---------------------------------------------------------------------
  // Ticking boxes
  // ---------------------------------------------------------------------

  /** The tally change of `adjust_song_needed`: the first entry for the
      song moves by `delta`, never below zero; an unknown song changes
      nothing. */
  function AdjustTotals(totals: seq<SongNeeded>, songId: int, delta: int): (r: seq<SongNeeded>)
    ensures |r| == |totals|
    ensures forall k | 0 <= k < |totals| :: r[k].song == totals[k].song
    ensures match Seqs.FindIndex(totals, IsFor(songId))
      case None => r == totals
      case Some(k) =>
        && r[k].needed == (if totals[k].needed + delta < 0 then 0 else totals[k].needed + delta)
        && forall i | 0 <= i < |totals| && i != k :: r[i] == totals[i]
  {
    match Seqs.FindIndex(totals, IsFor(songId))
    case None => totals
    case Some(k) =>
      var e := totals[k];
      totals[k := e.(needed := if e.needed + delta < 0 then 0 else e.needed + delta)]
  }

  /** `adjust_song_needed`: adjusts the tally, then rebuilds the song
      rows. */
  function AdjustSongNeeded(s: Screen, songId: int, delta: int): (r: Screen)
    ensures r.totals == AdjustTotals(s.totals, songId, delta)
    ensures r.songRows == SongRowsOf(r.totals)
    ensures r == s.(totals := r.totals, songRows := r.songRows, scroll := r.scroll, selected := r.selected)
    ensures s.mode == ByBinder ==> r.selected == s.selected && r.scroll == s.scroll
  {
    RefreshSongRows(s.(totals := AdjustTotals(s.totals, songId, delta)))
  }

  function IsFor(songId: int): SongNeeded -> bool {
    (e: SongNeeded) => e.song.id == songId
  }

  /** `toggle_current`: in the binder view, on a song row, flips that box,
      moves the pending counter (+1, or -1 saturating) and the song's tally
      (-1, or +1), and rebuilds the rows; reports the new box state. Rows
      whose indices do not point into the reports are ignored (the program
      would panic; `Inv` rules them out). */
  function ToggleCurrent(s: Screen): (r: (Screen, Option<bool>))
    ensures r.1.None? ==> r.0 == s
    ensures r.1.Some? <==>
      && s.directorExists && s.mode == ByBinder && s.selected < |s.binderRows|
      && s.binderRows[s.selected].kind == Entry
      && s.binderRows[s.selected].binderIndex.Some? && s.binderRows[s.selected].songIndex.Some?
      && ValidEntry(s.reports, s.binderRows[s.selected].binderIndex.value, s.binderRows[s.selected].songIndex.value)
    ensures r.1.Some? ==>
      var b := s.binderRows[s.selected].binderIndex.value;
      var j := s.binderRows[s.selected].songIndex.value;
      && r.1.value == !s.reports[b].songs[j].checked
      && r.0.reports == Flip(s.reports, b, j)
      && r.0.pending == (if r.1.value then s.pending + 1 else if s.pending > 0 then s.pending - 1 else 0)
      && r.0.totals == AdjustTotals(s.totals, s.reports[b].songs[j].song.id, if r.1.value then -1 else 1)
      && r.0.binderRows == BuildBinderRows(r.0.reports)
      && r.0.songRows == SongRowsOf(r.0.totals)
      && r.0.directorExists && r.0.mode == ByBinder
  {
    if !s.directorExists || s.mode != ByBinder || s.selected >= |s.binderRows| then (s, None)
    else
      var row := s.binderRows[s.selected];
      if row.kind != Entry || row.binderIndex.None? || row.songIndex.None? then (s, None)
      else
        var b := row.binderIndex.value;
        var j := row.songIndex.value;
        if !ValidEntry(s.reports, b, j) then (s, None)
        else
          var entry := s.reports[b].songs[j];
          var nowChecked := !entry.checked;
          var s1 := s.(reports := Flip(s.reports, b, j));
          var s2 :=
            if nowChecked then AdjustSongNeeded(s1.(pending := s.pending + 1), entry.song.id, -1)
            else AdjustSongNeeded(s1.(pending := if s.pending > 0 then s.pending - 1 else 0), entry.song.id, 1);
          (RefreshBinderRows(s2), Some(nowChecked))
  }

  function HasPendingChanges(s: Screen): bool {
    s.pending > 0
  }

  /** The pair (binder id, song id) of each entry, in order. */
  function PairsWith(binderId: int, entries: seq<MissingSong>): (a: seq<(int, int)>)
    ensures |a| == |entries|
    ensures forall p :: p in a <==> exists m | m in entries :: p == (binderId, m.song.id)
  {
    var a := seq(|entries|, i requires 0 <= i < |entries| => (binderId, entries[i].song.id));
    forall p | exists m | m in entries :: p == (binderId, m.song.id)
      ensures p in a
    {
      var m :| m in entries && p == (binderId, m.song.id);
      var i :| 0 <= i < |entries| && entries[i] == m;
      assert a[i] == p;
    }
    a
  }

  /** Taking pairs keeps the order of a subsequence. */
  lemma {:induction false} PairsWithSubseq(binderId: int, xs: seq<MissingSong>, ys: seq<MissingSong>)
    requires Seqs.IsSubseq(xs, ys)
    ensures Seqs.IsSubseq(PairsWith(binderId, xs), PairsWith(binderId, ys))
    decreases |ys|
  {
    var px := PairsWith(binderId, xs);
    var py := PairsWith(binderId, ys);
    if |xs| > 0 {
      assert py[1..] == PairsWith(binderId, ys[1..]);
      if xs[0] == ys[0] && Seqs.IsSubseq(xs[1..], ys[1..]) {
        assert px[1..] == PairsWith(binderId, xs[1..]);
        PairsWithSubseq(binderId, xs[1..], ys[1..]);
      } else {
        PairsWithSubseq(binderId, xs, ys[1..]);
      }
    }
  }

  /** The ticked entries of one report, as pairs, in the report's order. */
  function ReportAssignments(r: BinderReport): (a: seq<(int, int)>)
    ensures |a| == Seqs.CountIf(r.songs, IsChecked())
    ensures forall p :: p in a <==> exists m | m in r.songs :: m.checked && p == (r.binderId, m.song.id)
    ensures Seqs.IsSubseq(a, PairsWith(r.binderId, r.songs))
  {
    var ticked := Seqs.Filter(r.songs, IsChecked());
    Seqs.FilterLength(r.songs, IsChecked());
    PairsWithSubseq(r.binderId, ticked, r.songs);
    PairsWith(r.binderId, ticked)
  }

  /** `pending_assignments`: the (binder id, song id) pair of every ticked
      box, report by report and in song order within a report. */
  function Assignments(reports: seq<BinderReport>): (a: seq<(int, int)>)
    ensures |a| == CheckedCount(reports)
    ensures forall p :: p in a <==>
      exists k | 0 <= k < |reports| :: exists m | m in reports[k].songs :: m.checked && p == (reports[k].binderId, m.song.id)
    decreases |reports|
  {
    if |reports| == 0 then []
    else
      var head := ReportAssignments(reports[0]);
      var rest := Assignments(reports[1..]);
      Seqs.CountIfAppend(reports[0].songs, Flatten(reports[1..]), IsChecked());
      forall p
        ensures p in head + rest <==>
          exists k | 0 <= k < |reports| :: exists m | m in reports[k].songs :: m.checked && p == (reports[k].binderId, m.song.id)
      {
        if exists k | 0 <= k < |reports| :: exists m | m in reports[k].songs :: m.checked && p == (reports[k].binderId, m.song.id) {
          var k :| 0 <= k < |reports| && exists m | m in reports[k].songs :: m.checked && p == (reports[k].binderId, m.song.id);
          if k > 0 {
            assert reports[1..][k - 1] == reports[k];
          }
        }
        if p in rest {
          var k :| 0 <= k < |reports[1..]| && exists m | m in reports[1..][k].songs :: m.checked && p == (reports[1..][k].binderId, m.song.id);
          assert reports[1..][k] == reports[k + 1];
        }
      }
      head + rest
  }

  /** The pairs of a run of reports are those of its first part followed by
      those of the rest: report order is kept. */
  lemma {:induction false} AssignmentsAppend(xs: seq<BinderReport>, ys: seq<BinderReport>)
    ensures Assignments(xs + ys) == Assignments(xs) + Assignments(ys)
    decreases |xs|
  {
    if |xs| == 0 {
      assert xs + ys == ys;
    } else {
      assert (xs + ys)[0] == xs[0];
      assert (xs + ys)[1..] == xs[1..] + ys;
      AssignmentsAppend(xs[1..], ys);
    }
  }

  /** `pending_assignments`: the pairs of the ticked boxes, in report order
      and song order within a report. */
  function PendingAssignments(s: Screen): (a: seq<(int, int)>)
    ensures |a| == CheckedCount(s.reports)
    ensures a == Assignments(s.reports)
    ensures forall p :: p in a <==>
      exists k | 0 <= k < |s.reports| :: exists m | m in s.reports[k].songs :: m.checked && p == (s.reports[k].binderId, m.song.id)
  {
    Assignments(s.reports)
  }

  // ---------------------------------------------------------------------
  // What the screen keeps true
  // ---------------------------------------------------------------------

  /** The tally agrees with the boxes: one entry per song, each counting the
      song's still-empty boxes, and an entry for every song that has a box. */
  ghost predicate TallyTracks(reports: seq<BinderReport>, totals: seq<SongNeeded>) {
    && (forall k1, k2 | 0 <= k1 < k2 < |totals| :: totals[k1].song.id != totals[k2].song.id)
    && (forall k | 0 <= k < |totals| ::
          totals[k].needed == Seqs.CountIf(Flatten(reports), UncheckedWithId(totals[k].song.id)))
    && (forall b: nat, j: nat | ValidEntry(reports, b, j) ::
          exists k | 0 <= k < |totals| :: totals[k].song.id == reports[b].songs[j].song.id)
  }

  ghost predicate Inv(s: Screen) {
    && (s.directorExists ==> s.binderRows == BuildBinderRows(s.reports) && s.songRows == SongRowsOf(s.totals))
    && (!s.directorExists ==> s.reports == [] && s.binderRows == [])
    && s.pending == CheckedCount(s.reports)
    && TallyTracks(s.reports, s.totals)
  }

  /** With no box ticked the pending counter (zero) counts the ticked boxes. */
  lemma {:induction false} NoneCheckedCountsZero(reports: seq<BinderReport>)
    requires forall b: nat, j: nat | ValidEntry(reports, b, j) :: !reports[b].songs[j].checked
    ensures CheckedCount(reports) == 0
    decreases |reports|
  {
    if |reports| > 0 {
      NoneCheckedCountsZero(reports[1..]) by {
        forall b: nat, j: nat | ValidEntry(reports[1..], b, j)
          ensures !reports[1..][b].songs[j].checked
        {
          assert reports[1..][b] == reports[b + 1];
        }
      }
      Seqs.CountIfAppend(reports[0].songs, Flatten(reports[1..]), IsChecked());
      NoneTicked(reports[0].songs);
    }
  }

  lemma {:induction false} NoneTicked(songs: seq<MissingSong>)
    requires forall j | 0 <= j < |songs| :: !songs[j].checked
    ensures Seqs.CountIf(songs, IsChecked()) == 0
    decreases |songs|
  {
    if |songs| > 0 {
      NoneTicked(songs[1..]);
    }
  }

  /** A report built with empty boxes and a matching tally starts out
      consistent. */
  lemma WithDataInv(reports: seq<BinderReport>, totals: seq<SongNeeded>)
    requires forall b: nat, j: nat | ValidEntry(reports, b, j) :: !reports[b].songs[j].checked
    requires TallyTracks(reports, totals)
    ensures Inv(WithData(reports, totals))
  {
    NoneCheckedCountsZero(reports);
  }

  lemma MissingDirectorInv()
    ensures Inv(MissingDirector())
  {
    assert Flatten([]) == [];
  }

  /** Under the invariant a toggle acts exactly on song rows of the binder
      view: the index guards never fire. */
  lemma ToggleCurrentActsOnSongRows(s: Screen)
    requires Inv(s)
    ensures ToggleCurrent(s).1.Some? <==>
      s.directorExists && s.mode == ByBinder && s.selected < |s.binderRows|
      && s.binderRows[s.selected].kind == Entry
  {
    if s.directorExists && s.mode == ByBinder && s.selected < |s.binderRows| {
      assert RowPointsInto(s.reports, s.binderRows[s.selected]);
    }
  }

  /** Ticking or unticking a box keeps the pending counter equal to the
      number of ticked boxes, the tally equal to the empty boxes per song,
      and both row projections current. */
  lemma ToggleCurrentKeepsInv(s: Screen)
    requires Inv(s)
    ensures Inv(ToggleCurrent(s).0)
  {
    var (r, ticked) := ToggleCurrent(s);
    if ticked.Some? {
      var row := s.binderRows[s.selected];
      var b, j := row.binderIndex.value, row.songIndex.value;
      var m := s.reports[b].songs[j];
      FlipCount(s.reports, b, j, IsChecked());
      if m.checked {
        EntryInFlatten(s.reports, b, j, IsChecked());
      }
      TallyAfterFlip(s.reports, s.totals, b, j);
    }
  }

  /** Flipping a box and moving that song's tally the opposite way keeps the
      tally in step with the boxes. */
  lemma TallyAfterFlip(reports: seq<BinderReport>, totals: seq<SongNeeded>, b: nat, j: nat)
    requires TallyTracks(reports, totals) && ValidEntry(reports, b, j)
    ensures var m := reports[b].songs[j];
      TallyTracks(Flip(reports, b, j), AdjustTotals(totals, m.song.id, if m.checked then 1 else -1))
  {
    var m := reports[b].songs[j];
    var x := m.song.id;
    var delta := if m.checked then 1 else -1;
    var flipped := Flip(reports, b, j);
    var adjusted := AdjustTotals(totals, x, delta);
    var found := Seqs.FindIndex(totals, IsFor(x));
    var k0 :| 0 <= k0 < |totals| && totals[k0].song.id == x;
    assert found.Some?;
    assert found.value == k0;
    forall k | 0 <= k < |adjusted|
      ensures adjusted[k].needed == Seqs.CountIf(Flatten(flipped), UncheckedWithId(adjusted[k].song.id))
    {
      var id := totals[k].song.id;
      FlipCount(reports, b, j, UncheckedWithId(id));
      if k == k0 && !m.checked {
        EntryInFlatten(reports, b, j, UncheckedWithId(x));
      }
    }
    forall b': nat, j': nat | ValidEntry(flipped, b', j')
      ensures exists k | 0 <= k < |adjusted| :: adjusted[k].song.id == flipped[b'].songs[j'].song.id
    {
      assert flipped[b'].songs[j'].song == reports[b'].songs[j'].song;
      var k :| 0 <= k < |totals| && totals[k].song.id == reports[b'].songs[j'].song.id;
      assert adjusted[k].song == totals[k].song;
    }
  }
}
