/** The two searchable song lists of the interface: the song manager (every
    song, with an extra "no link" switch) and the view of one binder's songs.
    Both keep the full list, the filtered list shown, the search text and a
    selection index. */
module SongLists {
  import opened Outcomes
  import opened Text
  import opened Models
  import Seqs

  // ---------------------------------------------------------------------
  // Selection arithmetic shared by every list
  // ---------------------------------------------------------------------

  /** A selection fits a list of `len` rows: inside it, or 0 when empty. */
  predicate InBounds(selected: nat, len: nat) {
    if len == 0 then selected == 0 else selected < len
  }

  /** `ensure_in_bounds` and the tail of `apply_filter`: 0 for an empty list,
      the last row when past the end, unchanged otherwise. */
  function Clamp(selected: nat, len: nat): (r: nat)
    ensures InBounds(r, len)
    ensures selected < len ==> r == selected
    ensures len > 0 && selected >= len ==> r == len - 1
  {
    if len == 0 then 0 else if selected >= len then len - 1 else selected
  }

  /** `move_selection`: nothing happens on an empty list; otherwise the
      index moves by `offset` and stops at either end, never wrapping. */
  function MoveClamped(selected: nat, len: nat, offset: int): (r: nat)
    ensures len == 0 ==> r == selected
    ensures len > 0 ==> r < len
    ensures len > 0 && 0 <= selected + offset < len ==> r == selected + offset
    ensures len > 0 && selected + offset < 0 ==> r == 0
    ensures len > 0 && selected + offset >= len ==> r == len - 1
  {
    if len == 0 then selected
    else
      var moved := selected + offset;
      var low := if moved < 0 then 0 else moved;
      if low >= len then len - 1 else low
  }

  // ---------------------------------------------------------------------
  // Search
  // ---------------------------------------------------------------------

  /** A song matches a query when its lower-cased title or composer holds
      the lower-cased query. */
  function Matches(query: string): Song -> bool {
    (s: Song) => Contains(Lower(s.title), Lower(query)) || Contains(Lower(s.composer), Lower(query))
  }

  /** No search is in force: no text, or text that is blank once
      lower-cased. */
  predicate NoSearch(filter: Option<string>) {
    filter.None? || IsBlank(Lower(filter.value))
  }

  /** The search step of `apply_filter`. */
  function Search(songs: seq<Song>, filter: Option<string>): (r: seq<Song>)
    ensures NoSearch(filter) ==> r == songs
    ensures !NoSearch(filter) ==> r == Seqs.Filter(songs, Matches(filter.value))
  {
    match filter
    case None => songs
    case Some(q) => if IsBlank(Lower(q)) then songs else Seqs.Filter(songs, Matches(q))
  }

  /** Songs whose link is blank once trimmed. */
  function LinkMissing(): Song -> bool {
    (s: Song) => IsBlank(s.link)
  }

  /** Which songs a list shows, stated as one condition on each song. */
  predicate Shown(filter: Option<string>, noLinkOnly: bool, s: Song) {
    && (NoSearch(filter) || Matches(filter.value)(s))
    && (!noLinkOnly || IsBlank(s.link))
  }

  function ShownBy(filter: Option<string>, noLinkOnly: bool): Song -> bool {
    (s: Song) => Shown(filter, noLinkOnly, s)
  }

  // ---------------------------------------------------------------------
  // The list state
  // ---------------------------------------------------------------------

  datatype SongList = SongList(songs: seq<Song>, filtered: seq<Song>, filter: Option<string>, selected: nat)

  /** The list's shown songs agree with its songs and search, and the
      selection fits. */
  predicate ListInv(l: SongList, noLinkOnly: bool) {
    && l.filtered == Seqs.Filter(l.songs, ShownBy(l.filter, noLinkOnly))
    && InBounds(l.selected, |l.filtered|)
  }

  /** `apply_filter`: the search, then (on the manager, when switched on)
      the missing-link filter, then the selection clamp. The result is
      exactly the songs, in their order, that satisfy both conditions. */
  function Refilter(l: SongList, noLinkOnly: bool): (r: SongList)
    ensures r.songs == l.songs && r.filter == l.filter
    ensures r.filtered == Seqs.Filter(l.songs, ShownBy(l.filter, noLinkOnly))
    ensures ListInv(r, noLinkOnly)
    ensures l.selected < |r.filtered| ==> r.selected == l.selected
  {
    var base := Search(l.songs, l.filter);
    var filtered := if noLinkOnly then Seqs.Filter(base, LinkMissing()) else base;
    SearchThenLinkIsShown(l.songs, l.filter, noLinkOnly);
    l.(filtered := filtered, selected := Clamp(l.selected, |filtered|))
  }

  /** The two filtering passes of `apply_filter` select the same songs as
      the single condition `Shown`. */
  lemma SearchThenLinkIsShown(songs: seq<Song>, filter: Option<string>, noLinkOnly: bool)
    ensures var base := Search(songs, filter);
      (if noLinkOnly then Seqs.Filter(base, LinkMissing()) else base)
        == Seqs.Filter(songs, ShownBy(filter, noLinkOnly))
  {
    var shown := ShownBy(filter, noLinkOnly);
    if NoSearch(filter) {
      if noLinkOnly {
        Seqs.FilterExt(songs, LinkMissing(), shown);
      } else {
        Seqs.FilterAll(songs, shown);
      }
    } else {
      var m := Matches(filter.value);
      if noLinkOnly {
        Seqs.FilterFilter(songs, m, LinkMissing(), shown);
      } else {
        Seqs.FilterExt(songs, m, shown);
      }
    }
  }

  /** Every song shown satisfies the search and, when asked, has no link;
      every such song is shown. */
  lemma RefilterMembers(l: SongList, noLinkOnly: bool, s: Song)
    ensures s in Refilter(l, noLinkOnly).filtered <==>
      && s in l.songs
      && (NoSearch(l.filter)
          || Contains(Lower(s.title), Lower(l.filter.value))
          || Contains(Lower(s.composer), Lower(l.filter.value)))
      && (!noLinkOnly || IsBlank(s.link))
  {
  }

  /** `current_song`: the highlighted shown song, if any. */
  function CurrentSong(l: SongList): (r: Option<Song>)
    ensures r.Some? <==> l.selected < |l.filtered|
    ensures r.Some? ==> r.value in l.filtered
  {
    if l.selected < |l.filtered| then Some(l.filtered[l.selected]) else None
  }

  function MoveSelection(l: SongList, offset: int): (r: SongList)
    ensures r.songs == l.songs && r.filtered == l.filtered && r.filter == l.filter
    ensures InBounds(l.selected, |l.filtered|) ==> InBounds(r.selected, |r.filtered|)
  {
    l.(selected := MoveClamped(l.selected, |l.filtered|, offset))
  }

  /** `select_first`: the top row; nothing changes on an empty list. */
  function SelectFirst(l: SongList): (r: SongList)
    ensures |l.filtered| > 0 ==> r == l.(selected := 0)
    ensures |l.filtered| == 0 ==> r == l
  {
    if |l.filtered| > 0 then l.(selected := 0) else l
  }

  /** `select_last`: the bottom row; nothing changes on an empty list. */
  function SelectLast(l: SongList): (r: SongList)
    ensures |l.filtered| > 0 ==> r == l.(selected := |l.filtered| - 1)
    ensures |l.filtered| == 0 ==> r == l
  {
    if |l.filtered| > 0 then l.(selected := |l.filtered| - 1) else l
  }

  // ---------------------------------------------------------------------
  // `SongManagerScreen`
  // ---------------------------------------------------------------------

  datatype Manager = Manager(list: SongList, showOnlyNoLink: bool)

  predicate ManagerInv(m: Manager) {
    ListInv(m.list, m.showOnlyNoLink)
  }

  /** `SongManagerScreen::new`: every song shown, first row selected. */
  function NewManager(songs: seq<Song>): (m: Manager)
    ensures ManagerInv(m)
    ensures m.list.songs == songs && m.list.filtered == songs
    ensures m.list.filter.None? && !m.showOnlyNoLink && m.list.selected == 0
  {
    Seqs.FilterAll(songs, ShownBy(None, false));
    Manager(Refilter(SongList(songs, [], None, 0), false), false)
  }

  function ManagerSetFilter(m: Manager, filter: Option<string>): (r: Manager)
    ensures ManagerInv(r)
    ensures r.list.filter == filter && r.list.songs == m.list.songs
    ensures r.showOnlyNoLink == m.showOnlyNoLink
  {
    m.(list := Refilter(m.list.(filter := filter), m.showOnlyNoLink))
  }

  function ManagerSetSongs(m: Manager, songs: seq<Song>): (r: Manager)
    ensures ManagerInv(r)
    ensures r.list.songs == songs && r.list.filter == m.list.filter
    ensures r.showOnlyNoLink == m.showOnlyNoLink
  {
    m.(list := Refilter(m.list.(songs := songs), m.showOnlyNoLink))
  }

  /** `toggle_show_no_link`: flips the switch, refilters, and reports the new
      setting. */
  function ToggleShowNoLink(m: Manager): (r: (Manager, bool))
    ensures r.1 == r.0.showOnlyNoLink && r.1 == !m.showOnlyNoLink
    ensures ManagerInv(r.0)
    ensures r.0.list.songs == m.list.songs && r.0.list.filter == m.list.filter
  {
    var m' := m.(showOnlyNoLink := !m.showOnlyNoLink);
    var m'' := m'.(list := Refilter(m'.list, m'.showOnlyNoLink));
    (m'', m''.showOnlyNoLink)
  }

  /** Switching twice restores the switch and the shown songs; the selection
      stays in range (it is not restored if the first switch clamped it). */
  lemma ToggleShowNoLinkTwice(m: Manager)
    requires ManagerInv(m)
    ensures var twice := ToggleShowNoLink(ToggleShowNoLink(m).0).0;
      && twice.showOnlyNoLink == m.showOnlyNoLink
      && twice.list.filtered == m.list.filtered
      && twice.list.songs == m.list.songs && twice.list.filter == m.list.filter
      && InBounds(twice.list.selected, |twice.list.filtered|)
  {
  }

  /** Turning the switch on keeps only songs whose link is blank, and never
      adds a song. */
  lemma NoLinkOnlyNarrows(m: Manager)
    requires ManagerInv(m) && !m.showOnlyNoLink
    ensures var on := ToggleShowNoLink(m).0;
      && (forall s | s in on.list.filtered :: s in m.list.filtered && IsBlank(s.link))
      && (forall s | s in m.list.filtered && IsBlank(s.link) :: s in on.list.filtered)
  {
  }

  // ---------------------------------------------------------------------
  // `SongScreen` (one binder's songs)
  // ---------------------------------------------------------------------

  datatype SongScreen = SongScreen(binder: Binder, list: SongList)

  predicate SongScreenInv(s: SongScreen) {
    ListInv(s.list, false)
  }

  function NewSongScreen(binder: Binder, songs: seq<Song>): (s: SongScreen)
    ensures SongScreenInv(s)
    ensures s.binder == binder && s.list.songs == songs && s.list.filtered == songs
    ensures s.list.filter.None? && s.list.selected == 0
  {
    Seqs.FilterAll(songs, ShownBy(None, false));
    SongScreen(binder, Refilter(SongList(songs, [], None, 0), false))
  }

  function SongScreenSetFilter(s: SongScreen, filter: Option<string>): (r: SongScreen)
    ensures SongScreenInv(r)
    ensures r.binder == s.binder && r.list.songs == s.list.songs && r.list.filter == filter
  {
    s.(list := Refilter(s.list.(filter := filter), false))
  }

  function SongScreenSetSongs(s: SongScreen, songs: seq<Song>): (r: SongScreen)
    ensures SongScreenInv(r)
    ensures r.binder == s.binder && r.list.songs == songs && r.list.filter == s.list.filter
  {
    s.(list := Refilter(s.list.(songs := songs), false))
  }
}
