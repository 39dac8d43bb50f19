/** The single-file build of the interface (`src/ui.rs`). It matches the
    split controller everywhere except in two places, modelled here and
    compared against the split versions: the song-grouped to-print rows are
    kept in the order the songs were first met rather than sorted, and the
    song picker links only the highlighted song (it has no ticks). That
    build keeps its song-grouped rows as plain display strings; the model
    reuses the split build's rows, whose extra song field is never read by
    the single-file controller. */
module Monolithic {
  import opened Outcomes
  import opened Models
  import opened Store
  import opened Controller
  import opened Keys
  import SongStore
  import SongLists
  import Seqs
  import Picker
  import ToPrint
  import Forms
  import Helpers

  // ---------------------------------------------------------------------
  // Song-grouped rows without sorting
  // ---------------------------------------------------------------------

  /** The entries still needing copies, in the order of the totals. */
  function StillNeeded(totals: seq<ToPrint.SongNeeded>): (r: seq<ToPrint.SongNeeded>)
    ensures forall e :: e in r <==> e in totals && e.needed > 0
    ensures Seqs.IsSubseq(r, totals)
  {
    Seqs.Filter(totals, ToPrint.Positive())
  }

  /** `refresh_song_rows` of the single-file build: one row per entry with
      copies still needed, in first-seen order, or the placeholder alone. */
  function SongRowsOf(totals: seq<ToPrint.SongNeeded>): (rows: seq<ToPrint.SongRow>)
    ensures |rows| >= 1
    ensures |StillNeeded(totals)| == 0 ==> rows == [ToPrint.SongRow(ToPrint.PLACEHOLDER, None)]
    ensures |StillNeeded(totals)| > 0 ==>
      |rows| == |StillNeeded(totals)|
      && forall i | 0 <= i < |rows| :: rows[i] == ToPrint.FromNeeded(StillNeeded(totals)[i])
  {
    var needs := StillNeeded(totals);
    if |needs| == 0 then [ToPrint.SongRow(ToPrint.PLACEHOLDER, None)]
    else seq(|needs|, i requires 0 <= i < |needs| => ToPrint.FromNeeded(needs[i]))
  }

  /** Sorting keeps the number of entries still needed. */
  lemma {:induction false} SameNumberNeeded(totals: seq<ToPrint.SongNeeded>)
    ensures |StillNeeded(totals)| == |ToPrint.NeedsPrinting(totals)|
  {
    var mine := StillNeeded(totals);
    var sorted := ToPrint.NeedsPrinting(totals);
    assert multiset(sorted) == multiset(mine);
    assert |multiset(sorted)| == |sorted|;
    assert |multiset(mine)| == |mine|;
  }

  /** An entry still needing copies has a place in the sorted list. */
  lemma SortedPlace(totals: seq<ToPrint.SongNeeded>, e: ToPrint.SongNeeded) returns (j: nat)
    requires e in totals && e.needed > 0
    ensures j < |ToPrint.NeedsPrinting(totals)| && ToPrint.NeedsPrinting(totals)[j] == e
  {
    var sorted := ToPrint.NeedsPrinting(totals);
    assert e in sorted;
    j :| 0 <= j < |sorted| && sorted[j] == e;
  }

  lemma {:induction false} RowShownBySplit(totals: seq<ToPrint.SongNeeded>, i: nat)
    requires |StillNeeded(totals)| > 0 && i < |SongRowsOf(totals)|
    ensures SongRowsOf(totals)[i] in ToPrint.SongRowsOf(totals)
  {
    var e := StillNeeded(totals)[i];
    assert SongRowsOf(totals)[i] == ToPrint.FromNeeded(e);
    assert e in StillNeeded(totals);
    var j := SortedPlace(totals, e);
    assert ToPrint.SongRowsOf(totals)[j] == ToPrint.FromNeeded(e);
  }

  lemma {:induction false} RowShownHere(totals: seq<ToPrint.SongNeeded>, j: nat)
    requires |ToPrint.NeedsPrinting(totals)| > 0 && j < |ToPrint.SongRowsOf(totals)|
    ensures ToPrint.SongRowsOf(totals)[j] in SongRowsOf(totals)
  {
    var sorted := ToPrint.NeedsPrinting(totals);
    var other := ToPrint.SongRowsOf(totals);
    assert |other| == |sorted|;
    var e := sorted[j];
    assert other[j] == ToPrint.FromNeeded(e);
    assert e in totals && e.needed > 0 by {
      assert e in sorted;
    }
    var mine := StillNeeded(totals);
    assert e in mine;
    var i :| 0 <= i < |mine| && mine[i] == e;
    var rows := SongRowsOf(totals);
    assert |rows| == |mine|;
    assert rows[i] == ToPrint.FromNeeded(e);
  }

  /** Both builds show the same rows, possibly in a different order. */
  lemma {:induction false} SameRowsAsSplit(totals: seq<ToPrint.SongNeeded>)
    ensures |SongRowsOf(totals)| == |ToPrint.SongRowsOf(totals)|
    ensures forall row :: row in SongRowsOf(totals) <==> row in ToPrint.SongRowsOf(totals)
  {
    SameNumberNeeded(totals);
    var rows := SongRowsOf(totals);
    var other := ToPrint.SongRowsOf(totals);
    if |StillNeeded(totals)| > 0 {
      forall i | 0 <= i < |rows|
        ensures rows[i] in other
      {
        RowShownBySplit(totals, i);
      }
      forall j | 0 <= j < |other|
        ensures other[j] in rows
      {
        RowShownHere(totals, j);
      }
    }
  }

  /** Two songs met out of title order stay out of order here, while the
      split build sorts them. */
  lemma {:induction false} FirstSeenOrderDiffers(x: ToPrint.SongNeeded, y: ToPrint.SongNeeded)
    requires x.needed > 0 && y.needed > 0 && !SongLe(x.song, y.song)
    ensures SongRowsOf([x, y])[0].song == Some(x.song)
    ensures SongRowsOf([x, y]) != ToPrint.SongRowsOf([x, y])
  {
    var totals := [x, y];
    assert StillNeeded(totals) == totals by {
      assert ToPrint.Positive()(x) && ToPrint.Positive()(y);
      Seqs.FilterAll(totals, ToPrint.Positive());
    }
    var rows := SongRowsOf(totals);
    assert rows[0] == ToPrint.FromNeeded(x) && rows[1] == ToPrint.FromNeeded(y);
    if rows == ToPrint.SongRowsOf(totals) {
      ToPrint.SongRowsOrdered(totals, 0, 1);
    }
  }

  /** The single-file `refresh_song_rows` on the to-print screen: the rows
      are rebuilt and, in the song view, the selection is clamped. */
  function RefreshSongRows(s: ToPrint.Screen): (r: ToPrint.Screen)
    ensures r.songRows == SongRowsOf(s.totals)
    ensures r == s.(songRows := r.songRows, scroll := r.scroll, selected := r.selected)
    ensures s.directorExists && s.mode == ToPrint.BySong ==> SongLists.InBounds(r.selected, |r.songRows|)
    ensures s.mode == ToPrint.ByBinder ==> r.selected == s.selected && r.scroll == s.scroll
  {
    var s1 := s.(songRows := SongRowsOf(s.totals));
    if s.mode == ToPrint.BySong then ToPrint.Settle(s1) else s1
  }

  /** Clamping and scrolling look only at the number of rows. */
  lemma {:induction false} SettleSeesOnlyLength(s: ToPrint.Screen, rows: seq<ToPrint.SongRow>)
    requires ToPrint.CurrentLen(s) == ToPrint.CurrentLen(s.(songRows := rows))
    ensures ToPrint.Settle(s.(songRows := rows)) == ToPrint.Settle(s).(songRows := rows)
  {
    var n := ToPrint.CurrentLen(s);
    var c := s.(selected := SongLists.Clamp(s.selected, n));
    var t := c.(songRows := rows);
    assert ToPrint.CurrentLen(t) == n;
    assert ToPrint.MaxScroll(t) == ToPrint.MaxScroll(c);
    assert ToPrint.UpdateScroll(t) == ToPrint.UpdateScroll(c).(songRows := rows);
  }

  /** Selection and scrolling come out as in the split build: only the order
      of the rows differs. */
  lemma {:induction false} RefreshLikeSplit(s: ToPrint.Screen)
    ensures RefreshSongRows(s) == ToPrint.RefreshSongRows(s).(songRows := SongRowsOf(s.totals))
  {
    SameRowsAsSplit(s.totals);
    var split := s.(songRows := ToPrint.SongRowsOf(s.totals));
    if s.mode == ToPrint.BySong {
      SettleSeesOnlyLength(split, SongRowsOf(s.totals));
      assert split.(songRows := SongRowsOf(s.totals)) == s.(songRows := SongRowsOf(s.totals));
    }
  }

  // ---------------------------------------------------------------------
  // Single-select song picker
  // ---------------------------------------------------------------------

  /** `handle_select_song` of the single-file build. Its picker has no
      ticks: the space bar does nothing, and Enter links the highlighted
      song alone, staying in the picker when the store refuses. */
  function SelectSongKey(a: App, code: KeyCode, p: Picker.Picker): (r: Step)
    ensures r.Step? && !r.exit
    ensures code != Enter ==> r.app.store == a.store && r.app.status == a.status
    ensures code != Enter && code != Esc ==>
      r.app.mode.SelectingSong? && r.app.mode.picker.items == p.items
      && r.app.mode.picker.checked == p.checked && r.app == a.(mode := r.app.mode)
    ensures code == Char(' ') ==> r.app == a.(mode := SelectingSong(p))
    ensures code == Enter && Picker.CurrentItem(p).None? ==> r.app == a.(mode := Normal)
    ensures code == Enter && Picker.CurrentItem(p) == Some(Picker.CreateNew) ==>
      r.app == a.(mode := CreatingSong(Some(p.binderId), Forms.EmptySongForm()))
    ensures code == Enter && Picker.CurrentItem(p).Some? && Picker.CurrentItem(p).value.Existing? ==>
      var w := SongStore.AddSongToBinder(a.store, p.binderId, Picker.CurrentItem(p).value.song.id);
      && r.app.store == w.store
      && (w.result.Err? ==>
            r.app == a.(mode := SelectingSong(p),
                        status := Some(Status(Helpers.SurfaceError(w.result.error), true))))
      && (w.result.Ok? ==>
            r.app.mode == Normal && r.app.status == Some(Status("Song added to binder.", false)))
  {
    match code
    case Esc => Go(a, Normal)
    case Up => Go(a, SelectingSong(Picker.MoveSelection(p, -1)))
    case Down => Go(a, SelectingSong(Picker.MoveSelection(p, 1)))
    case PageUp => Go(a, SelectingSong(Picker.MoveSelection(p, -5)))
    case PageDown => Go(a, SelectingSong(Picker.MoveSelection(p, 5)))
    case Home => Go(a, SelectingSong(Picker.SelectFirst(p)))
    case End => Go(a, SelectingSong(Picker.SelectLast(p)))
    case Enter =>
      (match Picker.CurrentItem(p)
       case Some(CreateNew) => Go(a, CreatingSong(Some(p.binderId), Forms.EmptySongForm()))
       case Some(Existing(song)) =>
         var w := SongStore.AddSongToBinder(a.store, p.binderId, song.id);
         (match w.result
          case Err(e) => Go(Problem(a, Helpers.SurfaceError(e)), SelectingSong(p))
          case Ok(_) => Go(Info(RefreshSongScreen(a.(store := w.store)), "Song added to binder."), Normal))
       case None => Go(a, Normal))
    case _ => Go(a, SelectingSong(p))
  }

  /** With nothing ticked, and apart from the space bar that only the split
      build uses, both pickers react to every key alike. */
  lemma {:induction false} AgreesWhenNothingTicked(a: App, code: KeyCode, p: Picker.Picker)
    requires |Picker.CheckedSongs(p)| == 0 && code != Char(' ')
    ensures SelectSongKey(a, code, p) == Keys.SelectSongKey(a, code, p)
  {
    if code == Enter {
      assert Keys.AddedMessage(1) == "Song added to binder.";
    }
  }

  /** Enter links at most the highlighted song, whatever else is ticked. */
  lemma {:induction false} LinksOnlyHighlighted(a: App, p: Picker.Picker)
    requires Picker.CurrentItem(p).Some? && Picker.CurrentItem(p).value.Existing?
    ensures var song := Picker.CurrentItem(p).value.song;
      SelectSongKey(a, Enter, p).app.store.links <= a.store.links + {(p.binderId, song.id)}
  {
    var song := Picker.CurrentItem(p).value.song;
    var w := SongStore.AddSongToBinder(a.store, p.binderId, song.id);
    assert SelectSongKey(a, Enter, p).app.store == w.store;
  }
}
