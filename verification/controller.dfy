/** The application state (`App`) and the controller operations the key
    handlers are built from: grid navigation, reloading binders, moving
    between binders, opening the screens, linking songs in bulk and saving
    the binder forms. The database is the `Store` value; every read of it is
    a pure function, so the only failures are the ones the store reports. */
module Controller {
  import opened Outcomes
  import opened Text
  import opened Models
  import opened Store
  import BinderStore
  import SongStore
  import Seqs
  import SongLists
  import Picker
  import ToPrint
  import Forms
  import Reconcile
  import Helpers

  /** Binder cards per row of the main grid. */
  const GRID_COLUMNS := 4

  datatype Screen =
    | Binders
    | Songs(songs: SongLists.SongScreen)
    | SongManager(manager: SongLists.Manager)
    | ToPrintView(report: ToPrint.Screen)

  datatype SearchTarget = SongsTarget | ManagerTarget

  datatype SearchState = SearchState(target: SearchTarget, query: string)

  datatype Mode =
    | Normal
    | AddingBinder(binderForm: Forms.BinderForm)
    | EditingBinder(id: int, binderForm: Forms.BinderForm)
    | ConfirmingBinderDelete(binderConfirm: Forms.ConfirmBinderDelete)
    | EditingSong(songId: int, songForm: Forms.SongForm)
    | ConfirmingSongRemove(removeConfirm: Forms.ConfirmSongRemove)
    | SelectingSong(picker: Picker.Picker)
    | ConfirmingSongDelete(deleteConfirm: Forms.ConfirmSongDelete)
    | CreatingSong(binderId: Option<int>, songForm: Forms.SongForm)
    | ConfirmingToPrintExit(exitConfirm: Forms.ConfirmToPrintExit)
    | Searching(search: SearchState)

  /** The footer message and whether it is shown as an error. */
  datatype Status = Status(text: string, isError: bool)

  datatype App = App(
    store: Store,
    binders: seq<Binder>,
    selected: nat,
    composers: seq<string>,
    screen: Screen,
    mode: Mode,
    status: Option<Status>,
    savedSearch: Option<SearchState>)

  /** `App::new`: the binder grid, nothing selected beyond the first card. */
  function NewApp(st: Store, binders: seq<Binder>, composers: seq<string>): App {
    App(st, binders, 0, composers, Binders, Normal, None, None)
  }

  function Info(a: App, text: string): App {
    a.(status := Some(Status(text, false)))
  }

  function Problem(a: App, text: string): App {
    a.(status := Some(Status(text, true)))
  }

  function ClearStatus(a: App): App {
    a.(status := None)
  }

  function CurrentBinder(a: App): Option<Binder> {
    if a.selected < |a.binders| then Some(a.binders[a.selected]) else None
  }

  // ---------------------------------------------------------------------
  // Binder numbers
  // ---------------------------------------------------------------------

  function MaxNumber(binders: seq<Binder>): (m: int)
    requires |binders| > 0
    ensures forall b | b in binders :: b.number <= m
    ensures exists b | b in binders :: b.number == m
    decreases |binders|
  {
    if |binders| == 1 then
      assert binders[0] in binders;
      binders[0].number
    else
      var rest := MaxNumber(binders[1..]);
      assert forall b | b in binders :: b == binders[0] || b in binders[1..];
      assert binders[0] in binders;
      if binders[0].number >= rest then binders[0].number else rest
  }

  /** `next_binder_number`: one above the highest number in use, or 1 when
      there are no binders. */
  function NextBinderNumber(binders: seq<Binder>): (n: int)
    ensures forall b | b in binders :: b.number < n
    ensures |binders| == 0 ==> n == 1
    ensures |binders| > 0 ==> exists b | b in binders :: b.number == n - 1
  {
    if |binders| == 0 then 1 else MaxNumber(binders) + 1
  }

  /** The number offered by the "add binder" form is never taken, so saving
      it unchanged cannot hit the uniqueness constraint. */
  lemma SuggestedNumberIsFree(st: Store, labelText: string)
    ensures !NumberTaken(st, NextBinderNumber(BinderStore.FetchBinders(st)))
    ensures BinderStore.CreateBinder(st, NextBinderNumber(BinderStore.FetchBinders(st)), labelText).result.Ok?
  {
    var fetched := BinderStore.FetchBinders(st);
    var n := NextBinderNumber(fetched);
    forall b | b in st.binders
      ensures b.number != n
    {
      assert b in multiset(fetched);
    }
  }

  // ---------------------------------------------------------------------
  // The binder grid
  // ---------------------------------------------------------------------

  /** Moves the grid selection by `delta` cards when the grid is showing and
      the target exists; otherwise nothing happens (no wrapping, no
      clamping). */
  function MoveBy(a: App, delta: int): (r: App)
    ensures r == a.(selected := r.selected)
    ensures a.screen.Binders? && 0 <= a.selected + delta < |a.binders| ==> r.selected == a.selected + delta
    ensures !(a.screen.Binders? && 0 <= a.selected + delta < |a.binders|) ==> r == a
  {
    if a.screen.Binders? && |a.binders| > 0 && 0 <= a.selected + delta < |a.binders| then
      a.(selected := a.selected + delta)
    else a
  }

  /** `move_horizontal`: one card left or right; at the end of a row this
      continues on the next row, because the grid is one list. */
  function MoveHorizontal(a: App, offset: int): App {
    MoveBy(a, offset)
  }

  /** `move_vertical`: one row up or down, i.e. `GRID_COLUMNS` cards. */
  function MoveVertical(a: App, offset: int): App {
    MoveBy(a, offset * GRID_COLUMNS)
  }

  /** A selection on the grid stays on the grid, and a vertical move keeps
      the column. */
  lemma GridMovesStayOnGrid(a: App, offset: int)
    requires a.selected < |a.binders|
    ensures MoveHorizontal(a, offset).selected < |a.binders|
    ensures MoveVertical(a, offset).selected < |a.binders|
    ensures MoveVertical(a, offset).selected % GRID_COLUMNS == a.selected % GRID_COLUMNS
  {
    var s := a.selected;
    var moved := MoveVertical(a, offset).selected;
    if moved != s {
      assert moved == s + offset * GRID_COLUMNS;
      assert s == s / GRID_COLUMNS * GRID_COLUMNS + s % GRID_COLUMNS;
      assert moved == (s / GRID_COLUMNS + offset) * GRID_COLUMNS + s % GRID_COLUMNS;
      Helpers.ModUnique(moved, GRID_COLUMNS, s / GRID_COLUMNS + offset, s % GRID_COLUMNS);
    }
  }

  /** A move that happened is undone by the opposite move. */
  lemma GridMoveUndo(a: App, offset: int)
    requires SongLists.InBounds(a.selected, |a.binders|)
    ensures MoveVertical(a, offset) != a ==> MoveVertical(MoveVertical(a, offset), -offset) == a
    ensures MoveHorizontal(a, offset) != a ==> MoveHorizontal(MoveHorizontal(a, offset), -offset) == a
  {
    var d := offset * GRID_COLUMNS;
    assert -offset * GRID_COLUMNS == -d;
    var v := MoveVertical(a, offset);
    if v != a {
      assert v == a.(selected := a.selected + d);
      assert 0 <= v.selected + -d < |v.binders| && v.screen.Binders?;
      assert MoveBy(v, -d).selected == a.selected;
    }
    var h := MoveHorizontal(a, offset);
    if h != a {
      assert h == a.(selected := a.selected + offset);
      assert MoveBy(h, -offset).selected == a.selected;
    }
  }

  // ---------------------------------------------------------------------
  // Reloading the binder list
  // ---------------------------------------------------------------------

  function HasId(id: int): Binder -> bool {
    (b: Binder) => b.id == id
  }

  /** `reload_binders`: refetches the binders; the selection goes to the
      focused binder when it is still there, and is otherwise kept, pulled
      back onto the last card if it fell off the end. */
  function ReloadBinders(a: App, focus: Option<int>): (r: App)
    ensures r == a.(binders := r.binders, selected := r.selected)
    ensures r.binders == BinderStore.FetchBinders(a.store)
    ensures SongLists.InBounds(r.selected, |r.binders|)
    ensures focus.Some? && (exists i | 0 <= i < |r.binders| :: r.binders[i].id == focus.value) ==>
      r.selected < |r.binders| && r.binders[r.selected].id == focus.value
    ensures (focus.None? || forall i | 0 <= i < |r.binders| :: r.binders[i].id != focus.value) ==>
      r.selected == SongLists.Clamp(a.selected, |r.binders|)
  {
    var binders := BinderStore.FetchBinders(a.store);
    if |binders| == 0 then a.(binders := binders, selected := 0)
    else
      var found := if focus.Some? then Seqs.FindIndex(binders, HasId(focus.value)) else None;
      if found.Some? then a.(binders := binders, selected := found.value)
      else a.(binders := binders, selected := SongLists.Clamp(a.selected, |binders|))
  }

  // ---------------------------------------------------------------------
  // Opening screens
  // ---------------------------------------------------------------------

  /** `open_binder_view`: the binder's songs, unfiltered, first selected. */
  function OpenBinderView(a: App, b: Binder): App {
    a.(screen := Songs(SongLists.NewSongScreen(b, SongStore.FetchSongsForBinder(a.store, b.id))))
  }

  /** The binders in number order (`sort_by_key` on the number, stable). */
  function Ordered(binders: seq<Binder>): (r: seq<Binder>)
    ensures |r| == |binders| && multiset(r) == multiset(binders)
  {
    Seqs.SortBy(binders, BinderLe)
  }

  /** The binder `offset` places away from the one with `currentId` in
      number order, wrapping around (`rem_euclid`); an unknown id counts as
      the first position. */
  function Neighbour(binders: seq<Binder>, currentId: int, offset: int): (b: Binder)
    requires |binders| > 0
    ensures b in binders
  {
    var ordered := Ordered(binders);
    var pos := match Seqs.FindIndex(ordered, HasId(currentId)) case Some(p) => p case None => 0;
    var target := ordered[(pos + offset) % |ordered|];
    assert target in multiset(binders);
    target
  }

  /** A current id that is not among the binders counts as the first
      binder in number order (`unwrap_or(0)`). */
  lemma NeighbourOfUnknown(binders: seq<Binder>, currentId: int, offset: int)
    requires |binders| > 0
    requires forall c | c in binders :: c.id != currentId
    ensures Neighbour(binders, currentId, offset) == Ordered(binders)[offset % |binders|]
  {
    var ordered := Ordered(binders);
    forall k | 0 <= k < |ordered|
      ensures !HasId(currentId)(ordered[k])
    {
      assert ordered[k] in multiset(binders);
    }
    assert Seqs.FindIndex(ordered, HasId(currentId)).None?;
  }

  /** `open_relative_binder`: on a binder's song list, Tab and BackTab open
      the next or previous binder by number and select its card. */
  function OpenRelativeBinder(a: App, offset: int): (r: App)
    ensures |a.binders| == 0 || !a.screen.Songs? ==> r == a
    ensures |a.binders| > 0 && a.screen.Songs? ==>
      var target := Neighbour(a.binders, a.screen.songs.binder.id, offset);
      && r == OpenBinderView(a.(selected := r.selected), target)
      && r.selected < |a.binders| && a.binders[r.selected].id == target.id
  {
    if |a.binders| == 0 || !a.screen.Songs? then a
    else
      var target := Neighbour(a.binders, a.screen.songs.binder.id, offset);
      var k :| 0 <= k < |a.binders| && a.binders[k] == target;
      assert HasId(target.id)(a.binders[k]);
      var i := Seqs.FindIndex(a.binders, HasId(target.id)).value;
      OpenBinderView(a.(selected := i), target)
  }

  function BinderId(b: Binder): int {
    b.id
  }

  function BinderNumber(b: Binder): int {
    b.number
  }

  /** With distinct ids, a binder sits at exactly one place in number
      order, and its neighbours are counted from there. */
  lemma PositionOf(binders: seq<Binder>, b: Binder, offset: int) returns (pos: nat)
    requires b in binders && Seqs.KeysDistinct(binders, BinderId)
    ensures pos < |binders| && Ordered(binders)[pos] == b
    ensures forall k | 0 <= k < |binders| && Ordered(binders)[k].id == b.id :: k == pos
    ensures Neighbour(binders, b.id, offset) == Ordered(binders)[(pos + offset) % |binders|]
  {
    var ordered := Ordered(binders);
    Seqs.PermutationKeysDistinct(binders, ordered, BinderId);
    assert b in multiset(ordered);
    pos :| 0 <= pos < |ordered| && ordered[pos] == b;
    forall k | 0 <= k < |ordered| && ordered[k].id == b.id
      ensures k == pos
    {
      assert BinderId(ordered[k]) == BinderId(ordered[pos]);
    }
    assert HasId(b.id)(ordered[pos]);
    var found := Seqs.FindIndex(ordered, HasId(b.id));
    assert found.Some? && ordered[found.value].id == b.id;
    assert found == Some(pos);
  }

  /** Moving `offset` binders away and then `offset` back returns to the
      binder started from. */
  lemma NeighbourRoundTrip(binders: seq<Binder>, b: Binder, offset: int)
    requires b in binders && Seqs.KeysDistinct(binders, BinderId)
    ensures Neighbour(binders, Neighbour(binders, b.id, offset).id, -offset) == b
  {
    var len := |binders|;
    var pos := PositionOf(binders, b, offset);
    var newPos := (pos + offset) % len;
    var n := Ordered(binders)[newPos];
    assert n in multiset(binders);
    var back := PositionOf(binders, n, -offset);
    assert back == newPos;
    WrapBack(pos, offset, len);
  }

  /** Stepping `offset` places round a cycle of `len` and back again. */
  lemma WrapBack(pos: int, offset: int, len: int)
    requires 0 <= pos < len
    ensures ((pos + offset) % len - offset) % len == pos
  {
    var q := (pos + offset) / len;
    var newPos := (pos + offset) % len;
    assert pos + offset == q * len + newPos;
    assert newPos - offset == (-q) * len + pos;
    Helpers.ModUnique(newPos - offset, len, -q, pos);
  }

  /** With distinct numbers, number order is strictly increasing. */
  lemma OrderedIncreasing(binders: seq<Binder>)
    requires Seqs.KeysDistinct(binders, BinderNumber)
    ensures forall i, j | 0 <= i < j < |binders| :: Ordered(binders)[i].number < Ordered(binders)[j].number
  {
    var ordered := Ordered(binders);
    BinderLeTotalPreorder();
    Seqs.SortBySorted(binders, BinderLe);
    Seqs.PermutationKeysDistinct(binders, ordered, BinderNumber);
    forall i, j | 0 <= i < j < |ordered|
      ensures ordered[i].number < ordered[j].number
    {
      assert BinderLe(ordered[i], ordered[j]);
      assert BinderNumber(ordered[i]) != BinderNumber(ordered[j]);
    }
  }

  /** Tab opens the binder with the next higher number; from the highest
      number it wraps to the lowest. */
  lemma NextNeighbourByNumber(binders: seq<Binder>, b: Binder)
    requires b in binders
    requires Seqs.KeysDistinct(binders, BinderId) && Seqs.KeysDistinct(binders, BinderNumber)
    ensures
      var n := Neighbour(binders, b.id, 1);
      || (n.number > b.number && forall c | c in binders :: !(b.number < c.number < n.number))
      || (forall c | c in binders :: n.number <= c.number <= b.number)
  {
    var len := |binders|;
    var ordered := Ordered(binders);
    var pos := PositionOf(binders, b, 1);
    OrderedIncreasing(binders);
    var n := Neighbour(binders, b.id, 1);
    if pos + 1 < len {
      Helpers.ModUnique(pos + 1, len, 0, pos + 1);
      assert n == ordered[pos + 1];
      forall c | c in binders
        ensures !(b.number < c.number < n.number)
      {
        assert c in multiset(ordered);
        var k :| 0 <= k < len && ordered[k] == c;
      }
    } else {
      Helpers.ModUnique(pos + 1, len, 1, 0);
      assert n == ordered[0];
      forall c | c in binders
        ensures n.number <= c.number <= b.number
      {
        assert c in multiset(ordered);
        var k :| 0 <= k < len && ordered[k] == c;
      }
    }
  }

  /** `open_song_manager`: every song, unfiltered; the composer list for
      autocomplete is refreshed too. */
  function OpenSongManager(a: App): App {
    a.(screen := SongManager(SongLists.NewManager(SongStore.FetchAllSongs(a.store))),
       composers := SongStore.FetchComposers(a.store))
  }

  /** `open_to_print_view`: the report built against the director's binder,
      consistent and with nothing ticked. */
  function OpenToPrintView(a: App): (r: App)
    ensures r == a.(screen := r.screen)
    ensures r.screen.ToPrintView? && ToPrint.Inv(r.screen.report)
    ensures !ToPrint.HasPendingChanges(r.screen.report)
    ensures r.screen.report.directorExists <==> exists i | 0 <= i < |a.binders| :: a.binders[i].number == 0
  {
    a.(screen := ToPrintView(Reconcile.OpenToPrint(a.store, a.binders)))
  }

  /** `refresh_song_screen`: a binder's song list re-reads its songs and
      keeps its search. */
  function RefreshSongScreen(a: App): (r: App)
    ensures r == a.(screen := r.screen)
    ensures !a.screen.Songs? ==> r == a
    ensures a.screen.Songs? ==>
      && r.screen.Songs? && r.screen.songs.binder == a.screen.songs.binder
      && r.screen.songs.list.songs == SongStore.FetchSongsForBinder(a.store, a.screen.songs.binder.id)
      && r.screen.songs.list.filter == a.screen.songs.list.filter
      && SongLists.SongScreenInv(r.screen.songs)
  {
    if a.screen.Songs? then
      var s := a.screen.songs;
      a.(screen := Songs(SongLists.SongScreenSetSongs(s, SongStore.FetchSongsForBinder(a.store, s.binder.id))))
    else a
  }

  /** `refresh_song_manager`: the manager re-reads every song and keeps its
      search and switch; the composer list is reloaded whatever the
      screen. */
  function RefreshSongManager(a: App): (r: App)
    ensures r == a.(screen := r.screen, composers := r.composers)
    ensures r.composers == SongStore.FetchComposers(a.store)
    ensures !a.screen.SongManager? ==> r.screen == a.screen
    ensures a.screen.SongManager? ==>
      && r.screen.SongManager?
      && r.screen.manager.list.songs == SongStore.FetchAllSongs(a.store)
      && r.screen.manager.list.filter == a.screen.manager.list.filter
      && r.screen.manager.showOnlyNoLink == a.screen.manager.showOnlyNoLink
      && SongLists.ManagerInv(r.screen.manager)
  {
    var a1 := if a.screen.SongManager? then
      a.(screen := SongManager(SongLists.ManagerSetSongs(a.screen.manager, SongStore.FetchAllSongs(a.store))))
      else a;
    a1.(composers := SongStore.FetchComposers(a.store))
  }

  // ---------------------------------------------------------------------
  // Linking several songs in a row
  // ---------------------------------------------------------------------

  /** A join row the store accepts: both ends exist. */
  predicate Linkable(st: Store, p: (int, int)) {
    p.0 in BinderIds(st) && p.1 in SongIds(st)
  }

  function LinkSet(pairs: seq<(int, int)>): set<(int, int)> {
    set p | p in pairs
  }

  /** The outcome of adding join rows one after another: the store
      afterwards, how many were added, and the error that stopped the run. */
  datatype Batch = Batch(store: Store, added: nat, failure: Option<Error>)

  /** Adds the pairs in order with `add_song_to_binder` and stops at the
      first one the store refuses; the rows added before it stay. */
  function LinkAll(st: Store, pairs: seq<(int, int)>): (r: Batch)
    ensures r.store == st.(links := r.store.links)
    ensures r.added <= |pairs|
    ensures forall i | 0 <= i < r.added :: Linkable(st, pairs[i])
    ensures r.failure.None? <==> r.added == |pairs|
    ensures r.failure.Some? ==>
      !Linkable(st, pairs[r.added])
      && r.failure.value.chain == [SongStore.LINK_CONTEXT, SongStore.FOREIGN_KEY_FAILED, SongStore.FOREIGN_KEY_CODE]
    ensures r.store.links == st.links + LinkSet(pairs[..r.added])
    ensures Valid(st) ==> Valid(r.store)
    decreases |pairs|
  {
    if |pairs| == 0 then Batch(st, 0, None)
    else
      var w := SongStore.AddSongToBinder(st, pairs[0].0, pairs[0].1);
      if w.result.Err? then
        assert pairs[..0] == [];
        Batch(st, 0, Some(w.result.error))
      else
        var rest := LinkAll(w.store, pairs[1..]);
        assert BinderIds(w.store) == BinderIds(st) && SongIds(w.store) == SongIds(st);
        assert pairs[..rest.added + 1] == [pairs[0]] + pairs[1..][..rest.added];
        assert LinkSet(pairs[..rest.added + 1]) == {pairs[0]} + LinkSet(pairs[1..][..rest.added]);
        Batch(rest.store, rest.added + 1, rest.failure)
  }

  /** Every pair acceptable means every pair ends up linked. */
  lemma LinkAllComplete(st: Store, pairs: seq<(int, int)>)
    requires forall i | 0 <= i < |pairs| :: Linkable(st, pairs[i])
    ensures LinkAll(st, pairs).failure.None?
    ensures LinkAll(st, pairs).store.links == st.links + LinkSet(pairs)
  {
    assert pairs[..|pairs|] == pairs;
  }

  /** `apply_to_print_changes`: links every ticked (binder, song) pair;
      the first refusal is returned as the error with the earlier rows kept
      and nothing refreshed. When at least one row was added the manager,
      the composer list and the song list are refreshed. */
  function ApplyToPrintChanges(a: App, assignments: seq<(int, int)>): (r: (App, Result<nat>))
    ensures r.0.store == LinkAll(a.store, assignments).store
    ensures r.1.Ok? <==> LinkAll(a.store, assignments).failure.None?
    ensures r.1.Ok? ==> r.1.value == |assignments|
    ensures r.1.Err? ==> r.0 == a.(store := r.0.store)
    ensures r.0.binders == a.binders && r.0.mode == a.mode && r.0.status == a.status
  {
    var batch := LinkAll(a.store, assignments);
    var a1 := a.(store := batch.store);
    match batch.failure
    case Some(e) => (a1, Err(e))
    case None =>
      (if batch.added > 0 then RefreshSongScreen(RefreshSongManager(a1)) else a1, Ok(batch.added))
  }

  // ---------------------------------------------------------------------
  // Saving the binder forms and deleting a binder
  // ---------------------------------------------------------------------

  /** `save_new_binder`: validate, insert, reload focused on the new binder
      and report it. Any failure leaves the application as it was. */
  function SaveNewBinder(a: App, form: Forms.BinderForm): (r: Result<App>)
    ensures Forms.ParseBinderInputs(form).Err? ==> r == Err(Forms.ParseBinderInputs(form).error)
    ensures Forms.ParseBinderInputs(form).Ok? ==>
      var number := Forms.ParseBinderInputs(form).value.0;
      var w := BinderStore.CreateBinder(a.store, number, Forms.ParseBinderInputs(form).value.1);
      && (r.Err? <==> NumberTaken(a.store, number))
      && (r.Err? ==> r.error == w.result.error)
      && (r.Ok? ==>
            && r.value.store == w.store
            && r.value.binders == BinderStore.FetchBinders(w.store)
            && r.value.selected < |r.value.binders|
            && r.value.binders[r.value.selected].id == w.result.value.id
            && (Valid(a.store) ==> r.value.binders[r.value.selected] == w.result.value)
            && r.value.status == Some(Status("Added Binder " + Pad2(number) + ".", false)))
  {
    match Forms.ParseBinderInputs(form)
    case Err(e) => Err(e)
    case Ok((number, labelText)) =>
      var w := BinderStore.CreateBinder(a.store, number, labelText);
      match w.result
      case Err(e) => Err(e)
      case Ok(b) =>
        var a1 := ReloadBinders(a.(store := w.store), Some(b.id));
        NewBinderFocused(a.store, w, a1.binders, a1.selected);
        Ok(Info(a1, "Added Binder " + Pad2(b.number) + "."))
  }

  /** After an insert, reloading focused on the new id selects the new row,
      and in a consistent store it is the only row with that id. */
  lemma NewBinderFocused(st: Store, w: Write<Binder>, binders: seq<Binder>, selected: nat)
    requires w.result.Ok? && w.store.binders == st.binders + [w.result.value]
    requires binders == BinderStore.FetchBinders(w.store)
    requires (exists i | 0 <= i < |binders| :: binders[i].id == w.result.value.id) ==>
      selected < |binders| && binders[selected].id == w.result.value.id
    ensures selected < |binders| && binders[selected].id == w.result.value.id
    ensures Valid(st) && w.result.value.id !in BinderIds(st) ==> binders[selected] == w.result.value
  {
    var b := w.result.value;
    assert b in multiset(w.store.binders);
    assert b in multiset(binders);
    var k :| 0 <= k < |binders| && binders[k] == b;
    var c := binders[selected];
    assert c in multiset(w.store.binders);
    assert c == b || c in st.binders;
  }

  /** `save_existing_binder`: validate, update, reload focused on the
      binder and report it; a song list showing this binder takes the new
      number and label. Any failure leaves the application as it was. */
  function SaveExistingBinder(a: App, id: int, form: Forms.BinderForm): (r: Result<App>)
    ensures Forms.ParseBinderInputs(form).Err? ==> r == Err(Forms.ParseBinderInputs(form).error)
    ensures Forms.ParseBinderInputs(form).Ok? ==>
      var (number, labelText) := Forms.ParseBinderInputs(form).value;
      && (r.Ok? <==> id in BinderIds(a.store) && !BinderStore.NumberClash(a.store, id, number))
      && (r.Err? ==> r == Err(BinderStore.UpdateBinder(a.store, id, number, labelText).result.error))
      && (r.Ok? ==>
            && r.value.store == BinderStore.UpdateBinder(a.store, id, number, labelText).store
            && r.value.status == Some(Status("Updated Binder " + Pad2(number) + ".", false))
            && (a.screen.Songs? && a.screen.songs.binder.id == id ==>
                  r.value.screen.Songs? && r.value.screen.songs.binder == Binder(id, number, labelText)))
  {
    match Forms.ParseBinderInputs(form)
    case Err(e) => Err(e)
    case Ok((number, labelText)) =>
      var w := BinderStore.UpdateBinder(a.store, id, number, labelText);
      match w.result
      case Err(e) => Err(e)
      case Ok(_) =>
        var a1 := Info(ReloadBinders(a.(store := w.store), Some(id)), "Updated Binder " + Pad2(number) + ".");
        if a1.screen.Songs? && a1.screen.songs.binder.id == id then
          Ok(a1.(screen := Songs(a1.screen.songs.(binder := Binder(id, number, labelText)))))
        else Ok(a1)
  }

  /** `perform_delete`: delete, reload, back to the grid, report it. A
      failure leaves the application as it was. */
  function PerformDelete(a: App, confirm: Forms.ConfirmBinderDelete): (r: Result<App>)
    ensures r.Err? <==> confirm.id !in BinderIds(a.store)
    ensures r.Err? ==> r.error == Fail(BinderStore.NOT_FOUND)
    ensures r.Ok? ==>
      && r.value.store == BinderStore.WithoutBinder(a.store, confirm.id)
      && r.value.screen == Binders
      && (forall b | b in r.value.binders :: b.id != confirm.id)
      && r.value.status == Some(Status("Deleted Binder " + Pad2(confirm.number) + ".", false))
  {
    var w := BinderStore.DeleteBinder(a.store, confirm.id);
    match w.result
    case Err(e) => Err(e)
    case Ok(_) =>
      var a1 := ReloadBinders(a.(store := w.store), None);
      assert forall b | b in a1.binders :: b in multiset(w.store.binders);
      Ok(Info(a1.(screen := Binders), "Deleted Binder " + Pad2(confirm.number) + "."))
  }
}
