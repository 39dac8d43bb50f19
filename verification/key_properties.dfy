/** Properties of whole key presses, stated on `HandleKey` and the Ctrl
    shortcuts: when the program may quit, what protects ticked songs on the
    To Print screen, what batch linking from the picker does, where the
    song editor returns to, and which keys can touch the store. */
module KeyProperties {
  import opened Outcomes
  import opened Text
  import opened Models
  import opened Store
  import opened Controller
  import opened Keys
  import BinderStore
  import SongStore
  import SongLists
  import Picker
  import ToPrint
  import Forms

  predicate Pending(a: App) {
    a.screen.ToPrintView? && ToPrint.HasPendingChanges(a.screen.report)
  }

  /** The program quits only from `Normal` mode with no ticked songs
      pending, or by confirming the exit dialog that was opened by `q`. */
  lemma QuitsOnlyWhenSafe(a: App, code: KeyCode, opener: Opener)
    ensures var r := HandleKey(a, code, opener);
      r.Step? && r.exit ==>
        || (a.mode == Normal && !Pending(a))
        || (a.mode.ConfirmingToPrintExit? && a.mode.exitConfirm.exitApp && code == Enter)
  {
    var r := HandleKey(a, code, opener);
    if r.Step? && r.exit && a.mode == Normal && a.screen.ToPrintView? {
      assert code == Char('q') && !ToPrint.HasPendingChanges(a.screen.report);
    }
  }

  /** With ticked songs pending on the To Print screen, no key quits or
      leaves the screen directly: `q` opens the dialog that quits
      afterwards, Esc and `p` the one that returns to the grid. */
  lemma PendingChangesNeedConfirmation(a: App, code: KeyCode, opener: Opener)
    requires a.mode == Normal && Pending(a)
    ensures var r := HandleKey(a, code, opener);
      && r.Step? && !r.exit && r.app.screen.ToPrintView? && r.app.store == a.store
      && (code == Char('q') ==> r.app.mode == ConfirmingToPrintExit(Forms.NewConfirmToPrintExit(true)))
      && (code in {Esc, Char('p'), Char('P')} ==>
            r.app.mode == ConfirmingToPrintExit(Forms.NewConfirmToPrintExit(false)))
  {
    var r := HandleKey(a, code, opener);
    var report := a.screen.report;
    match code {
      case Char(ch) =>
        if ch == ' ' {
          var (report', _) := ToPrint.ToggleCurrent(report);
          assert r.app.screen == ToPrintView(report') || r.app.screen == a.screen;
        }
      case _ =>
    }
  }

  /** Without pending changes `q` quits at once and Esc returns to the grid
      with the status cleared. */
  lemma NothingPendingLeavesDirectly(a: App, opener: Opener)
    requires a.mode == Normal && a.screen.ToPrintView? && !Pending(a)
    ensures HandleKey(a, Char('q'), opener) == Step(a, true)
    ensures HandleKey(a, Esc, opener) == Step(a.(screen := Binders, status := None), false)
  {
  }

  /** Esc, or Enter on Cancel, closes the exit dialog and leaves the report,
      its ticks and the store as they were. */
  lemma CancelKeepsReport(a: App, code: KeyCode, opener: Opener)
    requires a.mode.ConfirmingToPrintExit?
    requires code == Esc || (code == Enter && a.mode.exitConfirm.selection == Forms.Cancel)
    ensures HandleKey(a, code, opener) == Step(a.(mode := Normal), false)
  {
  }

  /** Discard quits (or returns to the grid) without linking anything. */
  lemma DiscardLinksNothing(a: App, opener: Opener)
    requires a.mode.ConfirmingToPrintExit? && a.mode.exitConfirm.selection == Forms.Discard
    ensures var r := HandleKey(a, Enter, opener);
      && r.Step? && r.app.store == a.store && r.app.mode == Normal
      && (r.exit <==> a.mode.exitConfirm.exitApp)
  {
  }

  /** Apply on the report links every ticked (binder, song) pair when the
      store accepts them all, then quits or returns to the grid as the
      dialog was opened to. */
  lemma ApplyLinksTicked(a: App, opener: Opener)
    requires a.mode.ConfirmingToPrintExit? && a.mode.exitConfirm.selection == Forms.Apply
    requires a.screen.ToPrintView?
    requires var pending := ToPrint.PendingAssignments(a.screen.report);
      forall i | 0 <= i < |pending| :: Linkable(a.store, pending[i])
    ensures var r := HandleKey(a, Enter, opener);
      && r.Step? && r.app.mode == Normal
      && (r.exit <==> a.mode.exitConfirm.exitApp)
      && r.app.store == a.store.(links := a.store.links + LinkSet(ToPrint.PendingAssignments(a.screen.report)))
  {
    var pending := ToPrint.PendingAssignments(a.screen.report);
    var a0 := a.(mode := Normal);
    assert HandleKey(a, Enter, opener) == ConfirmToPrintExitKey(a0, Enter, a.mode.exitConfirm);
    LinkAllComplete(a0.store, pending);
  }

  /** Enter in the picker with songs ticked, when the binder and every
      ticked song exist: all of them are linked, the picker closes and the
      count is reported. */
  lemma BatchLinksAllTicked(a: App, opener: Opener)
    requires a.mode.SelectingSong?
    requires var p := a.mode.picker;
      |Picker.CheckedSongs(p)| > 0 && p.binderId in BinderIds(a.store)
      && forall s | s in Picker.CheckedSongs(p) :: s.id in SongIds(a.store)
    ensures var p := a.mode.picker;
      var r := HandleKey(a, Enter, opener);
      && r.Step? && !r.exit && r.app.mode == Normal
      && r.app.store == a.store.(links := a.store.links + LinksFor(p.binderId, Picker.CheckedSongs(p)))
      && r.app.status == Some(Status(AddedMessage(|Picker.CheckedSongs(p)|), false))
  {
    var p := a.mode.picker;
    var ticked := Picker.CheckedSongs(p);
    var a0 := a.(mode := Normal);
    InPicker(a, Enter, opener);
    LinkTickedComplete(a0, p, ticked);
  }

  /** In the picker a key goes to the picker's handler. */
  lemma InPicker(a: App, code: KeyCode, opener: Opener)
    requires a.mode.SelectingSong?
    ensures HandleKey(a, code, opener) == SelectSongKey(a.(mode := Normal), code, a.mode.picker)
  {
  }

  /** The join rows for a binder and a list of songs. */
  function LinksFor(binderId: int, songs: seq<Song>): set<(int, int)> {
    set s | s in songs :: (binderId, s.id)
  }

  lemma LinkTickedComplete(a: App, p: Picker.Picker, songs: seq<Song>)
    requires |songs| > 0 && p.binderId in BinderIds(a.store)
    requires forall s | s in songs :: s.id in SongIds(a.store)
    ensures var r := LinkTicked(a, p, songs);
      && r.app.mode == Normal
      && r.app.store == a.store.(links := a.store.links + LinksFor(p.binderId, songs))
      && r.app.status == Some(Status(AddedMessage(|songs|), false))
  {
    var pairs := PairsFor(p.binderId, songs);
    forall i | 0 <= i < |pairs|
      ensures Linkable(a.store, pairs[i])
    {
      assert songs[i] in songs;
    }
    LinkAllComplete(a.store, pairs);
    PairsForLinks(p.binderId, songs);
  }

  /** The join rows asked for by a list of songs are exactly one per song. */
  lemma PairsForLinks(binderId: int, songs: seq<Song>)
    ensures LinkSet(PairsFor(binderId, songs)) == LinksFor(binderId, songs)
  {
    var pairs := PairsFor(binderId, songs);
    forall x | x in LinkSet(pairs)
      ensures x in LinksFor(binderId, songs)
    {
      var i :| 0 <= i < |pairs| && pairs[i] == x;
      assert songs[i] in songs;
    }
    forall s | s in songs
      ensures (binderId, s.id) in LinkSet(pairs)
    {
      var i :| 0 <= i < |songs| && songs[i] == s;
      assert pairs[i] == (binderId, s.id);
    }
  }

  /** When the store refuses the very first ticked song, nothing is linked
      and the picker stays open with its ticks, showing the error. */
  lemma BatchRefusedAtOnceKeepsPicker(a: App, opener: Opener)
    requires a.mode.SelectingSong?
    requires var p := a.mode.picker;
      |Picker.CheckedSongs(p)| > 0
      && !Linkable(a.store, (p.binderId, Picker.CheckedSongs(p)[0].id))
    ensures var r := HandleKey(a, Enter, opener);
      && r.Step? && !r.exit && r.app.mode == a.mode && r.app.store == a.store
      && r.app.status == Some(Status(SongStore.FOREIGN_KEY_CODE, true))
  {
    var p := a.mode.picker;
    var pairs := PairsFor(p.binderId, Picker.CheckedSongs(p));
    var batch := LinkAll(a.store, pairs);
    assert !Linkable(a.store, pairs[0]);
    assert batch.added == 0;
  }

  /** Ctrl-E during a search opens the highlighted song; cancelling the
      editor goes back into the same search, with the same list and filter,
      and nothing put aside any more. */
  lemma CtrlEThenEscReturnsToSearch(a: App, opener: Opener)
    requires a.mode.Searching? && CurrentSongOn(a.screen).Some?
    ensures var e := CtrlE(a);
      && e.mode.EditingSong?
      && HandleKey(e, Esc, opener)
         == Step(a.(status := Some(Status("Edit cancelled.", false)), savedSearch := None), false)
  {
    var song := CurrentSongOn(a.screen).value;
    assert !Forms.HasActiveSuggestion(Forms.FromSong(song));
  }

  /** The same keystroke delivered as a control character inside the
      search opens the editor without putting the search aside, so
      cancelling it ends in `Normal` mode. */
  lemma CtrlECharInSearchForgetsSearch(a: App, opener: Opener)
    requires a.mode.Searching? && Targets(a.mode.search.target, a.screen)
    requires CurrentSongOn(a.screen).Some? && a.savedSearch.None?
    ensures var e := HandleKey(a, Char(CTRL_E), opener);
      && e.Step? && e.app.mode.EditingSong?
      && HandleKey(e.app, Esc, opener).app.mode == Normal
  {
    var song := CurrentSongOn(a.screen).value;
    assert !Forms.HasActiveSuggestion(Forms.FromSong(song));
    assert IsControl(CTRL_E);
    assert Navigate(ShownList(a.screen).value, Char(CTRL_E)).None?;
  }

  /** Typing a visible character into a search appends it to the query and
      filters the list by the new query, or shows everything while the
      query is only whitespace. */
  lemma TypingInSearchFilters(a: App, ch: char, opener: Opener)
    requires a.mode.Searching? && Targets(a.mode.search.target, a.screen) && !IsControl(ch)
    ensures var query := a.mode.search.query + [ch];
      var r := HandleKey(a, Char(ch), opener);
      && r.Step? && r.app.mode == Searching(a.mode.search.(query := query))
      && ShownList(r.app.screen).Some?
      && ShownList(r.app.screen).value.filter == (if IsBlank(query) then None else Some(query))
      && ShownList(r.app.screen).value.songs == ShownList(a.screen).value.songs
  {
  }

  /** Ctrl-L changes nothing off the manager; on it, two presses restore the
      switch and the shown songs. */
  lemma CtrlLTwiceRestores(a: App)
    requires a.screen.SongManager? && SongLists.ManagerInv(a.screen.manager)
    ensures var twice := CtrlL(CtrlL(a));
      && twice.screen.SongManager?
      && twice.screen.manager.showOnlyNoLink == a.screen.manager.showOnlyNoLink
      && twice.screen.manager.list.filtered == a.screen.manager.list.filtered
      && twice.store == a.store && twice.mode == a.mode
  {
    SongLists.ToggleShowNoLinkTwice(a.screen.manager);
  }

  /** `+` on the grid opens the binder form with the next free number in
      the number field (empty when that number is not positive), so the
      suggestion never collides with an existing binder. */
  lemma AddBinderSuggestsFreeNumber(a: App, opener: Opener)
    requires a.mode == Normal && a.screen == Binders
    requires a.binders == BinderStore.FetchBinders(a.store)
    ensures var n := NextBinderNumber(a.binders);
      var r := HandleKey(a, Char('+'), opener);
      && r.Step? && r.app.mode.AddingBinder?
      && r.app.mode.binderForm.number == (if n > 0 then IntToString(n) else "")
      && r.app.mode.binderForm.active == Forms.Number
      && !NumberTaken(a.store, n)
  {
    SuggestedNumberIsFree(a.store, "");
  }

  /** The only key press that ends with an uncaught error is Enter in the
      "create song" form of a binder that no longer exists; it leaves the
      application in `Normal` mode with the new song stored. */
  lemma AbortsOnlyOnVanishedBinder(a: App, code: KeyCode, opener: Opener)
    ensures var r := HandleKey(a, code, opener);
      r.Aborted? ==>
        && a.mode.CreatingSong? && code == Enter
        && a.mode.binderId.Some? && a.mode.binderId.value !in BinderIds(a.store)
        && r.app.mode == Normal
        && r.error.chain == [SongStore.LINK_CONTEXT, SongStore.FOREIGN_KEY_FAILED, SongStore.FOREIGN_KEY_CODE]
  {
    var a0 := a.(mode := Normal);
    match a.mode
    case CreatingSong(binderId, form) =>
      assert HandleKey(a, code, opener) == CreateSongKey(a0, code, binderId, form);
    case _ => NoAbortOutsideSongCreation(a, code, opener);
  }

  /** Every handler other than song creation catches its store errors. */
  lemma NoAbortOutsideSongCreation(a: App, code: KeyCode, opener: Opener)
    requires !a.mode.CreatingSong?
    ensures HandleKey(a, code, opener).Step?
  {
    var a0 := a.(mode := Normal);
    match a.mode
    case Normal => assert NormalKey(a0, code, opener).Step?;
    case AddingBinder(form) => assert AddBinderKey(a0, code, form).Step?;
    case EditingBinder(id, form) => assert EditBinderKey(a0, code, id, form).Step?;
    case ConfirmingBinderDelete(c) => assert ConfirmBinderDeleteKey(a0, code, c).Step?;
    case EditingSong(songId, form) => assert EditSongKey(a0, code, songId, form).Step?;
    case ConfirmingSongRemove(c) => assert ConfirmSongRemoveKey(a0, code, c).Step?;
    case ConfirmingSongDelete(c) => assert ConfirmSongDeleteKey(a0, code, c).Step?;
    case SelectingSong(p) => assert SelectSongKey(a0, code, p).Step?;
    case ConfirmingToPrintExit(c) => assert ConfirmToPrintExitKey(a0, code, c).Step?;
    case Searching(search) => assert SearchKey(a0, code, search, opener).Step?;
  }

  /** Only a confirming key in a form or dialog can change the store:
      Enter, or `y`/`Y` in a confirmation. */
  lemma OnlyConfirmationWrites(a: App, code: KeyCode, opener: Opener)
    requires code != Enter && code != Char('y') && code != Char('Y')
    ensures HandleKey(a, code, opener).app.store == a.store
  {
  }
}
