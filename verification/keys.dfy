/** Key handling: `handle_key` and the per-mode handlers it dispatches to,
    the two Ctrl shortcuts, and the event loop's routing between them. A
    handler sees the application with its mode already reset to `Normal`
    (`mem::replace`) and leaves the next mode in the returned state. */
module Keys {
  import opened Outcomes
  import opened Text
  import opened Models
  import opened Store
  import opened Controller
  import SongStore
  import SongLists
  import Picker
  import ToPrint
  import Forms
  import Helpers

  datatype KeyCode =
    | Char(c: char)
    | Esc | Enter | Tab | BackTab | Backspace
    | Up | Down | Left | Right | PageUp | PageDown | Home | End
    | OtherKey

  /** The result of one key: the new state and whether the program quits;
      or the error a failing store call propagated with `?`, together with
      the state at that point (mode `Normal`, as `handle_key` left it). */
  datatype Step = Step(app: App, exit: bool) | Aborted(app: App, error: Error)

  /** The browser launcher: `None` on success, or the text of its error.
      It is outside the model and is passed in. */
  type Opener = string -> Option<string>

  const CTRL_E := 5 as char

  const NO_LINK := "This song does not have a link."
  const NO_SONG_TO_EDIT := "No song selected to edit."

  /** Keeps the application and enters `mode`; the program goes on. */
  function Go(a: App, mode: Mode): (r: Step)
    ensures r.Step? && !r.exit && r.app == a.(mode := mode)
  {
    Step(a.(mode := mode), false)
  }

  // ---------------------------------------------------------------------
  // Shared by the list screens
  // ---------------------------------------------------------------------

  /** The Enter key on a song row: no song does nothing; a blank link is an
      error; otherwise the trimmed link goes to the launcher and its outcome
      is reported. */
  function OpenSongLink(a: App, song: Option<Song>, opener: Opener): (r: App)
    ensures r == a.(status := r.status)
    ensures song.None? ==> r == a
    ensures song.Some? && IsBlank(song.value.link) ==> r.status == Some(Status(NO_LINK, true))
    ensures song.Some? && !IsBlank(song.value.link) ==>
      r.status == Some(match opener(Trim(song.value.link))
        case None => Status("Opened " + DisplayTitle(song.value) + ".", false)
        case Some(err) => Status("Failed to open link: " + err, true))
  {
    match song
    case None => a
    case Some(s) =>
      var link := Trim(s.link);
      if link == [] then Problem(a, NO_LINK)
      else match opener(link)
        case None => Info(a, "Opened " + DisplayTitle(s) + ".")
        case Some(err) => Problem(a, "Failed to open link: " + err)
  }

  /** The list shown by a song screen or the manager, if one is showing. */
  function ShownList(s: Screen): Option<SongLists.SongList> {
    match s
    case Songs(songs) => Some(songs.list)
    case SongManager(m) => Some(m.list)
    case _ => None
  }

  function CurrentSongOn(s: Screen): (r: Option<Song>)
    ensures ShownList(s).None? ==> r.None?
    ensures ShownList(s).Some? ==> r == SongLists.CurrentSong(ShownList(s).value)
  {
    match ShownList(s)
    case None => None
    case Some(l) => SongLists.CurrentSong(l)
  }

  /** Replaces the list of a song screen or the manager; other screens are
      left alone. */
  function WithList(s: Screen, l: SongLists.SongList): Screen {
    match s
    case Songs(songs) => Songs(songs.(list := l))
    case SongManager(m) => SongManager(m.(list := l))
    case _ => s
  }

  /** The navigation keys shared by the song screen, the manager and their
      searches; `None` for every other key. */
  function Navigate(l: SongLists.SongList, code: KeyCode): (r: Option<SongLists.SongList>)
    ensures r.Some? ==> r.value.songs == l.songs && r.value.filtered == l.filtered && r.value.filter == l.filter
    ensures r.Some? <==> code in {Up, Down, PageUp, PageDown, Home, End}
  {
    match code
    case Up => Some(SongLists.MoveSelection(l, -1))
    case Down => Some(SongLists.MoveSelection(l, 1))
    case PageUp => Some(SongLists.MoveSelection(l, -5))
    case PageDown => Some(SongLists.MoveSelection(l, 5))
    case Home => Some(SongLists.SelectFirst(l))
    case End => Some(SongLists.SelectLast(l))
    case _ => None
  }

  /** `set_filter` on whichever list is showing. */
  function SetFilterOn(s: Screen, filter: Option<string>): (r: Screen)
    ensures s.Songs? ==>
      (r.Songs? && r.songs.binder == s.songs.binder
       && r.songs.list.songs == s.songs.list.songs && r.songs.list.filter == filter)
    ensures s.SongManager? ==>
      (r.SongManager? && r.manager.showOnlyNoLink == s.manager.showOnlyNoLink
       && r.manager.list.songs == s.manager.list.songs && r.manager.list.filter == filter)
    ensures !s.Songs? && !s.SongManager? ==> r == s
  {
    match s
    case Songs(songs) => Songs(SongLists.SongScreenSetFilter(songs, filter))
    case SongManager(m) => SongManager(SongLists.ManagerSetFilter(m, filter))
    case _ => s
  }

  /** The editor opened on the highlighted song, or the error when there is
      none. */
  function EditCurrent(a: App, song: Option<Song>, fallback: Mode): (r: Step)
    ensures song.Some? ==> r == Go(a, EditingSong(song.value.id, Forms.FromSong(song.value)))
    ensures song.None? ==> r == Go(Problem(a, NO_SONG_TO_EDIT), fallback)
  {
    match song
    case Some(s) => Go(a, EditingSong(s.id, Forms.FromSong(s)))
    case None => Go(Problem(a, NO_SONG_TO_EDIT), fallback)
  }

  // ---------------------------------------------------------------------
  // Normal mode, one handler per screen
  // ---------------------------------------------------------------------

  /** The binder grid. */
  function BindersKey(a: App, code: KeyCode): (r: Step)
    ensures r.Step?
    ensures r.exit <==> code == Char('q') || code == Esc
    ensures r.app.store == a.store
  {
    match code
    case Char('q') => Step(a, true)
    case Esc => Step(a, true)
    case Left => Go(MoveHorizontal(a, -1), Normal)
    case Right => Go(MoveHorizontal(a, 1), Normal)
    case Up => Go(MoveVertical(a, -1), Normal)
    case Down => Go(MoveVertical(a, 1), Normal)
    case Enter =>
      (match CurrentBinder(a)
       case Some(b) => Go(OpenBinderView(a, b), Normal)
       case None => Go(Problem(a, "No binder selected."), Normal))
    case Char('s') => Go(OpenSongManager(ClearStatus(a)), Normal)
    case Char('S') => Go(OpenSongManager(ClearStatus(a)), Normal)
    case Char('p') => Go(OpenToPrintView(ClearStatus(a)), Normal)
    case Char('P') => Go(OpenToPrintView(ClearStatus(a)), Normal)
    case Char('+') =>
      var form := Forms.FocusBinderField(Forms.WithNumber(NextBinderNumber(a.binders)), Forms.Number);
      Go(ClearStatus(a), AddingBinder(form))
    case Char('-') =>
      (match CurrentBinder(a)
       case Some(b) => Go(ClearStatus(a), ConfirmingBinderDelete(Forms.ConfirmBinderDeleteFrom(b)))
       case None => Go(Problem(a, "No binder selected to remove."), Normal))
    case Char('e') => EditBinderAt(a)
    case Char('E') => EditBinderAt(a)
    case _ => Go(a, Normal)
  }

  function EditBinderAt(a: App): (r: Step)
    ensures r.Step? && !r.exit && r.app.store == a.store
  {
    match CurrentBinder(a)
    case Some(b) => Go(ClearStatus(a), EditingBinder(b.id, Forms.FromBinder(b)))
    case None => Go(Problem(a, "No binder selected to edit."), Normal)
  }

  /** The songs of one binder. */
  function SongsKey(a: App, songs: SongLists.SongScreen, code: KeyCode, opener: Opener): (r: Step)
    requires a.screen == Songs(songs)
    ensures r.Step?
    ensures r.exit <==> code == Char('q')
    ensures r.app.store == a.store
  {
    var nav := Navigate(songs.list, code);
    if nav.Some? then Go(a.(screen := Songs(songs.(list := nav.value))), Normal)
    else match code
      case Char('q') => Step(a, true)
      case Esc => Go(ClearStatus(a.(screen := Binders)), Normal)
      case Char('f') => Go(a, Searching(SearchState(SongsTarget, "")))
      case Char('s') => Go(OpenSongManager(a), Normal)
      case Char('S') => Go(OpenSongManager(a), Normal)
      case Char('p') => Go(OpenToPrintView(a), Normal)
      case Char('P') => Go(OpenToPrintView(a), Normal)
      case Tab => Go(OpenRelativeBinder(ClearStatus(a), 1), Normal)
      case BackTab => Go(OpenRelativeBinder(ClearStatus(a), -1), Normal)
      case Enter => Go(OpenSongLink(a, SongLists.CurrentSong(songs.list), opener), Normal)
      case Char('+') =>
        var p := Picker.Load(a.store, songs.binder.id);
        if |p.items| == 1 then Go(a, CreatingSong(Some(songs.binder.id), Forms.EmptySongForm()))
        else Go(a, SelectingSong(p))
      case Char('-') =>
        (match SongLists.CurrentSong(songs.list)
         case Some(s) => Go(a, ConfirmingSongRemove(Forms.ConfirmSongRemove(songs.binder.id, s)))
         case None => Go(Problem(a, "No song selected to remove."), Normal))
      case Char('e') => EditCurrent(a, SongLists.CurrentSong(songs.list), Normal)
      case Char('E') => EditCurrent(a, SongLists.CurrentSong(songs.list), Normal)
      case _ => Go(a, Normal)
  }

  /** The song manager. */
  function ManagerKey(a: App, m: SongLists.Manager, code: KeyCode, opener: Opener): (r: Step)
    requires a.screen == SongManager(m)
    ensures r.Step?
    ensures r.exit <==> code == Char('q')
    ensures r.app.store == a.store
  {
    var nav := Navigate(m.list, code);
    if nav.Some? then Go(a.(screen := SongManager(m.(list := nav.value))), Normal)
    else match code
      case Char('q') => Step(a, true)
      case Esc => Go(ClearStatus(a).(screen := Binders), Normal)
      case Char('s') => Go(ClearStatus(a).(screen := Binders), Normal)
      case Char('S') => Go(ClearStatus(a).(screen := Binders), Normal)
      case Char('f') => Go(a, Searching(SearchState(ManagerTarget, "")))
      case Enter => Go(OpenSongLink(a, SongLists.CurrentSong(m.list), opener), Normal)
      case Char('+') => Go(a, CreatingSong(None, Forms.EmptySongForm()))
      case Char('-') =>
        (match SongLists.CurrentSong(m.list)
         case Some(s) => Go(a, ConfirmingSongDelete(Forms.ConfirmSongDelete(s)))
         case None => Go(Problem(a, "No song selected to delete."), Normal))
      case Char('e') => EditCurrent(a, SongLists.CurrentSong(m.list), Normal)
      case Char('E') => EditCurrent(a, SongLists.CurrentSong(m.list), Normal)
      case Char('p') => Go(OpenToPrintView(a), Normal)
      case Char('P') => Go(OpenToPrintView(a), Normal)
      case Char('l') => Go(ToggleNoLink(a, m), Normal)
      case Char('L') => Go(ToggleNoLink(a, m), Normal)
      case _ => Go(a, Normal)
  }

  /** `l` and Ctrl-L on the manager: flip the "without link" switch and
      say which songs are now shown. */
  function ToggleNoLink(a: App, m: SongLists.Manager): (r: App)
    ensures r.screen.SongManager? && r.screen.manager.showOnlyNoLink == !m.showOnlyNoLink
    ensures r.status == Some(Status(
      if !m.showOnlyNoLink then "Showing songs without links." else "Showing all songs.", false))
    ensures r == a.(screen := r.screen, status := r.status)
  {
    var (m', active) := SongLists.ToggleShowNoLink(m);
    Info(a.(screen := SongManager(m')),
      if active then "Showing songs without links." else "Showing all songs.")
  }

  /** The To Print screen. With changes pending, neither quitting nor
      leaving happens directly: the confirmation dialog opens instead. */
  function ToPrintKey(a: App, report: ToPrint.Screen, code: KeyCode): (r: Step)
    requires a.screen == ToPrintView(report)
    ensures r.Step? && r.app.store == a.store
    ensures r.exit <==> code == Char('q') && !ToPrint.HasPendingChanges(report)
  {
    match code
    case Char('q') =>
      if ToPrint.HasPendingChanges(report) then Go(a, ConfirmingToPrintExit(Forms.NewConfirmToPrintExit(true)))
      else Step(a, true)
    case Esc => LeaveToPrint(a, report)
    case Char('p') => LeaveToPrint(a, report)
    case Char('P') => LeaveToPrint(a, report)
    case Tab => Go(a.(screen := ToPrintView(ToPrint.ToggleMode(report))), Normal)
    case BackTab => Go(a.(screen := ToPrintView(ToPrint.ToggleMode(report))), Normal)
    case Char('t') => Go(a.(screen := ToPrintView(ToPrint.ToggleMode(report))), Normal)
    case Char('T') => Go(a.(screen := ToPrintView(ToPrint.ToggleMode(report))), Normal)
    case Up => Go(a.(screen := ToPrintView(ToPrint.MoveSelection(report, -1))), Normal)
    case Down => Go(a.(screen := ToPrintView(ToPrint.MoveSelection(report, 1))), Normal)
    case PageUp => Go(a.(screen := ToPrintView(ToPrint.MoveSelection(report, -5))), Normal)
    case PageDown => Go(a.(screen := ToPrintView(ToPrint.MoveSelection(report, 5))), Normal)
    case Home => Go(a.(screen := ToPrintView(ToPrint.SelectFirst(report))), Normal)
    case End => Go(a.(screen := ToPrintView(ToPrint.SelectLast(report))), Normal)
    case Char(' ') =>
      var (report', checked) := ToPrint.ToggleCurrent(report);
      var a1 := a.(screen := ToPrintView(report'));
      (match checked
       case None => Go(a1, Normal)
       case Some(true) => Go(Info(a1, "Marked song as added."), Normal)
       case Some(false) => Go(Info(a1, "Song unchecked."), Normal))
    case _ => Go(a, Normal)
  }

  function LeaveToPrint(a: App, report: ToPrint.Screen): (r: Step)
    ensures r.Step? && !r.exit && r.app.store == a.store
  {
    if ToPrint.HasPendingChanges(report) then Go(a, ConfirmingToPrintExit(Forms.NewConfirmToPrintExit(false)))
    else Go(ClearStatus(a).(screen := Binders), Normal)
  }

  /** `handle_normal_key`. */
  function NormalKey(a: App, code: KeyCode, opener: Opener): (r: Step)
    ensures r.Step? && r.app.store == a.store
  {
    match a.screen
    case Binders => BindersKey(a, code)
    case Songs(songs) => SongsKey(a, songs, code, opener)
    case SongManager(m) => ManagerKey(a, m, code, opener)
    case ToPrintView(report) => ToPrintKey(a, report, code)
  }

  // ---------------------------------------------------------------------
  // Binder forms and the binder delete dialog
  // ---------------------------------------------------------------------

  /** Typing into a binder form: an accepted character clears the error. */
  function TypeIntoBinderForm(form: Forms.BinderForm, ch: char): Forms.BinderForm {
    var (f, changed) := Forms.BinderPushChar(form, ch);
    if changed then f.(error := None) else f
  }

  /** The keys shared by both binder forms; `None` for Esc and Enter. */
  function EditBinderForm(form: Forms.BinderForm, code: KeyCode): Option<Forms.BinderForm> {
    match code
    case Tab => Some(Forms.ToggleBinderField(form))
    case BackTab => Some(Forms.ToggleBinderField(form))
    case Backspace => Some(Forms.BinderBackspace(form))
    case Char(ch) => Some(TypeIntoBinderForm(form, ch))
    case Esc => None
    case Enter => None
    case _ => Some(form)
  }

  /** `handle_add_binder`. A failed save keeps the form open with the
      message on it and in the status line. */
  function AddBinderKey(a: App, code: KeyCode, form: Forms.BinderForm): (r: Step)
    ensures r.Step? && !r.exit
    ensures code == Enter ==>
      match SaveNewBinder(a, form)
      case Ok(a1) => r.app == a1.(mode := Normal)
      case Err(e) =>
        r.app == Problem(a, Helpers.SurfaceError(e)).(mode := AddingBinder(form.(error := Some(Helpers.SurfaceError(e)))))
    ensures code != Enter ==> r.app.store == a.store
  {
    match code
    case Esc => Go(Info(a, "Add binder cancelled."), Normal)
    case Enter =>
      (match SaveNewBinder(a, form)
       case Ok(a1) => Go(a1, Normal)
       case Err(e) =>
         var message := Helpers.SurfaceError(e);
         Go(Problem(a, message), AddingBinder(form.(error := Some(message)))))
    case _ => Go(a, AddingBinder(EditBinderForm(form, code).value))
  }

  /** `handle_edit_binder`. */
  function EditBinderKey(a: App, code: KeyCode, id: int, form: Forms.BinderForm): (r: Step)
    ensures r.Step? && !r.exit
    ensures code == Enter ==>
      match SaveExistingBinder(a, id, form)
      case Ok(a1) => r.app == a1.(mode := Normal)
      case Err(e) =>
        r.app == Problem(a, Helpers.SurfaceError(e)).(mode := EditingBinder(id, form.(error := Some(Helpers.SurfaceError(e)))))
    ensures code != Enter ==> r.app.store == a.store
  {
    match code
    case Esc => Go(Info(a, "Edit cancelled."), Normal)
    case Enter =>
      (match SaveExistingBinder(a, id, form)
       case Ok(a1) => Go(a1, Normal)
       case Err(e) =>
         var message := Helpers.SurfaceError(e);
         Go(Problem(a, message), EditingBinder(id, form.(error := Some(message)))))
    case _ => Go(a, EditingBinder(id, EditBinderForm(form, code).value))
  }

  predicate IsYes(code: KeyCode) {
    code == Enter || code == Char('y') || code == Char('Y')
  }

  predicate IsNo(code: KeyCode) {
    code == Esc || code == Char('n') || code == Char('N')
  }

  /** `handle_confirm_binder_delete`. */
  function ConfirmBinderDeleteKey(a: App, code: KeyCode, c: Forms.ConfirmBinderDelete): (r: Step)
    ensures r.Step? && !r.exit
    ensures IsNo(code) ==> r.app == Info(a, "Deletion cancelled.").(mode := Normal)
    ensures IsYes(code) ==>
      match PerformDelete(a, c)
      case Ok(a1) => r.app == a1.(mode := Normal)
      case Err(e) => r.app == Problem(a, Helpers.SurfaceError(e)).(mode := ConfirmingBinderDelete(c))
    ensures !IsNo(code) && !IsYes(code) ==> r.app == a.(mode := ConfirmingBinderDelete(c))
  {
    if IsNo(code) then Go(Info(a, "Deletion cancelled."), Normal)
    else if IsYes(code) then
      match PerformDelete(a, c)
      case Ok(a1) => Go(a1, Normal)
      case Err(e) => Go(Problem(a, Helpers.SurfaceError(e)), ConfirmingBinderDelete(c))
    else Go(a, ConfirmingBinderDelete(c))
  }

  // ---------------------------------------------------------------------
  // Song forms
  // ---------------------------------------------------------------------

  /** The editing keys shared by both song forms (everything but Esc and
      Enter); the suggestion is recomputed after each. Tab takes the
      suggestion when one is showing, and moves to the next field
      otherwise. */
  function EditSongForm(form: Forms.SongForm, code: KeyCode, composers: seq<string>): Forms.SongForm {
    match code
    case Tab =>
      var (f1, consumed) := if Forms.HasActiveSuggestion(form) then Forms.AcceptSuggestion(form) else (form, false);
      Forms.UpdateSuggestion(if consumed then f1 else Forms.ToggleSongField(f1), composers)
    case BackTab => Forms.UpdateSuggestion(Forms.ToggleSongField(form), composers)
    case Backspace => Forms.UpdateSuggestion(Forms.SongBackspace(form), composers)
    case Char(ch) =>
      var (f, changed) := Forms.SongPushChar(form, ch);
      if changed then Forms.UpdateSuggestion(f.(error := None), composers) else f
    case _ => form
  }

  /** Where a song editor goes when it closes: back into the search it was
      opened from with Ctrl-E, if one was put aside, and otherwise to
      `Normal`. */
  function CloseEditor(a: App): (r: App)
    ensures a.savedSearch.Some? ==> r == a.(mode := Searching(a.savedSearch.value), savedSearch := None)
    ensures a.savedSearch.None? ==> r == a.(mode := Normal)
  {
    match a.savedSearch
    case Some(s) => a.(mode := Searching(s), savedSearch := None)
    case None => a.(mode := Normal)
  }

  /** Shows a validation or store error on a song form and in the status. */
  function SongFormError(form: Forms.SongForm, e: Error): Forms.SongForm {
    form.(error := Some(Helpers.SurfaceError(e)))
  }

  /** `handle_edit_song`. Esc first dismisses a showing suggestion; a
      second Esc, or a successful save, closes the editor. */
  function EditSongKey(a: App, code: KeyCode, songId: int, form: Forms.SongForm): (r: Step)
    ensures r.Step? && !r.exit
    ensures code == Esc && !Forms.HasActiveSuggestion(form) ==> r.app == CloseEditor(Info(a, "Edit cancelled."))
    ensures code == Esc && Forms.HasActiveSuggestion(form) ==>
      r.app == a.(mode := EditingSong(songId, Forms.CancelAutocomplete(form).0))
    ensures code == Enter && Forms.ParseSongInputs(form).Ok? ==>
      var (title, composer, link) := Forms.ParseSongInputs(form).value;
      var w := SongStore.UpdateSong(a.store, songId, title, composer, link);
      r.app.store == w.store
      && (w.result.Ok? <==> songId in SongIds(a.store))
      && (w.result.Ok? ==> r.app.status == Some(Status("Song updated.", false)))
      && (w.result.Err? ==> r.app.mode == EditingSong(songId, SongFormError(form, w.result.error)))
    ensures code != Enter ==> r.app.store == a.store
  {
    match code
    case Esc =>
      var (f, cancelled) := Forms.CancelAutocomplete(form);
      if cancelled then Go(a, EditingSong(songId, f))
      else Step(CloseEditor(Info(a, "Edit cancelled.")), false)
    case Enter =>
      (match Forms.ParseSongInputs(form)
       case Ok((title, composer, link)) =>
         var w := SongStore.UpdateSong(a.store, songId, title, composer, link);
         (match w.result
          case Err(e) => Go(Problem(a, Helpers.SurfaceError(e)), EditingSong(songId, SongFormError(form, e)))
          case Ok(_) =>
            var a1 := RefreshSongManager(RefreshSongScreen(a.(store := w.store)));
            Step(CloseEditor(Info(a1, "Song updated.")), false))
       case Err(e) => Go(Problem(a, Helpers.SurfaceError(e)), EditingSong(songId, SongFormError(form, e))))
    case _ => Go(a, EditingSong(songId, EditSongForm(form, code, a.composers)))
  }

  /** `handle_create_song`. With a binder the new song is linked to it at
      once; that link is the one store call here whose failure is not
      caught, so it ends the key with the song already created. */
  function CreateSongKey(a: App, code: KeyCode, binderId: Option<int>, form: Forms.SongForm): (r: Step)
    ensures r.Aborted? ==> code == Enter && binderId.Some? && binderId.value !in BinderIds(a.store)
    ensures r.Aborted? ==>
      r.app.mode == a.mode && r.error.chain == [SongStore.LINK_CONTEXT, SongStore.FOREIGN_KEY_FAILED, SongStore.FOREIGN_KEY_CODE]
    ensures r.Step? ==> !r.exit
    ensures code == Enter && Forms.ParseSongInputs(form).Err? ==>
      r == Go(Problem(a, Helpers.SurfaceError(Forms.ParseSongInputs(form).error)),
              CreatingSong(binderId, SongFormError(form, Forms.ParseSongInputs(form).error)))
    ensures code == Enter && Forms.ParseSongInputs(form).Ok? ==>
      var (title, composer, link) := Forms.ParseSongInputs(form).value;
      r == SaveNewSong(a, binderId, form, title, composer, link)
    ensures code != Enter ==> r.Step? && r.app.store == a.store
  {
    match code
    case Esc =>
      var (f, cancelled) := Forms.CancelAutocomplete(form);
      if cancelled then Go(a, CreatingSong(binderId, f))
      else Go(Info(a, "Song creation cancelled."), Normal)
    case Enter =>
      (match Forms.ParseSongInputs(form)
       case Ok((title, composer, link)) => SaveNewSong(a, binderId, form, title, composer, link)
       case Err(e) => Go(Problem(a, Helpers.SurfaceError(e)), CreatingSong(binderId, SongFormError(form, e))))
    case _ => Go(a, CreatingSong(binderId, EditSongForm(form, code, a.composers)))
  }

  /** The Enter branch of `handle_create_song` once the inputs are valid. */
  function SaveNewSong(a: App, binderId: Option<int>, form: Forms.SongForm,
                       title: string, composer: string, link: string): (r: Step)
    ensures r.Aborted? <==> binderId.Some? && binderId.value !in BinderIds(a.store)
    ensures r.Step? ==> !r.exit
    ensures
      var created := SongStore.CreateSong(a.store, title, composer, link);
      var song := created.result.value;
      && (binderId.None? ==>
            && r.app.store == created.store && r.app.mode == Normal
            && r.app.status == Some(Status("Song created.", false)))
      && (binderId.Some? && binderId.value in BinderIds(a.store) ==>
            && r.app.mode == Normal
            && r.app.store == created.store.(links := a.store.links + {(binderId.value, song.id)})
            && r.app.status == Some(Status("Song created and added.", false)))
      && (r.Aborted? ==>
            && r.app == a.(store := created.store)
            && r.error.chain == [SongStore.LINK_CONTEXT, SongStore.FOREIGN_KEY_FAILED, SongStore.FOREIGN_KEY_CODE])
  {
    var w := SongStore.CreateSong(a.store, title, composer, link);
    match w.result
    case Err(e) => Go(Problem(a, Helpers.SurfaceError(e)), CreatingSong(binderId, SongFormError(form, e)))
    case Ok(song) =>
      var a1 := a.(store := w.store);
      match binderId
      case None => Go(RefreshSongManager(Info(a1, "Song created.")), Normal)
      case Some(b) =>
        var linked := SongStore.AddSongToBinder(a1.store, b, song.id);
        (match linked.result
         case Err(e) => Aborted(a1, e)
         case Ok(_) =>
           var a2 := RefreshSongScreen(a1.(store := linked.store));
           Go(RefreshSongManager(Info(a2, "Song created and added.")), Normal))
  }

  // ---------------------------------------------------------------------
  // Song dialogs
  // ---------------------------------------------------------------------

  /** `handle_confirm_song_remove`: yes unlinks the song from the binder. */
  function ConfirmSongRemoveKey(a: App, code: KeyCode, c: Forms.ConfirmSongRemove): (r: Step)
    ensures r.Step? && !r.exit
    ensures IsNo(code) ==> r.app == Info(a, "Removal cancelled.").(mode := Normal)
    ensures IsYes(code) ==>
      var w := SongStore.RemoveSongFromBinder(a.store, c.binderId, c.song.id);
      && r.app.store == w.store
      && (w.result.Ok? ==> r.app.mode == Normal && r.app.status == Some(Status("Song removed from binder.", false)))
      && (w.result.Err? ==> r.app == Problem(a, Helpers.SurfaceError(w.result.error)).(mode := ConfirmingSongRemove(c)))
    ensures !IsNo(code) && !IsYes(code) ==> r.app == a.(mode := ConfirmingSongRemove(c))
  {
    if IsNo(code) then Go(Info(a, "Removal cancelled."), Normal)
    else if IsYes(code) then
      var w := SongStore.RemoveSongFromBinder(a.store, c.binderId, c.song.id);
      match w.result
      case Ok(_) => Go(Info(RefreshSongScreen(a.(store := w.store)), "Song removed from binder."), Normal)
      case Err(e) => Go(Problem(a, Helpers.SurfaceError(e)), ConfirmingSongRemove(c))
    else Go(a, ConfirmingSongRemove(c))
  }

  /** `handle_confirm_song_delete`: yes deletes the song everywhere. */
  function ConfirmSongDeleteKey(a: App, code: KeyCode, c: Forms.ConfirmSongDelete): (r: Step)
    ensures r.Step? && !r.exit
    ensures IsNo(code) ==> r.app == Info(a, "Deletion cancelled.").(mode := Normal)
    ensures IsYes(code) ==>
      var w := SongStore.DeleteSong(a.store, c.song.id);
      && r.app.store == w.store
      && (w.result.Ok? ==> r.app.mode == Normal && r.app.status == Some(Status("Song deleted.", false)))
      && (w.result.Err? ==> r.app == Problem(a, Helpers.SurfaceError(w.result.error)).(mode := ConfirmingSongDelete(c)))
    ensures !IsNo(code) && !IsYes(code) ==> r.app == a.(mode := ConfirmingSongDelete(c))
  {
    if IsNo(code) then Go(Info(a, "Deletion cancelled."), Normal)
    else if IsYes(code) then
      var w := SongStore.DeleteSong(a.store, c.song.id);
      match w.result
      case Ok(_) => Go(Info(RefreshSongScreen(RefreshSongManager(a.(store := w.store))), "Song deleted."), Normal)
      case Err(e) => Go(Problem(a, Helpers.SurfaceError(e)), ConfirmingSongDelete(c))
    else Go(a, ConfirmingSongDelete(c))
  }

  // ---------------------------------------------------------------------
  // The song picker
  // ---------------------------------------------------------------------

  /** The join rows asked for by ticking `songs` for one binder. */
  function PairsFor(binderId: int, songs: seq<Song>): (r: seq<(int, int)>)
    ensures |r| == |songs|
    ensures forall i | 0 <= i < |songs| :: r[i] == (binderId, songs[i].id)
  {
    seq(|songs|, i requires 0 <= i < |songs| => (binderId, songs[i].id))
  }

  /** "Song added to binder." for one song, "Added n songs to binder." for
      more. */
  function AddedMessage(n: nat): string {
    if n == 1 then "Song added to binder." else "Added " + NatToString(n) + " songs to binder."
  }

  /** Enter in the picker with songs ticked: they are linked in list order
      until the store refuses one. The refusal is shown; the picker stays
      open only if nothing was linked. */
  function LinkTicked(a: App, p: Picker.Picker, songs: seq<Song>): (r: Step)
    requires |songs| > 0
    ensures r.Step? && !r.exit
    ensures
      var batch := LinkAll(a.store, PairsFor(p.binderId, songs));
      && r.app.store == batch.store
      && (batch.failure.None? ==>
            && r.app.mode == Normal
            && r.app.status == Some(Status(AddedMessage(|songs|), false)))
      && (batch.failure.Some? ==>
            && r.app.status == Some(Status(Helpers.SurfaceError(batch.failure.value), true))
            && r.app.mode == (if batch.added == 0 then SelectingSong(p) else Normal))
  {
    var batch := LinkAll(a.store, PairsFor(p.binderId, songs));
    var a1 := a.(store := batch.store);
    match batch.failure
    case Some(e) =>
      var a2 := Problem(a1, Helpers.SurfaceError(e));
      if batch.added > 0 then Go(RefreshSongScreen(a2), Normal) else Go(a2, SelectingSong(p))
    case None => Go(Info(RefreshSongScreen(a1), AddedMessage(batch.added)), Normal)
  }

  /** `handle_select_song`. */
  function SelectSongKey(a: App, code: KeyCode, p: Picker.Picker): (r: Step)
    ensures r.Step? && !r.exit
    ensures code != Enter ==> r.app.store == a.store
    ensures code == Enter && |Picker.CheckedSongs(p)| > 0 ==> r == LinkTicked(a, p, Picker.CheckedSongs(p))
    ensures code == Enter && |Picker.CheckedSongs(p)| == 0 && Picker.CurrentItem(p) == Some(Picker.CreateNew) ==>
      r.app == a.(mode := CreatingSong(Some(p.binderId), Forms.EmptySongForm()))
  {
    match code
    case Esc => Go(a, Normal)
    case Up => Go(a, SelectingSong(Picker.MoveSelection(p, -1)))
    case Down => Go(a, SelectingSong(Picker.MoveSelection(p, 1)))
    case PageUp => Go(a, SelectingSong(Picker.MoveSelection(p, -5)))
    case PageDown => Go(a, SelectingSong(Picker.MoveSelection(p, 5)))
    case Home => Go(a, SelectingSong(Picker.SelectFirst(p)))
    case End => Go(a, SelectingSong(Picker.SelectLast(p)))
    case Char(' ') => Go(a, SelectingSong(Picker.ToggleCurrent(p)))
    case Enter =>
      var ticked := Picker.CheckedSongs(p);
      if |ticked| > 0 then LinkTicked(a, p, ticked)
      else
        (match Picker.CurrentItem(p)
         case Some(CreateNew) => Go(a, CreatingSong(Some(p.binderId), Forms.EmptySongForm()))
         case Some(Existing(song)) =>
           var w := SongStore.AddSongToBinder(a.store, p.binderId, song.id);
           (match w.result
            case Err(e) => Go(Problem(a, Helpers.SurfaceError(e)), SelectingSong(p))
            case Ok(_) => Go(Info(RefreshSongScreen(a.(store := w.store)), AddedMessage(1)), Normal))
         case None => Go(a, Normal))
    case _ => Go(a, SelectingSong(p))
  }

  // ---------------------------------------------------------------------
  // Searching a list
  // ---------------------------------------------------------------------

  predicate Targets(t: SearchTarget, s: Screen) {
    match t
    case SongsTarget => s.Songs?
    case ManagerTarget => s.SongManager?
  }

  /** The filter a query stands for: none while it is blank. */
  function FilterFor(query: string): (r: Option<string>)
    ensures r.None? <==> IsBlank(query)
    ensures r.Some? ==> r.value == query
  {
    if IsBlank(query) then None else Some(query)
  }

  /** `handle_search`. Keys edit the query and every edit (and every key
      not otherwise handled) re-applies it as the filter; navigation and
      Enter act on the filtered list; Esc clears the filter and ends the
      search. A search whose list is no longer showing just ends. */
  function SearchKey(a: App, code: KeyCode, search: SearchState, opener: Opener): (r: Step)
    ensures r.Step? && !r.exit && r.app.store == a.store
    ensures !Targets(search.target, a.screen) ==> r.app == a.(mode := Normal)
    ensures Targets(search.target, a.screen) && code == Esc ==>
      r.app == a.(screen := SetFilterOn(a.screen, None), mode := Normal)
    ensures Targets(search.target, a.screen) && code.Char? && !IsControl(code.c) ==>
      var query := search.query + [code.c];
      r.app == a.(screen := SetFilterOn(a.screen, FilterFor(query)), mode := Searching(search.(query := query)))
    ensures Targets(search.target, a.screen) && code == Backspace ==>
      var query := Forms.DropLast(search.query);
      r.app == a.(screen := SetFilterOn(a.screen, FilterFor(query)), mode := Searching(search.(query := query)))
  {
    if !Targets(search.target, a.screen) then Go(a, Normal)
    else
      var list := ShownList(a.screen).value;
      var nav := Navigate(list, code);
      if nav.Some? then Go(a.(screen := WithList(a.screen, nav.value)), Searching(search))
      else match code
        case Esc => Go(a.(screen := SetFilterOn(a.screen, None)), Normal)
        case Enter => Go(OpenSongLink(a, SongLists.CurrentSong(list), opener), Searching(search))
        case Char(ch) =>
          if IsControl(ch) then
            if ch == CTRL_E then EditCurrent(a, SongLists.CurrentSong(list), Searching(search))
            else Refilter(a, search)
          else Refilter(a, search.(query := search.query + [ch]))
        case Backspace => Refilter(a, search.(query := Forms.DropLast(search.query)))
        case _ => Refilter(a, search)
  }

  function Refilter(a: App, search: SearchState): (r: Step)
    ensures r == Go(a.(screen := SetFilterOn(a.screen, FilterFor(search.query))), Searching(search))
  {
    Go(a.(screen := SetFilterOn(a.screen, FilterFor(search.query))), Searching(search))
  }

  // ---------------------------------------------------------------------
  // Leaving the To Print screen
  // ---------------------------------------------------------------------

  /** "Applied n song(s)." or, when nothing was ticked, "No changes to
      apply.". */
  function AppliedMessage(n: nat): string {
    if n == 0 then "No changes to apply."
    else "Applied " + NatToString(n) + " song" + (if n == 1 then "" else "s") + "."
  }

  /** `handle_confirm_to_print_exit`. Apply links every ticked assignment
      and then quits or returns to the grid; if the store refuses one, the
      dialog stays open with the error shown. Discard quits or returns
      without linking. Cancel and Esc go back to the report. */
  function ConfirmToPrintExitKey(a: App, code: KeyCode, c: Forms.ConfirmToPrintExit): (r: Step)
    ensures r.Step?
    ensures code == Esc ==> r == Go(a, Normal)
    ensures code in {Left, Up} ==> r == Go(a, ConfirmingToPrintExit(Forms.PreviousChoice(c)))
    ensures code in {Right, Down, Tab} ==> r == Go(a, ConfirmingToPrintExit(Forms.NextChoice(c)))
    ensures code == Enter && c.selection == Forms.Cancel ==> r == Go(a, Normal)
    ensures code == Enter && c.selection == Forms.Discard ==>
      r.app.store == a.store && r.app.mode == Normal && (r.exit <==> c.exitApp)
      && (!c.exitApp ==> r.app.screen == Binders)
    ensures code == Enter && c.selection == Forms.Apply ==>
      var assignments := if a.screen.ToPrintView? then ToPrint.PendingAssignments(a.screen.report) else [];
      var batch := LinkAll(a.store, assignments);
      && r.app.store == batch.store
      && (batch.failure.None? ==>
            && r.app.mode == Normal && (r.exit <==> c.exitApp)
            && r.app.status == Some(Status(AppliedMessage(|assignments|), false))
            && (!c.exitApp ==> r.app.screen == Binders))
      && (batch.failure.Some? ==>
            && !r.exit && r.app.mode == ConfirmingToPrintExit(c)
            && r.app.status == Some(Status(Helpers.SurfaceError(batch.failure.value), true)))
    ensures r.exit ==> code == Enter && c.exitApp && c.selection != Forms.Cancel
  {
    match code
    case Esc => Go(a, Normal)
    case Left => Go(a, ConfirmingToPrintExit(Forms.PreviousChoice(c)))
    case Up => Go(a, ConfirmingToPrintExit(Forms.PreviousChoice(c)))
    case Right => Go(a, ConfirmingToPrintExit(Forms.NextChoice(c)))
    case Down => Go(a, ConfirmingToPrintExit(Forms.NextChoice(c)))
    case Tab => Go(a, ConfirmingToPrintExit(Forms.NextChoice(c)))
    case Enter =>
      (match c.selection
       case Apply =>
         var assignments := if a.screen.ToPrintView? then ToPrint.PendingAssignments(a.screen.report) else [];
         var (a1, applied) := ApplyToPrintChanges(a, assignments);
         (match applied
          case Ok(n) =>
            var a2 := Info(a1, AppliedMessage(n));
            if c.exitApp then Step(a2.(mode := Normal), true) else Go(a2.(screen := Binders), Normal)
          case Err(e) => Go(Problem(a1, Helpers.SurfaceError(e)), ConfirmingToPrintExit(c)))
       case Discard =>
         if c.exitApp then Step(a.(mode := Normal), true)
         else Go(Info(a, "Discarded pending changes.").(screen := Binders), Normal)
       case Cancel => Go(a, Normal))
    case _ => Go(a, ConfirmingToPrintExit(c))
  }

  // ---------------------------------------------------------------------
  // Dispatch
  // ---------------------------------------------------------------------

  /** `handle_key`: the mode is taken out (leaving `Normal`) and the
      handler for it decides the next one. */
  function HandleKey(a: App, code: KeyCode, opener: Opener): (r: Step)
  {
    var a0 := a.(mode := Normal);
    match a.mode
    case Normal => NormalKey(a0, code, opener)
    case AddingBinder(form) => AddBinderKey(a0, code, form)
    case EditingBinder(id, form) => EditBinderKey(a0, code, id, form)
    case ConfirmingBinderDelete(c) => ConfirmBinderDeleteKey(a0, code, c)
    case EditingSong(songId, form) => EditSongKey(a0, code, songId, form)
    case ConfirmingSongRemove(c) => ConfirmSongRemoveKey(a0, code, c)
    case ConfirmingSongDelete(c) => ConfirmSongDeleteKey(a0, code, c)
    case SelectingSong(p) => SelectSongKey(a0, code, p)
    case CreatingSong(binderId, form) => CreateSongKey(a0, code, binderId, form)
    case ConfirmingToPrintExit(c) => ConfirmToPrintExitKey(a0, code, c)
    case Searching(search) => SearchKey(a0, code, search, opener)
  }

  /** `handle_ctrl_e`: only while searching. The search is put aside so
      that closing the editor returns to it, and the highlighted song is
      opened for editing. */
  function CtrlE(a: App): (r: App)
    ensures !a.mode.Searching? ==> r == a
    ensures a.mode.Searching? ==> r.savedSearch == Some(a.mode.search)
    ensures a.mode.Searching? && CurrentSongOn(a.screen).Some? ==>
      var song := CurrentSongOn(a.screen).value;
      r == a.(mode := EditingSong(song.id, Forms.FromSong(song)), savedSearch := Some(a.mode.search))
    ensures a.mode.Searching? && CurrentSongOn(a.screen).None? ==>
      r.mode == Normal && r.store == a.store && r.screen == a.screen
      && (ShownList(a.screen).Some? ==> r.status == Some(Status(NO_SONG_TO_EDIT, true)))
  {
    if !a.mode.Searching? then a
    else
      var a1 := a.(mode := Normal, savedSearch := Some(a.mode.search));
      if ShownList(a.screen).None? then a1
      else EditCurrent(a1, CurrentSongOn(a.screen), Normal).app
  }

  /** `handle_ctrl_l`: flips the manager's "without link" switch; nothing
      happens on any other screen. */
  function CtrlL(a: App): (r: App)
    ensures !a.screen.SongManager? ==> r == a
    ensures a.screen.SongManager? ==>
      r == ToggleNoLink(a, a.screen.manager)
  {
    match a.screen
    case SongManager(m) => ToggleNoLink(a, m)
    case _ => a
  }

  /** The event loop's routing of a key press: Ctrl-E and Ctrl-L go to
      their handlers and never quit; everything else goes to `HandleKey`. */
  function Dispatch(a: App, code: KeyCode, control: bool, opener: Opener): (r: Step)
    ensures control && code == Char('e') ==> r == Step(CtrlE(a), false)
    ensures control && code == Char('l') ==> r == Step(CtrlL(a), false)
  {
    if control && code == Char('e') then Step(CtrlE(a), false)
    else if control && code == Char('l') then Step(CtrlL(a), false)
    else HandleKey(a, code, opener)
  }
}
