/** The modal forms and confirmation dialogs: the binder form, the song form
    with composer autocomplete, and the three-way "leave To Print" dialog.
    Rendering (`build_line`, `value_len`) is not modelled. */
module Forms {
  import opened Outcomes
  import opened Text
  import opened Models
  import Seqs

  // ---------------------------------------------------------------------
  // Binder form
  // ---------------------------------------------------------------------

  datatype BinderField = Number | Label

  datatype BinderForm = BinderForm(number: string, labelText: string, active: BinderField, error: Option<string>)

  const NUMBER_REQUIRED := "Binder number is required."
  const NUMBER_NOT_INTEGER := "Binder number must be an integer."
  const LABEL_REQUIRED := "Binder label is required."

  function EmptyBinderForm(): BinderForm {
    BinderForm("", "", Number, None)
  }

  /** `BinderForm::with_number`: the suggested number is filled in only when
      it is positive. */
  function WithNumber(number: int): (f: BinderForm)
    ensures f.labelText == "" && f.active == Number && f.error == None
    ensures number > 0 ==> f.number == IntToString(number) && IsAsciiDigit(f.number[0])
    ensures number <= 0 ==> f.number == ""
  {
    if number > 0 then EmptyBinderForm().(number := IntToString(number)) else EmptyBinderForm()
  }

  /** `BinderForm::from_binder`. */
  function FromBinder(b: Binder): BinderForm {
    BinderForm(IntToString(b.number), b.labelText, Number, None)
  }

  function FocusBinderField(f: BinderForm, field: BinderField): BinderForm {
    f.(active := field)
  }

  function ToggleBinderField(f: BinderForm): (r: BinderForm)
    ensures r.active != f.active
    ensures r == f.(active := r.active)
  {
    f.(active := if f.active == Number then Label else Number)
  }

  lemma ToggleBinderFieldTwice(f: BinderForm)
    ensures ToggleBinderField(ToggleBinderField(f)) == f
  {
  }

  /** Whether a character may be typed into a binder field: digits into the
      number, anything but a control character into the label. */
  predicate BinderAccepts(field: BinderField, ch: char) {
    if field == Number then IsAsciiDigit(ch) else !IsControl(ch)
  }

  function BinderValue(f: BinderForm, field: BinderField): string {
    if field == Number then f.number else f.labelText
  }

  /** `BinderForm::push_char`: appends to the focused field when the
      character is acceptable there, and reports whether it did. */
  function BinderPushChar(f: BinderForm, ch: char): (r: (BinderForm, bool))
    ensures r.1 <==> BinderAccepts(f.active, ch)
    ensures !r.1 ==> r.0 == f
    ensures r.1 ==> BinderValue(r.0, f.active) == BinderValue(f, f.active) + [ch]
    ensures r.0.active == f.active && r.0.error == f.error
    ensures f.active == Number ==> r.0.labelText == f.labelText
    ensures f.active == Label ==> r.0.number == f.number
  {
    if !BinderAccepts(f.active, ch) then (f, false)
    else if f.active == Number then (f.(number := f.number + [ch]), true)
    else (f.(labelText := f.labelText + [ch]), true)
  }

  function DropLast(s: string): (r: string)
    ensures |s| == 0 ==> r == s
    ensures |s| > 0 ==> r == s[..|s| - 1]
  {
    if |s| == 0 then s else s[..|s| - 1]
  }

  /** `BinderForm::backspace`: removes the last character of the focused
      field, if any. */
  function BinderBackspace(f: BinderForm): (r: BinderForm)
    ensures BinderValue(r, f.active) == DropLast(BinderValue(f, f.active))
    ensures r.active == f.active && r.error == f.error
    ensures f.active == Number ==> r.labelText == f.labelText
    ensures f.active == Label ==> r.number == f.number
  {
    if f.active == Number then f.(number := DropLast(f.number))
    else f.(labelText := DropLast(f.labelText))
  }

  /** A digits-only number field stays digits-only whatever is typed or
      erased. */
  predicate DigitsOnly(s: string) {
    forall i | 0 <= i < |s| :: IsAsciiDigit(s[i])
  }

  lemma {:induction false} EditingKeepsDigitsOnly(f: BinderForm, ch: char)
    requires DigitsOnly(f.number)
    ensures DigitsOnly(BinderPushChar(f, ch).0.number)
    ensures DigitsOnly(BinderBackspace(f).number)
  {
    var pushed := BinderPushChar(f, ch).0;
    if f.active == Number && IsAsciiDigit(ch) {
      assert pushed.number == f.number + [ch];
      assert forall i | 0 <= i < |pushed.number| :: pushed.number[i] == if i < |f.number| then f.number[i] else ch;
    }
  }

  /** Erasing a character that was just accepted restores the form. */
  lemma BackspaceUndoesBinderPush(f: BinderForm, ch: char)
    requires BinderPushChar(f, ch).1
    ensures BinderBackspace(BinderPushChar(f, ch).0) == f
  {
    var pushed := BinderPushChar(f, ch).0;
    if f.active == Number {
      assert DropLast(pushed.number) == f.number;
    } else {
      assert DropLast(pushed.labelText) == f.labelText;
    }
  }

  /** `BinderForm::parse_inputs`: a number is required and must parse as a
      64-bit integer (after trimming); the label is required and is
      returned trimmed. Checks run in that order. */
  function ParseBinderInputs(f: BinderForm): (r: Result<(int, string)>)
    ensures IsBlank(f.number) ==> r == Err(Fail(NUMBER_REQUIRED))
    ensures !IsBlank(f.number) && ParseI64(Trim(f.number)).Err? ==>
      r == Err(Context(ParseI64(Trim(f.number)).error, NUMBER_NOT_INTEGER))
    ensures !IsBlank(f.number) && ParseI64(Trim(f.number)).Ok? && IsBlank(f.labelText) ==>
      r == Err(Fail(LABEL_REQUIRED))
    ensures r.Ok? <==> !IsBlank(f.number) && ParseI64(Trim(f.number)).Ok? && !IsBlank(f.labelText)
    ensures r.Ok? ==> Ok(r.value.0) == ParseI64(Trim(f.number))
    ensures r.Ok? ==> r.value.1 == Trim(f.labelText) && |r.value.1| > 0
  {
    var numberRaw := Trim(f.number);
    if numberRaw == [] then Err(Fail(NUMBER_REQUIRED))
    else match ParseI64(numberRaw)
      case Err(e) => Err(Context(e, NUMBER_NOT_INTEGER))
      case Ok(n) =>
        var labelTrimmed := Trim(f.labelText);
        if labelTrimmed == [] then Err(Fail(LABEL_REQUIRED))
        else Ok((n, labelTrimmed))
  }

  /** Editing an existing binder and saving it unchanged yields the binder's
      own number and its trimmed label. */
  lemma FromBinderRoundTrip(b: Binder)
    requires I64_MIN <= b.number <= I64_MAX && !IsBlank(b.labelText)
    ensures ParseBinderInputs(FromBinder(b)) == Ok((b.number, Trim(b.labelText)))
  {
    TrimIntToString(b.number);
    ParseIntToString(b.number);
  }

  /** A form seeded with a positive suggestion parses back to that number
      once a label is typed. */
  lemma WithNumberRoundTrip(number: int, labelText: string)
    requires 0 < number <= I64_MAX && !IsBlank(labelText)
    ensures ParseBinderInputs(WithNumber(number).(labelText := labelText)) == Ok((number, Trim(labelText)))
  {
    TrimIntToString(number);
    ParseIntToString(number);
  }

  /** `ConfirmBinderDelete::from`. */
  datatype ConfirmBinderDelete = ConfirmBinderDelete(id: int, number: int, labelText: string)

  function ConfirmBinderDeleteFrom(b: Binder): ConfirmBinderDelete {
    ConfirmBinderDelete(b.id, b.number, b.labelText)
  }

  // ---------------------------------------------------------------------
  // Song form
  // ---------------------------------------------------------------------

  datatype SongField = Title | Composer | LinkField

  datatype SongForm = SongForm(
    title: string, composer: string, link: string, active: SongField,
    error: Option<string>, suggestion: Option<string>, autocompleteDisabled: bool)

  const TITLE_REQUIRED := "Song title is required."

  function EmptySongForm(): SongForm {
    SongForm("", "", "", Title, None, None, false)
  }

  /** `SongForm::from_song`. */
  function FromSong(s: Song): SongForm {
    SongForm(s.title, s.composer, s.link, Title, None, None, false)
  }

  function NextSongField(field: SongField): SongField {
    match field
    case Title => Composer
    case Composer => LinkField
    case LinkField => Title
  }

  /** `SongForm::toggle_field`: focus cycles Title, Composer, Link; leaving
      the composer drops any suggestion. */
  function ToggleSongField(f: SongForm): (r: SongForm)
    ensures r.active != f.active
    ensures r.active == Composer <==> f.active == Title
    ensures r.active != Composer ==> r.suggestion == None
    ensures r == f.(active := r.active, suggestion := r.suggestion)
  {
    var next := NextSongField(f.active);
    f.(active := next, suggestion := if next == Composer then f.suggestion else None)
  }

  /** Three presses return focus to where it was; the suggestion is gone
      because the cycle always passes through a field other than the
      composer. */
  lemma ToggleSongFieldThrice(f: SongForm)
    ensures ToggleSongField(ToggleSongField(ToggleSongField(f))) == f.(suggestion := None)
  {
  }

  function SongValue(f: SongForm, field: SongField): string {
    match field
    case Title => f.title
    case Composer => f.composer
    case LinkField => f.link
  }

  /** `SongForm::push_char`: any non-control character is appended to the
      focused field; typing into the composer re-enables autocomplete. */
  function SongPushChar(f: SongForm, ch: char): (r: (SongForm, bool))
    ensures r.1 <==> !IsControl(ch)
    ensures !r.1 ==> r.0 == f
    ensures r.1 ==> SongValue(r.0, f.active) == SongValue(f, f.active) + [ch]
    ensures forall other | other != f.active :: SongValue(r.0, other) == SongValue(f, other)
    ensures r.0.active == f.active && r.0.suggestion == f.suggestion && r.0.error == f.error
    ensures r.1 && f.active == Composer ==> !r.0.autocompleteDisabled
    ensures !(r.1 && f.active == Composer) ==> r.0.autocompleteDisabled == f.autocompleteDisabled
  {
    if IsControl(ch) then (f, false)
    else match f.active
      case Title => (f.(title := f.title + [ch]), true)
      case Composer => (f.(composer := f.composer + [ch], autocompleteDisabled := false), true)
      case LinkField => (f.(link := f.link + [ch]), true)
  }

  /** `SongForm::backspace`: erasing in the composer (even when it is
      already empty) re-enables autocomplete. */
  function SongBackspace(f: SongForm): (r: SongForm)
    ensures SongValue(r, f.active) == DropLast(SongValue(f, f.active))
    ensures forall other | other != f.active :: SongValue(r, other) == SongValue(f, other)
    ensures r.active == f.active && r.suggestion == f.suggestion && r.error == f.error
    ensures r.autocompleteDisabled == (f.autocompleteDisabled && f.active != Composer)
  {
    match f.active
    case Title => f.(title := DropLast(f.title))
    case Composer => f.(composer := DropLast(f.composer), autocompleteDisabled := false)
    case LinkField => f.(link := DropLast(f.link))
  }

  /** `SongForm::parse_inputs`: only the title is required; all three
      values come back trimmed. */
  function ParseSongInputs(f: SongForm): (r: Result<(string, string, string)>)
    ensures r.Err? <==> IsBlank(f.title)
    ensures r.Err? ==> r.error == Fail(TITLE_REQUIRED)
    ensures r.Ok? ==> r.value == (Trim(f.title), Trim(f.composer), Trim(f.link)) && |r.value.0| > 0
  {
    var title := Trim(f.title);
    if title == [] then Err(Fail(TITLE_REQUIRED))
    else Ok((title, Trim(f.composer), Trim(f.link)))
  }

  /** Editing an existing song and saving it unchanged yields its trimmed
      fields. */
  lemma FromSongRoundTrip(s: Song)
    requires !IsBlank(s.title)
    ensures ParseSongInputs(FromSong(s)) == Ok((Trim(s.title), Trim(s.composer), Trim(s.link)))
  {
  }

  /** The candidate test of the composer search: the candidate, lower-cased,
      starts with the typed text, lower-cased. */
  function ExtendsTyped(typed: string): string -> bool {
    (candidate: string) => StartsWith(Lower(candidate), Lower(typed))
  }

  /** `SongForm::update_suggestion`: outside the composer field, with
      autocomplete switched off, or with fewer than two characters typed,
      there is no suggestion. Otherwise the suggestion is the first known
      composer that extends the typed text case-insensitively, unless that
      first match is the typed text itself. */
  function UpdateSuggestion(f: SongForm, composers: seq<string>): (r: SongForm)
    ensures r == f.(suggestion := r.suggestion)
    ensures f.active != Composer || f.autocompleteDisabled || |f.composer| < 2 ==> r.suggestion == None
    ensures r.suggestion.Some? ==>
      var c := r.suggestion.value;
      && c in composers
      && StartsWith(Lower(c), Lower(f.composer))
      && |c| > |f.composer|
      && exists k | 0 <= k < |composers| :: composers[k] == c
           && forall j | 0 <= j < k :: !StartsWith(Lower(composers[j]), Lower(f.composer))
    ensures f.active == Composer && !f.autocompleteDisabled && |f.composer| >= 2
            && (forall k | 0 <= k < |composers| :: !StartsWith(Lower(composers[k]), Lower(f.composer)))
            ==> r.suggestion == None
  {
    if f.active != Composer || f.autocompleteDisabled || |f.composer| < 2 then f.(suggestion := None)
    else
      match Seqs.FindIndex(composers, ExtendsTyped(f.composer))
      case None => f.(suggestion := None)
      case Some(k) =>
        var candidate := composers[k];
        if |candidate| == |f.composer| && Lower(candidate) == Lower(f.composer) then f.(suggestion := None)
        else
          assert StartsWith(Lower(candidate), Lower(f.composer));
          f.(suggestion := Some(candidate))
  }

  /** With the suggestion enabled, the first known composer that extends
      the typed text decides the outcome: it is suggested when it is longer
      than the typed text, and nothing is suggested when it is the typed
      text itself, even if a later composer would extend it. */
  lemma {:induction false} SuggestionOffered(f: SongForm, composers: seq<string>, k: nat)
    requires f.active == Composer && !f.autocompleteDisabled && |f.composer| >= 2
    requires k < |composers| && StartsWith(Lower(composers[k]), Lower(f.composer))
    requires forall j | 0 <= j < k :: !StartsWith(Lower(composers[j]), Lower(f.composer))
    ensures UpdateSuggestion(f, composers).suggestion
      == if |composers[k]| > |f.composer| then Some(composers[k]) else None
  {
    var found := Seqs.FindIndex(composers, ExtendsTyped(f.composer));
    assert ExtendsTyped(f.composer)(composers[k]);
    assert found.Some?;
    assert found.value == k;
    if |composers[k]| == |f.composer| {
      assert Lower(composers[k]) == Lower(f.composer);
    }
  }

  /** `SongForm::suggestion_suffix`: the part of the suggestion beyond the
      typed length, when there is one. */
  function SuggestionSuffix(f: SongForm): (r: Option<string>)
    ensures r.Some? <==> f.suggestion.Some? && |f.suggestion.value| > |f.composer|
    ensures r.Some? ==> f.suggestion.value == f.suggestion.value[..|f.composer|] + r.value && |r.value| > 0
  {
    match f.suggestion
    case None => None
    case Some(candidate) =>
      if |candidate| < |f.composer| then None
      else
        var suffix := candidate[|f.composer|..];
        if suffix == [] then None else Some(suffix)
  }

  /** A fresh suggestion always shows a non-empty ghost suffix: the typed
      text, lower-cased, followed by the suffix, lower-cased, is the
      suggestion lower-cased. */
  lemma SuggestionSuffixCompletes(f: SongForm, composers: seq<string>)
    requires UpdateSuggestion(f, composers).suggestion.Some?
    ensures
      var g := UpdateSuggestion(f, composers);
      && SuggestionSuffix(g).Some?
      && Lower(f.composer) + Lower(SuggestionSuffix(g).value) == Lower(g.suggestion.value)
  {
    var g := UpdateSuggestion(f, composers);
    var c := g.suggestion.value;
    var suffix := SuggestionSuffix(g).value;
    var typed := c[..|f.composer|];
    assert c == typed + suffix;
    LowerAppend(typed, suffix);
    assert Lower(typed) == Lower(c)[..|f.composer|];
  }

  predicate HasActiveSuggestion(f: SongForm) {
    f.active == Composer && f.suggestion.Some?
  }

  /** `SongForm::accept_suggestion`: when a suffix is showing, the
      suggestion replaces the composer and autocomplete stays off until the
      next edit. */
  function AcceptSuggestion(f: SongForm): (r: (SongForm, bool))
    ensures r.1 <==> SuggestionSuffix(f).Some?
    ensures !r.1 ==> r.0 == f
    ensures r.1 ==> r.0 == f.(composer := f.suggestion.value, autocompleteDisabled := true, suggestion := None)
  {
    if SuggestionSuffix(f).Some? then
      (f.(composer := f.suggestion.value, autocompleteDisabled := true, suggestion := None), true)
    else (f, false)
  }

  /** After accepting, the search offers nothing more until the composer is
      edited; one keystroke in the composer makes it search again. */
  lemma AcceptedSuggestionIsFinal(f: SongForm, composers: seq<string>, ch: char)
    requires AcceptSuggestion(f).1
    ensures UpdateSuggestion(AcceptSuggestion(f).0, composers).suggestion == None
    ensures f.active == Composer && !IsControl(ch) ==>
      !SongPushChar(AcceptSuggestion(f).0, ch).0.autocompleteDisabled
  {
  }

  /** `SongForm::cancel_autocomplete`: Esc on a showing suggestion drops it
      and switches autocomplete off. */
  function CancelAutocomplete(f: SongForm): (r: (SongForm, bool))
    ensures r.1 <==> HasActiveSuggestion(f)
    ensures !r.1 ==> r.0 == f
    ensures r.1 ==> r.0 == f.(autocompleteDisabled := true, suggestion := None)
    ensures !HasActiveSuggestion(r.0)
  {
    if HasActiveSuggestion(f) then (f.(autocompleteDisabled := true, suggestion := None), true)
    else (f, false)
  }

  datatype ConfirmSongRemove = ConfirmSongRemove(binderId: int, song: Song)

  datatype ConfirmSongDelete = ConfirmSongDelete(song: Song)

  // ---------------------------------------------------------------------
  // Leaving the To Print screen with pending changes
  // ---------------------------------------------------------------------

  datatype ConfirmPrintChoice = Apply | Discard | Cancel

  datatype ConfirmToPrintExit = ConfirmToPrintExit(exitApp: bool, selection: ConfirmPrintChoice)

  function NewConfirmToPrintExit(exitApp: bool): (c: ConfirmToPrintExit)
    ensures c.exitApp == exitApp && SelectedIndex(c) == 0
  {
    ConfirmToPrintExit(exitApp, Apply)
  }

  /** Position of the highlighted button, left to right. */
  function SelectedIndex(c: ConfirmToPrintExit): (i: nat)
    ensures i < 3
    ensures c.selection == Apply <==> i == 0
    ensures c.selection == Cancel <==> i == 2
  {
    match c.selection
    case Apply => 0
    case Discard => 1
    case Cancel => 2
  }

  function NextChoice(c: ConfirmToPrintExit): ConfirmToPrintExit {
    c.(selection := match c.selection
      case Apply => Discard
      case Discard => Cancel
      case Cancel => Apply)
  }

  function PreviousChoice(c: ConfirmToPrintExit): ConfirmToPrintExit {
    c.(selection := match c.selection
      case Apply => Cancel
      case Discard => Apply
      case Cancel => Discard)
  }

  /** `next` and `previous` move the highlight one button right and left,
      wrapping around, and never change what the dialog is for. */
  lemma ChoiceMovesWrap(c: ConfirmToPrintExit)
    ensures SelectedIndex(NextChoice(c)) == (SelectedIndex(c) + 1) % 3
    ensures SelectedIndex(PreviousChoice(c)) == (SelectedIndex(c) + 2) % 3
    ensures NextChoice(c).exitApp == c.exitApp && PreviousChoice(c).exitApp == c.exitApp
  {
  }

  lemma NextPreviousInverse(c: ConfirmToPrintExit)
    ensures PreviousChoice(NextChoice(c)) == c
    ensures NextChoice(PreviousChoice(c)) == c
  {
  }

  /** Button captions: quitting and leaving differ only in the verb. */
  function Labels(c: ConfirmToPrintExit): (r: seq<string>)
    ensures |r| == 3 && r[2] == "Cancel"
    ensures StartsWith(r[0], "Apply & ") && StartsWith(r[1], "Discard & ")
    ensures c.exitApp <==> r[0][|"Apply & "|..] == "Quit"
    ensures r[0][|"Apply & "|..] == r[1][|"Discard & "|..]
  {
    if c.exitApp then ["Apply & Quit", "Discard & Quit", "Cancel"]
    else ["Apply & Leave", "Discard & Leave", "Cancel"]
  }
}
