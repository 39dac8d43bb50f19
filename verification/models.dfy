/** The two domain entities and their derived display strings. */
module Models {
  import opened Text

  /** A physical binder. `id` is assigned by the store, `number` is chosen by
      the user and unique; number 0 is the director's binder. */
  datatype Binder = Binder(id: int, number: int, labelText: string)

  /** A song. `composer` and `link` may be empty. */
  datatype Song = Song(id: int, title: string, composer: string, link: string)

  const SEPARATOR := " - "

  /** `Song::display_title`: the title, followed by the composer when the
      composer is not blank. The composer is appended untrimmed. */
  function DisplayTitle(s: Song): (r: string)
    ensures StartsWith(r, s.title)
    ensures r == s.title <==> IsBlank(s.composer)
    ensures !IsBlank(s.composer) ==> r[|s.title|..] == SEPARATOR + s.composer
  {
    if IsBlank(s.composer) then s.title else s.title + SEPARATOR + s.composer
  }

  /** A composer made only of whitespace produces no separator. */
  lemma WhitespaceComposerHasNoSeparator(s: Song)
    requires forall i | 0 <= i < |s.composer| :: IsWhitespace(s.composer[i])
    ensures DisplayTitle(s) == s.title
  {
    BlankIffAllWhitespace(s.composer);
  }

  /** `impl Display for Binder`: exactly the label (`labelText`: `label` is a Dafny keyword). */
  function BinderDisplay(b: Binder): (r: string)
    ensures r == b.labelText
  {
    b.labelText
  }
}
