/** The relational store behind the application, as an in-memory value:
    the `binders` and `songs` tables (rows kept in rowid order) and the
    `binder_songs` join table as a set of (binder id, song id) pairs. SQL text,
    connection handling and I/O failures are not modelled; the constraints of
    the schema (primary keys, the unique binder number, foreign keys with
    cascading deletes) are. */
module Store {
  import opened Outcomes
  import opened Models
  import Seqs
  import Collation

  type Link = (int, int)

  datatype Store = Store(
    binders: seq<Binder>,
    songs: seq<Song>,
    links: set<Link>,
    nextBinderId: int,
    nextSongId: int)

  /** Result of a write: the store afterwards and what the call returned. */
  datatype Write<+T> = Write(store: Store, result: Result<T>)

  function BinderIds(st: Store): set<int> {
    set b | b in st.binders :: b.id
  }

  function SongIds(st: Store): set<int> {
    set s | s in st.songs :: s.id
  }

  predicate NumberTaken(st: Store, number: int) {
    exists b | b in st.binders :: b.number == number
  }

  /** The schema's constraints: AUTOINCREMENT ids handed out in increasing
      order and never reused, `number INTEGER NOT NULL UNIQUE`, and every
      join row referring to existing rows (foreign keys are switched on). */
  ghost predicate Valid(st: Store) {
    && BinderRowsValid(st.binders, st.nextBinderId)
    && SongRowsValid(st.songs, st.nextSongId)
    && LinksValid(st)
  }

  ghost predicate BinderRowsValid(binders: seq<Binder>, nextId: int) {
    && 1 <= nextId
    && (forall i, j | 0 <= i < j < |binders| :: binders[i].id < binders[j].id)
    && (forall i, j | 0 <= i < j < |binders| :: binders[i].number != binders[j].number)
    && (forall i | 0 <= i < |binders| :: 1 <= binders[i].id < nextId)
  }

  ghost predicate SongRowsValid(songs: seq<Song>, nextId: int) {
    && 1 <= nextId
    && (forall i, j | 0 <= i < j < |songs| :: songs[i].id < songs[j].id)
    && (forall i | 0 <= i < |songs| :: 1 <= songs[i].id < nextId)
  }

  ghost predicate LinksValid(st: Store) {
    forall l | l in st.links :: l.0 in BinderIds(st) && l.1 in SongIds(st)
  }

  /** The empty database right after the tables are created. */
  function Empty(): (st: Store)
    ensures Valid(st)
  {
    Store([], [], {}, 1, 1)
  }

  // ---------------------------------------------------------------------
  // Orders used by the queries
  // ---------------------------------------------------------------------

  /** `ORDER BY number`. */
  predicate BinderLe(a: Binder, b: Binder) {
    a.number <= b.number
  }

  /** `ORDER BY title COLLATE NOCASE, composer COLLATE NOCASE`. */
  predicate SongLe(a: Song, b: Song) {
    Collation.TitleComposerLe(a.title, a.composer, b.title, b.composer)
  }

  lemma BinderLeTotalPreorder()
    ensures Seqs.TotalPreorder(BinderLe)
  {
  }

  lemma SongLeTotalPreorder()
    ensures Seqs.TotalPreorder(SongLe)
  {
    forall a, b
      ensures SongLe(a, b) || SongLe(b, a)
    {
      Collation.KeyLeTotal(Text.Lower(a.title), Text.Lower(a.composer),
                           Text.Lower(b.title), Text.Lower(b.composer));
    }
    forall a, b, c | SongLe(a, b) && SongLe(b, c)
      ensures SongLe(a, c)
    {
      Collation.KeyLeTransitive(Text.Lower(a.title), Text.Lower(a.composer),
                                Text.Lower(b.title), Text.Lower(b.composer),
                                Text.Lower(c.title), Text.Lower(c.composer));
    }
  }

  /** Songs ordered the way every song query orders them. */
  function SortSongs(songs: seq<Song>): (r: seq<Song>)
    ensures multiset(r) == multiset(songs)
    ensures Seqs.SortedBy(r, SongLe)
  {
    SongLeTotalPreorder();
    Seqs.SortBySorted(songs, SongLe);
    Seqs.SortBy(songs, SongLe)
  }
}
