/** Song queries and writes against the store, including the join table
    (`fetch_all_songs`, `fetch_composers`, `fetch_songs_for_binder`,
    `fetch_available_songs`, `create_song`, `update_song`,
    `add_song_to_binder`, `remove_song_from_binder`, `delete_song`). */
module SongStore {
  import opened Outcomes
  import opened Models
  import opened Store
  import Seqs
  import Collation

  const SONG_NOT_FOUND := "Song not found"
  const NOT_LINKED := "Song not linked to this binder"
  const LINK_CONTEXT := "failed to link song to binder"
  /** SQLite's message when a join row names a missing binder or song. */
  const FOREIGN_KEY_FAILED := "FOREIGN KEY constraint failed"
  /** How rusqlite shows the cause of that failure: the extended result
      code `SQLITE_CONSTRAINT_FOREIGNKEY` and its description. */
  const FOREIGN_KEY_CODE := "Error code 787: A foreign key constraint failed"

  /** `fetch_all_songs`: every song, by title then composer, ignoring ASCII
      case. */
  function FetchAllSongs(st: Store): (r: seq<Song>)
    ensures multiset(r) == multiset(st.songs)
    ensures Seqs.SortedBy(r, SongLe)
  {
    SortSongs(st.songs)
  }

  /** Whether the song is on the binder. */
  function OnBinder(st: Store, binderId: int): Song -> bool {
    (s: Song) => (binderId, s.id) in st.links
  }

  /** Whether the song is not on the binder. */
  function OffBinder(st: Store, binderId: int): Song -> bool {
    (s: Song) => (binderId, s.id) !in st.links
  }

  /** `fetch_songs_for_binder`: the songs joined to the binder. */
  function FetchSongsForBinder(st: Store, binderId: int): (r: seq<Song>)
    ensures forall s :: s in r <==> s in st.songs && (binderId, s.id) in st.links
    ensures Seqs.SortedBy(r, SongLe)
  {
    var r := SortSongs(Seqs.Filter(st.songs, OnBinder(st, binderId)));
    assert forall s :: s in r <==> s in multiset(r);
    r
  }

  /** `fetch_available_songs`: the songs with no join row to the binder. */
  function FetchAvailableSongs(st: Store, binderId: int): (r: seq<Song>)
    ensures forall s :: s in r <==> s in st.songs && (binderId, s.id) !in st.links
    ensures Seqs.SortedBy(r, SongLe)
  {
    var r := SortSongs(Seqs.Filter(st.songs, OffBinder(st, binderId)));
    assert forall s :: s in r <==> s in multiset(r);
    r
  }

  /** Every song is either on a binder or offered for it, never both, and
      none is lost or repeated. */
  lemma BinderSongsPartition(st: Store, binderId: int)
    ensures multiset(FetchSongsForBinder(st, binderId)) + multiset(FetchAvailableSongs(st, binderId))
         == multiset(st.songs)
  {
    Seqs.FilterPartition(st.songs, OnBinder(st, binderId), OffBinder(st, binderId));
  }

  function Composers(songs: seq<Song>): (r: seq<string>)
    ensures |r| == |songs|
    ensures forall i | 0 <= i < |songs| :: r[i] == songs[i].composer
  {
    seq(|songs|, i requires 0 <= i < |songs| => songs[i].composer)
  }

  function NonEmpty(): string -> bool {
    (c: string) => c != ""
  }

  /** `fetch_composers`: each non-empty composer once, ordered by its
      lower-cased text and then by the text itself. */
  function FetchComposers(st: Store): (r: seq<string>)
    ensures forall c :: c in r <==> c != "" && exists s | s in st.songs :: s.composer == c
    ensures Seqs.Distinct(r)
    ensures forall i, j | 0 <= i < j < |r| :: Collation.ComposerLe(r[i], r[j]) && !Collation.ComposerLe(r[j], r[i])
  {
    var names := Seqs.Dedup(Seqs.Filter(Composers(st.songs), NonEmpty()));
    Collation.ComposerLeTotalPreorder();
    Seqs.SortBySorted(names, Collation.ComposerLe);
    var r := Seqs.SortBy(names, Collation.ComposerLe);
    Seqs.PermutationDistinct(names, r);
    assert forall c :: c in r <==> c in multiset(names);
    assert forall c :: c in multiset(names) <==> c in names;
    forall c | c != "" && exists s | s in st.songs :: s.composer == c
      ensures c in names
    {
      var s :| s in st.songs && s.composer == c;
      var i :| 0 <= i < |st.songs| && st.songs[i] == s;
      assert Composers(st.songs)[i] == c;
    }
    forall c | c in names
      ensures c != "" && exists s | s in st.songs :: s.composer == c
    {
      var all := Composers(st.songs);
      assert c in all;
      var i :| 0 <= i < |all| && all[i] == c;
      assert st.songs[i] in st.songs;
    }
    forall i, j | 0 <= i < j < |r|
      ensures !Collation.ComposerLe(r[j], r[i])
    {
      Collation.ComposerLeStrict(r[i], r[j]);
    }
    r
  }

  /** `create_song`: appends a row with the next id; a song carries no
      constraint that can fail. */
  function CreateSong(st: Store, title: string, composer: string, link: string): (w: Write<Song>)
    ensures w.result.Ok?
    ensures w.result.value == Song(st.nextSongId, title, composer, link)
    ensures Valid(st) ==> w.result.value.id !in SongIds(st)
    ensures w.store.songs == st.songs + [w.result.value]
    ensures w.store.binders == st.binders && w.store.links == st.links
    ensures Valid(st) ==> Valid(w.store)
  {
    var s := Song(st.nextSongId, title, composer, link);
    var st' := st.(songs := st.songs + [s], nextSongId := st.nextSongId + 1);
    assert SongIds(st') == SongIds(st) + {s.id};
    Write(st', Ok(s))
  }

  function ReplaceSong(songs: seq<Song>, id: int, title: string, composer: string, link: string): (r: seq<Song>)
    ensures |r| == |songs|
    ensures forall i | 0 <= i < |r| ::
      r[i] == (if songs[i].id == id then Song(id, title, composer, link) else songs[i])
  {
    seq(|songs|, i requires 0 <= i < |songs| =>
      if songs[i].id == id then Song(id, title, composer, link) else songs[i])
  }

  /** `update_song`: rewrites the three fields of the row with the id, or
      reports that no row had it. */
  function UpdateSong(st: Store, id: int, title: string, composer: string, link: string): (w: Write<()>)
    ensures id !in SongIds(st) ==> w == Write(st, Err(Fail(SONG_NOT_FOUND)))
    ensures id in SongIds(st) ==>
      && w.result.Ok?
      && w.store.binders == st.binders && w.store.links == st.links
      && |w.store.songs| == |st.songs|
      && (forall i | 0 <= i < |st.songs| && st.songs[i].id != id :: w.store.songs[i] == st.songs[i])
      && (forall i | 0 <= i < |st.songs| && st.songs[i].id == id ::
            w.store.songs[i] == Song(id, title, composer, link))
    ensures Valid(st) ==> Valid(w.store)
  {
    if id !in SongIds(st) then Write(st, Err(Fail(SONG_NOT_FOUND)))
    else
      var st' := st.(songs := ReplaceSong(st.songs, id, title, composer, link));
      assert SongIds(st') == SongIds(st) by {
        forall x | x in SongIds(st) ensures x in SongIds(st') {
          var s :| s in st.songs && s.id == x;
          var i :| 0 <= i < |st.songs| && st.songs[i] == s;
          assert st'.songs[i].id == x;
        }
      }
      Write(st', Ok(()))
  }

  /** `add_song_to_binder`: `INSERT OR IGNORE` of the join row. An existing
      row is left alone; a row naming a missing binder or song is refused by
      the foreign keys, which `OR IGNORE` does not cover. */
  function AddSongToBinder(st: Store, binderId: int, songId: int): (w: Write<()>)
    ensures w.result.Ok? <==> binderId in BinderIds(st) && songId in SongIds(st)
    ensures w.result.Err? ==>
      w.store == st && w.result.error.chain == [LINK_CONTEXT, FOREIGN_KEY_FAILED, FOREIGN_KEY_CODE]
    ensures w.result.Ok? ==> w.store == st.(links := st.links + {(binderId, songId)})
    ensures Valid(st) ==> Valid(w.store)
  {
    if binderId in BinderIds(st) && songId in SongIds(st) then
      Write(st.(links := st.links + {(binderId, songId)}), Ok(()))
    else
      Write(st, Err(Context(Error([FOREIGN_KEY_FAILED, FOREIGN_KEY_CODE]), LINK_CONTEXT)))
  }

  /** Linking twice is the same as linking once. */
  lemma AddSongToBinderIdempotent(st: Store, binderId: int, songId: int)
    ensures var once := AddSongToBinder(st, binderId, songId);
      AddSongToBinder(once.store, binderId, songId) == once
  {
  }

  /** `remove_song_from_binder`: deletes the join row, or reports that there
      was none. */
  function RemoveSongFromBinder(st: Store, binderId: int, songId: int): (w: Write<()>)
    ensures (binderId, songId) !in st.links ==> w == Write(st, Err(Fail(NOT_LINKED)))
    ensures (binderId, songId) in st.links ==>
      w == Write(st.(links := st.links - {(binderId, songId)}), Ok(()))
    ensures Valid(st) ==> Valid(w.store)
  {
    if (binderId, songId) in st.links then
      Write(st.(links := st.links - {(binderId, songId)}), Ok(()))
    else
      Write(st, Err(Fail(NOT_LINKED)))
  }

  /** Removing a link that was just added restores the join table. */
  lemma RemoveUndoesAdd(st: Store, binderId: int, songId: int)
    requires (binderId, songId) !in st.links
    requires binderId in BinderIds(st) && songId in SongIds(st)
    ensures RemoveSongFromBinder(AddSongToBinder(st, binderId, songId).store, binderId, songId)
         == Write(st, Ok(()))
  {
    assert st.links + {(binderId, songId)} - {(binderId, songId)} == st.links;
  }

  function OtherSong(id: int): Song -> bool {
    (s: Song) => s.id != id
  }

  /** The store once song `id` and its join rows are gone. */
  function WithoutSong(st: Store, id: int): (st': Store)
    ensures st'.songs == Seqs.Filter(st.songs, OtherSong(id))
    ensures st'.binders == st.binders
    ensures forall l :: l in st'.links <==> l in st.links && l.1 != id
  {
    st.(songs := Seqs.Filter(st.songs, OtherSong(id)),
        links := set l | l in st.links && l.1 != id)
  }

  lemma WithoutSongValid(st: Store, id: int)
    requires Valid(st)
    ensures Valid(WithoutSong(st, id))
  {
    var st' := WithoutSong(st, id);
    var keep := st'.songs;
    Seqs.FilterPairwise(st.songs, OtherSong(id), (a: Song, b: Song) => a.id < b.id);
    assert forall i | 0 <= i < |keep| :: 1 <= keep[i].id < st.nextSongId by {
      forall i | 0 <= i < |keep| ensures 1 <= keep[i].id < st.nextSongId {
        assert keep[i] in st.songs;
      }
    }
    assert SongRowsValid(keep, st'.nextSongId);
    assert BinderRowsValid(st'.binders, st'.nextBinderId);
    forall l | l in st'.links ensures l.0 in BinderIds(st') && l.1 in SongIds(st') {
      var s :| s in st.songs && s.id == l.1;
      assert s in keep;
    }
    assert LinksValid(st');
  }

  /** `delete_song`: removes the row and, by cascade, every join row that
      mentions it. */
  function DeleteSong(st: Store, id: int): (w: Write<()>)
    ensures id !in SongIds(st) ==> w == Write(st, Err(Fail(SONG_NOT_FOUND)))
    ensures id in SongIds(st) ==> w == Write(WithoutSong(st, id), Ok(()))
    ensures Valid(st) ==> Valid(w.store)
  {
    if id !in SongIds(st) then Write(st, Err(Fail(SONG_NOT_FOUND)))
    else
      assert Valid(st) ==> Valid(WithoutSong(st, id)) by {
        if Valid(st) {
          WithoutSongValid(st, id);
        }
      }
      Write(WithoutSong(st, id), Ok(()))
  }

  /** After a song is deleted no binder lists it. */
  lemma DeletedSongOnNoBinder(st: Store, id: int, binderId: int)
    requires id in SongIds(st)
    ensures forall s | s in FetchSongsForBinder(DeleteSong(st, id).store, binderId) :: s.id != id
  {
  }
}
