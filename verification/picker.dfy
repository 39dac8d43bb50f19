/** The song picker shown when adding songs to a binder (`AddSongState`): a
    "create new" entry followed by the songs not yet on the binder, a
    highlighted row and a set of ticked song ids. */
module Picker {
  import opened Outcomes
  import opened Models
  import opened Store
  import SongStore
  import SongLists
  import Seqs

  datatype Item = CreateNew | Existing(song: Song)

  datatype Picker = Picker(binderId: int, items: seq<Item>, selected: nat, checked: set<int>)

  function AsItems(songs: seq<Song>): (r: seq<Item>)
    ensures |r| == |songs|
    ensures forall i | 0 <= i < |songs| :: r[i] == Existing(songs[i])
  {
    seq(|songs|, i requires 0 <= i < |songs| => Existing(songs[i]))
  }

  /** "create new" followed by one entry per song, in order. */
  function WithCreateNew(songs: seq<Song>): (r: seq<Item>)
    ensures |r| == |songs| + 1 && r[0] == CreateNew
    ensures forall i | 1 <= i < |r| :: r[i] == Existing(songs[i - 1])
    ensures forall s | s in songs :: Existing(s) in r
  {
    var r := [CreateNew] + AsItems(songs);
    forall s | s in songs
      ensures Existing(s) in r
    {
      var k :| 0 <= k < |songs| && songs[k] == s;
      assert r[k + 1] == Existing(s);
    }
    r
  }

  /** `AddSongState::load`: "create new" first, then the available songs in
      query order; nothing ticked. */
  function Load(st: Store, binderId: int): (p: Picker)
    ensures |p.items| >= 1 && p.items[0] == CreateNew
    ensures forall i | 1 <= i < |p.items| ::
      p.items[i].Existing? && p.items[i].song in st.songs
      && (binderId, p.items[i].song.id) !in st.links
    ensures forall s | s in st.songs && (binderId, s.id) !in st.links :: Existing(s) in p.items
    ensures p.selected == 0 && p.checked == {} && p.binderId == binderId
  {
    var available := SongStore.FetchAvailableSongs(st, binderId);
    Picker(binderId, WithCreateNew(available), 0, {})
  }

  function MoveSelection(p: Picker, offset: int): (r: Picker)
    ensures r.items == p.items && r.checked == p.checked
    ensures |p.items| > 0 ==> r.selected < |p.items|
    ensures |p.items| == 0 ==> r == p
  {
    p.(selected := SongLists.MoveClamped(p.selected, |p.items|, offset))
  }

  function SelectFirst(p: Picker): (r: Picker)
    ensures |p.items| > 0 ==> r == p.(selected := 0)
    ensures |p.items| == 0 ==> r == p
  {
    if |p.items| > 0 then p.(selected := 0) else p
  }

  function SelectLast(p: Picker): (r: Picker)
    ensures |p.items| > 0 ==> r == p.(selected := |p.items| - 1)
    ensures |p.items| == 0 ==> r == p
  {
    if |p.items| > 0 then p.(selected := |p.items| - 1) else p
  }

  function CurrentItem(p: Picker): (r: Option<Item>)
    ensures r.Some? <==> p.selected < |p.items|
    ensures r.Some? ==> r.value == p.items[p.selected]
  {
    if p.selected < |p.items| then Some(p.items[p.selected]) else None
  }

  /** `is_checked`: the row is an existing song whose id is ticked. */
  predicate IsChecked(p: Picker, index: nat) {
    index < |p.items| && p.items[index].Existing? && p.items[index].song.id in p.checked
  }

  /** `toggle_current_selection`: flips the highlighted song's id in the
      ticked set; "create new" and an out-of-range selection do nothing. */
  function ToggleCurrent(p: Picker): (r: Picker)
    ensures r.items == p.items && r.selected == p.selected
    ensures p.selected < |p.items| && p.items[p.selected].Existing? ==>
      var id := p.items[p.selected].song.id;
      (id in r.checked <==> id !in p.checked)
      && r.checked - {id} == p.checked - {id}
    ensures !(p.selected < |p.items| && p.items[p.selected].Existing?) ==> r == p
  {
    if p.selected < |p.items| && p.items[p.selected].Existing? then
      var id := p.items[p.selected].song.id;
      if id in p.checked then p.(checked := p.checked - {id})
      else p.(checked := p.checked + {id})
    else p
  }

  /** Ticking twice leaves the picker as it was. */
  lemma ToggleCurrentTwice(p: Picker)
    ensures ToggleCurrent(ToggleCurrent(p)) == p
  {
    if p.selected < |p.items| && p.items[p.selected].Existing? {
      var id := p.items[p.selected].song.id;
      if id in p.checked {
        assert p.checked - {id} + {id} == p.checked;
      } else {
        assert p.checked + {id} - {id} == p.checked;
      }
    }
  }

  /** The songs behind the picker's rows, in row order, skipping
      "create new". */
  function ExistingSongs(items: seq<Item>): (r: seq<Song>)
    ensures forall s :: s in r <==> Existing(s) in items
  {
    if |items| == 0 then []
    else
      var rest := ExistingSongs(items[1..]);
      assert forall it :: it in items <==> it == items[0] || it in items[1..] by {
        assert items == [items[0]] + items[1..];
      }
      match items[0]
      case CreateNew => rest
      case Existing(s) => [s] + rest
  }

  /** Reading the songs back out of their rows gives the songs, in order. */
  lemma {:induction false} ExistingSongsOfAsItems(songs: seq<Song>)
    ensures ExistingSongs(AsItems(songs)) == songs
    decreases |songs|
  {
    if |songs| > 0 {
      assert AsItems(songs)[1..] == AsItems(songs[1..]);
      ExistingSongsOfAsItems(songs[1..]);
    }
  }

  /** A freshly loaded picker lists exactly the available songs, in the
      order the query returns them. */
  lemma LoadListsAvailable(st: Store, binderId: int)
    ensures ExistingSongs(Load(st, binderId).items) == SongStore.FetchAvailableSongs(st, binderId)
  {
    var available := SongStore.FetchAvailableSongs(st, binderId);
    var items := Load(st, binderId).items;
    assert items[1..] == AsItems(available);
    ExistingSongsOfAsItems(available);
  }

  /** `checked_songs`: the ticked existing songs, in list order. */
  function CheckedSongs(p: Picker): (r: seq<Song>)
    ensures forall s :: s in r <==> Existing(s) in p.items && s.id in p.checked
    ensures Seqs.IsSubseq(r, ExistingSongs(p.items))
  {
    Seqs.Filter(ExistingSongs(p.items), Ticked(p.checked))
  }

  function Ticked(checked: set<int>): Song -> bool {
    (s: Song) => s.id in checked
  }
}
