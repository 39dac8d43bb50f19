/** Binder queries and writes against the store (`fetch_binders`,
    `create_binder`, `update_binder`, `delete_binder`,
    `map_unique_constraint`). */
module BinderStore {
  import opened Outcomes
  import opened Models
  import opened Store
  import Seqs
  import Text

  const NOT_FOUND := "Binder not found"

  /** `map_unique_constraint`: the message a unique-number violation is
      turned into. */
  function UniqueMessage(number: int): (m: string)
    ensures |m| > 14 + 16
    ensures m[..14] == "Binder number " && m[|m| - 16..] == " already exists."
  {
    "Binder number " + Text.IntToString(number) + " already exists."
  }

  /** The clash message names the clashing number: the text between its
      fixed prefix and suffix reads back as that number. */
  lemma UniqueMessageNamesNumber(number: int)
    requires Text.I64_MIN <= number <= Text.I64_MAX
    ensures var m := UniqueMessage(number);
      Text.ParseI64(m[14..|m| - 16]) == Ok(number)
  {
    var m := UniqueMessage(number);
    assert m[14..|m| - 16] == Text.IntToString(number);
    Text.ParseIntToString(number);
  }

  /** `fetch_binders`: every binder, ascending by number. */
  function FetchBinders(st: Store): (r: seq<Binder>)
    ensures multiset(r) == multiset(st.binders)
    ensures Valid(st) ==> forall i, j | 0 <= i < j < |r| :: r[i].number < r[j].number
  {
    BinderLeTotalPreorder();
    Seqs.SortBySorted(st.binders, BinderLe);
    var r := Seqs.SortBy(st.binders, BinderLe);
    assert Valid(st) ==> forall i, j | 0 <= i < j < |r| :: r[i].number != r[j].number by {
      if Valid(st) {
        forall i, j | 0 <= i < j < |r|
          ensures r[i].number != r[j].number
        {
          DistinctPositions(st.binders, r, i, j);
        }
      }
    }
    r
  }

  /** Two positions of a permutation of a sequence whose numbers are
      pairwise distinct hold binders with different numbers. */
  lemma DistinctPositions(xs: seq<Binder>, r: seq<Binder>, i: int, j: int)
    requires multiset(r) == multiset(xs)
    requires forall a, b | 0 <= a < b < |xs| :: xs[a].number != xs[b].number
    requires 0 <= i < j < |r|
    ensures r[i].number != r[j].number
  {
    var x := r[i];
    assert x in multiset(xs);
    var a :| 0 <= a < |xs| && xs[a] == x;
    OnlyOnce(xs, a);
    assert r == r[..i] + [x] + r[i + 1..];
    assert multiset(r[i + 1..])[x] == 0;
    assert r[i + 1..][j - i - 1] == r[j];
    assert r[j] != x;
    assert r[j] in multiset(xs);
    var b :| 0 <= b < |xs| && xs[b] == r[j];
    assert a != b;
  }

  lemma OnlyOnce(xs: seq<Binder>, a: int)
    requires 0 <= a < |xs|
    requires forall p, q | 0 <= p < q < |xs| :: xs[p].number != xs[q].number
    ensures multiset(xs)[xs[a]] == 1
  {
    var x := xs[a];
    assert xs == xs[..a] + [x] + xs[a + 1..];
    assert forall k | 0 <= k < |xs[..a]| :: xs[..a][k] != x;
    var tail := xs[a + 1..];
    forall y | y in tail
      ensures y != x
    {
      var k :| 0 <= k < |tail| && tail[k] == y;
      assert xs[a + 1 + k] == y;
    }
    assert x !in xs[..a];
    assert x !in xs[a + 1..];
  }

  /** `create_binder`: inserts a row and hands back the hydrated binder, or
      fails on a number that is already taken and leaves the store alone. */
  function CreateBinder(st: Store, number: int, labelText: string): (w: Write<Binder>)
    ensures NumberTaken(st, number) ==>
      w.store == st && w.result.Err?
      && w.result.error.chain == ["failed to insert binder", UniqueMessage(number)]
    ensures !NumberTaken(st, number) ==>
      && w.result.Ok?
      && w.result.value.number == number && w.result.value.labelText == labelText
      && w.store.binders == st.binders + [w.result.value]
      && w.store.songs == st.songs && w.store.links == st.links
    ensures Valid(st) && w.result.Ok? ==> w.result.value.id !in BinderIds(st)
    ensures Valid(st) ==> Valid(w.store)
  {
    if NumberTaken(st, number) then
      Write(st, Err(Context(Fail(UniqueMessage(number)), "failed to insert binder")))
    else
      var b := Binder(st.nextBinderId, number, labelText);
      var st' := st.(binders := st.binders + [b], nextBinderId := st.nextBinderId + 1);
      assert BinderIds(st') == BinderIds(st) + {b.id};
      assert forall i | 0 <= i < |st.binders| :: st.binders[i].number != number by {
        forall i | 0 <= i < |st.binders| ensures st.binders[i].number != number {
          assert st.binders[i] in st.binders;
        }
      }
      Write(st', Ok(b))
  }

  /** Whether some binder other than `id` already uses `number`. */
  predicate NumberClash(st: Store, id: int, number: int) {
    exists b | b in st.binders :: b.id != id && b.number == number
  }

  function Replace(binders: seq<Binder>, id: int, number: int, labelText: string): (r: seq<Binder>)
    ensures |r| == |binders|
    ensures forall i | 0 <= i < |r| ::
      r[i] == (if binders[i].id == id then Binder(id, number, labelText) else binders[i])
  {
    seq(|binders|, i requires 0 <= i < |binders| =>
      if binders[i].id == id then Binder(id, number, labelText) else binders[i])
  }

  /** `update_binder`: "Binder not found" when no row has the id (checked by
      the zero-rows-updated test, so it wins over any clash); otherwise the
      uniqueness message when another binder has the number. */
  function UpdateBinder(st: Store, id: int, number: int, labelText: string): (w: Write<()>)
    ensures id !in BinderIds(st) ==> w == Write(st, Err(Fail(NOT_FOUND)))
    ensures id in BinderIds(st) && NumberClash(st, id, number) ==>
      w.store == st && w.result.Err?
      && w.result.error.chain == ["failed to update binder", UniqueMessage(number)]
    ensures w.result.Ok? <==> id in BinderIds(st) && !NumberClash(st, id, number)
    ensures w.result.Ok? ==>
      && |w.store.binders| == |st.binders|
      && (forall i | 0 <= i < |st.binders| && st.binders[i].id != id :: w.store.binders[i] == st.binders[i])
      && (forall i | 0 <= i < |st.binders| && st.binders[i].id == id ::
            w.store.binders[i] == Binder(id, number, labelText))
      && w.store.songs == st.songs && w.store.links == st.links
    ensures Valid(st) ==> Valid(w.store)
  {
    if id !in BinderIds(st) then Write(st, Err(Fail(NOT_FOUND)))
    else if NumberClash(st, id, number) then
      Write(st, Err(Context(Fail(UniqueMessage(number)), "failed to update binder")))
    else
      var st' := st.(binders := Replace(st.binders, id, number, labelText));
      assert BinderIds(st') == BinderIds(st) by {
        forall x | x in BinderIds(st) ensures x in BinderIds(st') {
          var b :| b in st.binders && b.id == x;
          var i :| 0 <= i < |st.binders| && st.binders[i] == b;
          assert st'.binders[i].id == x;
        }
      }
      Write(st', Ok(()))
  }

  /** Keeps every binder except the one with the given id. */
  function Other(id: int): Binder -> bool {
    (b: Binder) => b.id != id
  }

  /** The store once binder `id` and its join rows are gone. */
  function WithoutBinder(st: Store, id: int): (st': Store)
    ensures st'.binders == Seqs.Filter(st.binders, Other(id))
    ensures st'.songs == st.songs
    ensures forall l :: l in st'.links <==> l in st.links && l.0 != id
  {
    st.(binders := Seqs.Filter(st.binders, Other(id)),
        links := set l | l in st.links && l.0 != id)
  }

  lemma WithoutBinderValid(st: Store, id: int)
    requires Valid(st)
    ensures Valid(WithoutBinder(st, id))
  {
    var st' := WithoutBinder(st, id);
    var keep := st'.binders;
    Seqs.FilterPairwise(st.binders, Other(id), (a: Binder, b: Binder) => a.id < b.id);
    Seqs.FilterPairwise(st.binders, Other(id), (a: Binder, b: Binder) => a.number != b.number);
    assert forall i | 0 <= i < |keep| :: 1 <= keep[i].id < st.nextBinderId by {
      forall i | 0 <= i < |keep| ensures 1 <= keep[i].id < st.nextBinderId {
        assert keep[i] in st.binders;
      }
    }
    assert BinderRowsValid(keep, st'.nextBinderId);
    assert SongRowsValid(st'.songs, st'.nextSongId);
    forall l | l in st'.links ensures l.0 in BinderIds(st') && l.1 in SongIds(st') {
      var b :| b in st.binders && b.id == l.0;
      assert b in keep;
    }
    assert LinksValid(st');
  }

  /** `delete_binder`: removes the row; the join rows that mention it go
      with it (ON DELETE CASCADE). */
  function DeleteBinder(st: Store, id: int): (w: Write<()>)
    ensures id !in BinderIds(st) ==> w == Write(st, Err(Fail(NOT_FOUND)))
    ensures id in BinderIds(st) ==> w == Write(WithoutBinder(st, id), Ok(()))
    ensures Valid(st) ==> Valid(w.store)
  {
    if id !in BinderIds(st) then Write(st, Err(Fail(NOT_FOUND)))
    else
      assert Valid(st) ==> Valid(WithoutBinder(st, id)) by {
        if Valid(st) {
          WithoutBinderValid(st, id);
        }
      }
      Write(WithoutBinder(st, id), Ok(()))
  }
}
