/** Building the To Print report (`App::open_to_print_view`): every binder
    other than the director's is compared with the director's binder (number
    0), each director song a binder lacks becomes an empty tick box, and a
    tally counts for each song how many binders lack it. */
module Reconcile {
  import opened Outcomes
  import opened Models
  import opened Store
  import BinderStore
  import SongStore
  import Seqs
  import ToPrint

  function IsDirector(): Binder -> bool {
    (b: Binder) => b.number == 0
  }

  /** The first binder numbered 0, if any. */
  function FindDirector(binders: seq<Binder>): (r: Option<Binder>)
    ensures r.Some? <==> exists i | 0 <= i < |binders| :: binders[i].number == 0
    ensures r.Some? ==> r.value in binders && r.value.number == 0
    ensures r.Some? ==> exists i | 0 <= i < |binders| ::
      (binders[i] == r.value && forall k | 0 <= k < i :: binders[k].number != 0)
  {
    match Seqs.FindIndex(binders, IsDirector())
    case None => None
    case Some(i) => Some(binders[i])
  }

  // ---------------------------------------------------------------------
  // One binder against the director's binder
  // ---------------------------------------------------------------------

  /** Ids of the songs a binder holds, as the program collects them into a
      hash set. */
  function IdsOnBinder(st: Store, binderId: int): set<int> {
    set s | s in SongStore.FetchSongsForBinder(st, binderId) :: s.id
  }

  function IdNotIn(ids: set<int>): Song -> bool {
    (s: Song) => s.id !in ids
  }

  /** Empty tick boxes for the given songs, in order. */
  function Unticked(songs: seq<Song>): (r: seq<ToPrint.MissingSong>)
    ensures |r| == |songs|
    ensures forall i | 0 <= i < |songs| :: r[i] == ToPrint.MissingSong(songs[i], false)
  {
    seq(|songs|, i requires 0 <= i < |songs| => ToPrint.MissingSong(songs[i], false))
  }

  function SongsOf(entries: seq<ToPrint.MissingSong>): (r: seq<Song>)
    ensures |r| == |entries|
    ensures forall i | 0 <= i < |entries| :: r[i] == entries[i].song
  {
    seq(|entries|, i requires 0 <= i < |entries| => entries[i].song)
  }

  /** The director's songs, in the director binder's order, whose ids are
      not on the binder `binderId`. */
  function Missing(st: Store, directorId: int, binderId: int): (r: seq<Song>)
    ensures forall s :: s in r <==>
      s in st.songs && (directorId, s.id) in st.links && (binderId, s.id) !in st.links
    ensures Seqs.IsSubseq(r, SongStore.FetchSongsForBinder(st, directorId))
  {
    var directorSongs := SongStore.FetchSongsForBinder(st, directorId);
    var ids := IdsOnBinder(st, binderId);
    forall s | s in directorSongs
      ensures s.id !in ids <==> (binderId, s.id) !in st.links
    {
      if (binderId, s.id) in st.links {
        assert s in SongStore.FetchSongsForBinder(st, binderId);
      }
    }
    Seqs.Filter(directorSongs, IdNotIn(ids))
  }

  /** The empty tick boxes for the missing songs are exactly the unticked
      entries for songs on the director's binder and not on `binderId`. */
  lemma MissingEntries(st: Store, directorId: int, binderId: int)
    ensures forall m :: m in Unticked(Missing(st, directorId, binderId)) <==>
      && !m.checked
      && m.song in st.songs
      && (directorId, m.song.id) in st.links
      && (binderId, m.song.id) !in st.links
  {
    var missing := Missing(st, directorId, binderId);
    forall m
      ensures m in Unticked(missing) <==>
        !m.checked && m.song in st.songs && (directorId, m.song.id) in st.links && (binderId, m.song.id) !in st.links
    {
      UntickedHas(missing, m);
    }
  }

  lemma SongsOfUnticked(songs: seq<Song>)
    ensures SongsOf(Unticked(songs)) == songs
  {
  }

  lemma UntickedHas(songs: seq<Song>, m: ToPrint.MissingSong)
    ensures m in Unticked(songs) <==> !m.checked && m.song in songs
  {
    var entries := Unticked(songs);
    if !m.checked && m.song in songs {
      var i :| 0 <= i < |songs| && songs[i] == m.song;
      assert entries[i] == m;
    }
  }

  /** The report for one binder: the director's songs, in the director
      binder's order, that this binder does not hold. An entry is present
      exactly when the song is linked to the director's binder and not to
      this one. */
  function ReportFor(st: Store, directorId: int, b: Binder): (r: ToPrint.BinderReport)
    ensures r.binderId == b.id && r.binderNumber == b.number && r.binderLabel == b.labelText
    ensures forall i | 0 <= i < |r.songs| :: !r.songs[i].checked
    ensures forall m :: m in r.songs <==>
      && !m.checked
      && m.song in st.songs
      && (directorId, m.song.id) in st.links
      && (b.id, m.song.id) !in st.links
    ensures Seqs.IsSubseq(SongsOf(r.songs), SongStore.FetchSongsForBinder(st, directorId))
  {
    var missing := Missing(st, directorId, b.id);
    MissingEntries(st, directorId, b.id);
    SongsOfUnticked(missing);
    ToPrint.BinderReport(b.id, b.number, b.labelText, Unticked(missing))
  }

  predicate AllUnticked(rep: ToPrint.BinderReport) {
    forall i | 0 <= i < |rep.songs| :: !rep.songs[i].checked
  }

  /** One report per non-director binder that lacks at least one director
      song, in binder order, every box empty. */
  function Reports(st: Store, directorId: int, others: seq<Binder>): (r: seq<ToPrint.BinderReport>)
    ensures forall k | 0 <= k < |r| :: |r[k].songs| > 0 && AllUnticked(r[k])
    decreases |others|
  {
    if |others| == 0 then []
    else
      var head := ReportFor(st, directorId, others[0]);
      var rest := Reports(st, directorId, others[1..]);
      if |head.songs| == 0 then rest
      else
        var r := [head] + rest;
        forall k | 0 <= k < |r|
          ensures |r[k].songs| > 0 && AllUnticked(r[k])
        {
          if k > 0 {
            assert r[k] == rest[k - 1];
          }
        }
        r
  }

  /** Whether binder `b` lacks some song of the director's binder. */
  function Lacks(st: Store, directorId: int): Binder -> bool {
    (b: Binder) => |ReportFor(st, directorId, b).songs| > 0
  }

  /** One report per binder, in the binders' order. */
  function ReportsOf(st: Store, directorId: int, binders: seq<Binder>): (r: seq<ToPrint.BinderReport>)
    ensures |r| == |binders|
    ensures forall i | 0 <= i < |binders| :: r[i] == ReportFor(st, directorId, binders[i])
  {
    seq(|binders|, i requires 0 <= i < |binders| => ReportFor(st, directorId, binders[i]))
  }

  /** One step of `Reports`: the first binder's report is kept exactly
      when that binder lacks something. */
  lemma ReportsStep(st: Store, directorId: int, others: seq<Binder>)
    requires |others| > 0
    ensures Reports(st, directorId, others)
      == (if Lacks(st, directorId)(others[0]) then [ReportFor(st, directorId, others[0])] else [])
         + Reports(st, directorId, others[1..])
  {
  }

  lemma ReportsOfCons(st: Store, directorId: int, b: Binder, binders: seq<Binder>)
    ensures ReportsOf(st, directorId, [b] + binders)
      == [ReportFor(st, directorId, b)] + ReportsOf(st, directorId, binders)
  {
  }

  /** The reports follow the binders' order: they are the reports of the
      binders that lack something, kept in the order the binders come. */
  lemma {:induction false} ReportsInBinderOrder(st: Store, directorId: int, others: seq<Binder>)
    ensures Reports(st, directorId, others) == ReportsOf(st, directorId, Seqs.Filter(others, Lacks(st, directorId)))
    decreases |others|
  {
    if |others| > 0 {
      var lacks := Lacks(st, directorId);
      var tail := Seqs.Filter(others[1..], lacks);
      ReportsInBinderOrder(st, directorId, others[1..]);
      ReportsStep(st, directorId, others);
      Seqs.FilterStep(others, lacks);
      if lacks(others[0]) {
        ReportsOfCons(st, directorId, others[0], tail);
      } else {
        assert Seqs.Filter(others, lacks) == tail;
      }
    }
  }

  lemma NothingTicked(reports: seq<ToPrint.BinderReport>)
    requires forall k | 0 <= k < |reports| :: AllUnticked(reports[k])
    ensures forall b: nat, j: nat | ToPrint.ValidEntry(reports, b, j) :: !reports[b].songs[j].checked
  {
  }

  /** Every report comes from one of `others` and lists something. */
  lemma {:induction false} ReportsSound(st: Store, directorId: int, others: seq<Binder>, rep: ToPrint.BinderReport)
    requires rep in Reports(st, directorId, others)
    ensures |rep.songs| > 0
    ensures exists b | b in others :: rep == ReportFor(st, directorId, b)
    decreases |others|
  {
    var head := ReportFor(st, directorId, others[0]);
    var rest := Reports(st, directorId, others[1..]);
    if rep in rest {
      ReportsSound(st, directorId, others[1..], rep);
      var b :| b in others[1..] && rep == ReportFor(st, directorId, b);
      assert b in others;
    } else {
      assert rep == head && |head.songs| > 0;
      assert others[0] in others;
    }
  }

  /** Every binder of `others` lacking a director song gets its report. */
  lemma {:induction false} ReportsComplete(st: Store, directorId: int, others: seq<Binder>, b: Binder)
    requires b in others && |ReportFor(st, directorId, b).songs| > 0
    ensures ReportFor(st, directorId, b) in Reports(st, directorId, others)
    decreases |others|
  {
    var rest := Reports(st, directorId, others[1..]);
    if b != others[0] {
      assert b in others[1..];
      ReportsComplete(st, directorId, others[1..], b);
      assert ReportFor(st, directorId, b) in rest;
    }
  }

  /** The reports are exactly the non-empty per-binder reports of `others`. */
  lemma ReportsExactly(st: Store, directorId: int, others: seq<Binder>, rep: ToPrint.BinderReport)
    ensures rep in Reports(st, directorId, others) <==>
      |rep.songs| > 0 && exists b | b in others :: rep == ReportFor(st, directorId, b)
  {
    if rep in Reports(st, directorId, others) {
      ReportsSound(st, directorId, others, rep);
    } else if |rep.songs| > 0 && exists b | b in others :: rep == ReportFor(st, directorId, b) {
      var b :| b in others && rep == ReportFor(st, directorId, b);
      ReportsComplete(st, directorId, others, b);
    }
  }

  // ---------------------------------------------------------------------
  // The tally
  // ---------------------------------------------------------------------

  /** One missing copy of `song`: its tally entry goes up by one, or a new
      entry with one copy is appended. */
  function Bump(totals: seq<ToPrint.SongNeeded>, song: Song): (r: seq<ToPrint.SongNeeded>)
  {
    match Seqs.FindIndex(totals, ToPrint.IsFor(song.id))
    case Some(k) => totals[k := totals[k].(needed := totals[k].needed + 1)]
    case None => totals + [ToPrint.SongNeeded(song, 1)]
  }

  /** The tally after counting `entries` one by one, left to right. */
  function TallyOf(totals: seq<ToPrint.SongNeeded>, entries: seq<ToPrint.MissingSong>): seq<ToPrint.SongNeeded>
    decreases |entries|
  {
    if |entries| == 0 then totals else TallyOf(Bump(totals, entries[0].song), entries[1..])
  }

  /** `totals` is the tally of `entries`: one entry per song id, each equal
      to the number of that song's empty boxes among `entries`, and an entry
      for every song with an empty box. */
  ghost predicate Tallies(totals: seq<ToPrint.SongNeeded>, entries: seq<ToPrint.MissingSong>) {
    && (forall k1, k2 | 0 <= k1 < k2 < |totals| :: totals[k1].song.id != totals[k2].song.id)
    && (forall k | 0 <= k < |totals| ::
          totals[k].needed == Seqs.CountIf(entries, ToPrint.UncheckedWithId(totals[k].song.id)))
    && (forall id | Seqs.CountIf(entries, ToPrint.UncheckedWithId(id)) > 0 ::
          exists k | 0 <= k < |totals| :: totals[k].song.id == id)
  }

  lemma CountSnoc(done: seq<ToPrint.MissingSong>, m: ToPrint.MissingSong, id: int)
    ensures Seqs.CountIf(done + [m], ToPrint.UncheckedWithId(id))
      == Seqs.CountIf(done, ToPrint.UncheckedWithId(id)) + (if !m.checked && m.song.id == id then 1 else 0)
  {
    Seqs.CountIfAppend(done, [m], ToPrint.UncheckedWithId(id));
  }

  /** Counting one more empty box keeps the tally exact. */
  lemma BumpTallies(totals: seq<ToPrint.SongNeeded>, done: seq<ToPrint.MissingSong>, m: ToPrint.MissingSong)
    requires Tallies(totals, done) && !m.checked
    ensures Tallies(Bump(totals, m.song), done + [m])
  {
    var r := Bump(totals, m.song);
    var all := done + [m];
    forall id
      ensures Seqs.CountIf(all, ToPrint.UncheckedWithId(id))
        == Seqs.CountIf(done, ToPrint.UncheckedWithId(id)) + (if m.song.id == id then 1 else 0)
    {
      CountSnoc(done, m, id);
    }
    match Seqs.FindIndex(totals, ToPrint.IsFor(m.song.id))
    case Some(k0) =>
      assert totals[k0].song.id == m.song.id;
      assert r == totals[k0 := totals[k0].(needed := totals[k0].needed + 1)];
      forall id | Seqs.CountIf(all, ToPrint.UncheckedWithId(id)) > 0
        ensures exists k | 0 <= k < |r| :: r[k].song.id == id
      {
        if id == m.song.id {
          assert r[k0].song.id == id;
        } else {
          var k :| 0 <= k < |totals| && totals[k].song.id == id;
          assert r[k].song.id == id;
        }
      }
    case None =>
      assert forall k | 0 <= k < |totals| :: totals[k].song.id != m.song.id by {
        forall k | 0 <= k < |totals| ensures totals[k].song.id != m.song.id {
          assert !ToPrint.IsFor(m.song.id)(totals[k]);
        }
      }
      assert Seqs.CountIf(done, ToPrint.UncheckedWithId(m.song.id)) == 0;
      assert r == totals + [ToPrint.SongNeeded(m.song, 1)];
      forall id | Seqs.CountIf(all, ToPrint.UncheckedWithId(id)) > 0
        ensures exists k | 0 <= k < |r| :: r[k].song.id == id
      {
        if id == m.song.id {
          assert r[|totals|].song.id == id;
        } else {
          var k :| 0 <= k < |totals| && totals[k].song.id == id;
          assert r[k].song.id == id;
        }
      }
  }

  /** Counting a run of empty boxes keeps the tally exact. */
  lemma {:induction false} TallyOfTallies(totals: seq<ToPrint.SongNeeded>, done: seq<ToPrint.MissingSong>, rest: seq<ToPrint.MissingSong>)
    requires Tallies(totals, done)
    requires forall i | 0 <= i < |rest| :: !rest[i].checked
    ensures Tallies(TallyOf(totals, rest), done + rest)
    decreases |rest|
  {
    if |rest| == 0 {
      assert done + rest == done;
    } else {
      BumpTallies(totals, done, rest[0]);
      assert done + [rest[0]] + rest[1..] == done + rest;
      TallyOfTallies(Bump(totals, rest[0].song), done + [rest[0]], rest[1..]);
    }
  }

  /** Boxes that are empty in every report are empty in the flattened list. */
  lemma {:induction false} FlattenUnticked(reports: seq<ToPrint.BinderReport>)
    requires forall b: nat, j: nat | ToPrint.ValidEntry(reports, b, j) :: !reports[b].songs[j].checked
    ensures forall i | 0 <= i < |ToPrint.Flatten(reports)| :: !ToPrint.Flatten(reports)[i].checked
    decreases |reports|
  {
    if |reports| > 0 {
      forall b: nat, j: nat | ToPrint.ValidEntry(reports[1..], b, j)
        ensures !reports[1..][b].songs[j].checked
      {
        assert reports[1..][b] == reports[b + 1];
        assert ToPrint.ValidEntry(reports, b + 1, j);
      }
      FlattenUnticked(reports[1..]);
      assert forall j | 0 <= j < |reports[0].songs| :: ToPrint.ValidEntry(reports, 0, j);
    }
  }

  /** An exact tally of the flattened entries is the tally the To Print
      screen keeps in step with its boxes. */
  lemma TalliesTrack(reports: seq<ToPrint.BinderReport>, totals: seq<ToPrint.SongNeeded>)
    requires Tallies(totals, ToPrint.Flatten(reports))
    requires forall b: nat, j: nat | ToPrint.ValidEntry(reports, b, j) :: !reports[b].songs[j].checked
    ensures ToPrint.TallyTracks(reports, totals)
  {
    forall b: nat, j: nat | ToPrint.ValidEntry(reports, b, j)
      ensures exists k | 0 <= k < |totals| :: totals[k].song.id == reports[b].songs[j].song.id
    {
      var id := reports[b].songs[j].song.id;
      ToPrint.EntryInFlatten(reports, b, j, ToPrint.UncheckedWithId(id));
    }
  }

  /** The tally counted from scratch over every entry is exact. */
  lemma TallyFromScratch(reports: seq<ToPrint.BinderReport>)
    requires forall b: nat, j: nat | ToPrint.ValidEntry(reports, b, j) :: !reports[b].songs[j].checked
    ensures ToPrint.TallyTracks(reports, TallyOf([], ToPrint.Flatten(reports)))
  {
    FlattenUnticked(reports);
    assert Tallies([], []);
    TallyOfTallies([], [], ToPrint.Flatten(reports));
    assert [] + ToPrint.Flatten(reports) == ToPrint.Flatten(reports);
    TalliesTrack(reports, TallyOf([], ToPrint.Flatten(reports)));
  }

  // ---------------------------------------------------------------------
  // Opening the screen
  // ---------------------------------------------------------------------

  /** `open_to_print_view`: without a binder numbered 0 the screen says the
      director's binder is missing; otherwise it lists the reports and a
      tally counted in the same order the program counts (binder by binder,
      song by song). Either way the screen starts out consistent, with
      nothing ticked. */
  function OpenToPrint(st: Store, binders: seq<Binder>): (s: ToPrint.Screen)
    ensures s.directorExists <==> exists i | 0 <= i < |binders| :: binders[i].number == 0
    ensures s.directorExists ==>
      var d := FindDirector(binders).value;
      s.reports == Reports(st, d.id, Seqs.Filter(binders, BinderStore.Other(d.id)))
    ensures s.pending == 0 && !ToPrint.HasPendingChanges(s)
    ensures ToPrint.Inv(s)
  {
    match FindDirector(binders)
    case None =>
      ToPrint.MissingDirectorInv();
      ToPrint.MissingDirector()
    case Some(d) =>
      var reports := Reports(st, d.id, Seqs.Filter(binders, BinderStore.Other(d.id)));
      var totals := TallyOf([], ToPrint.Flatten(reports));
      NothingTicked(reports);
      TallyFromScratch(reports);
      ToPrint.WithDataInv(reports, totals);
      ToPrint.WithData(reports, totals)
  }

  /** What the report says: binder `b` shows an empty box for song `s`
      exactly when `b` is not the director's binder, `s` is on the
      director's binder and `s` is not on `b`. */
  lemma ReportedExactly(st: Store, binders: seq<Binder>, b: Binder, s: Song)
    requires FindDirector(binders).Some?
    requires b in binders
    ensures
      var d := FindDirector(binders).value;
      var reports := OpenToPrint(st, binders).reports;
      (exists rep | rep in reports :: rep.binderId == b.id && rep == ReportFor(st, d.id, b)
         && ToPrint.MissingSong(s, false) in rep.songs)
      <==> (b.id != d.id && s in st.songs && (d.id, s.id) in st.links && (b.id, s.id) !in st.links)
  {
    var d := FindDirector(binders).value;
    var others := Seqs.Filter(binders, BinderStore.Other(d.id));
    var rep := ReportFor(st, d.id, b);
    ReportsExactly(st, d.id, others, rep);
    if b.id != d.id && s in st.songs && (d.id, s.id) in st.links && (b.id, s.id) !in st.links {
      assert BinderStore.Other(d.id)(b);
      assert b in others;
      assert ToPrint.MissingSong(s, false) in rep.songs;
    }
  }
}
