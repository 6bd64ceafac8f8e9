/** The tick table: range-delete-then-insert writes, the quality filter before them, and the merge of overlapping
    downloads (trader/data/duckdb_store.py, trader/data/data_access.py). */
module BarStore {
  import opened Common
  import opened Numbers
  import opened BarQuality

  datatype Extra = Extra(average: Cell, barCount: Option<int>, whatToShow: Option<int>)

  /** A row of a data frame; `date` is its timestamp in UTC seconds. */
  datatype Entry = Entry(date: int, cells: Cells, extra: Extra, barSize: Option<string>)

  datatype Stored = Stored(symbol: string, entry: Entry)

  type Table = seq<Stored>

  const EPOCH := 0

  // --------------------------------------------------------- frames of entries

  predicate Distinct(f: seq<Entry>) {
    forall i, j :: 0 <= i < j < |f| ==> f[i].date != f[j].date
  }

  predicate Sorted(f: seq<Entry>) {
    forall i, j :: 0 <= i < j < |f| ==> f[i].date <= f[j].date
  }

  lemma Ends(f: seq<Entry>)
    requires f != []
    ensures var n := |f| - 1;
            && f == f[..n] + [f[n]]
            && (Distinct(f) ==> Distinct(f[..n]) && forall e :: e in f[..n] ==> e.date != f[n].date)
            && (Sorted(f) ==> Sorted(f[..n]) && forall e :: e in f[..n] ==> e.date <= f[n].date)
  {
  }

  lemma Snoc(f: seq<Entry>, e: Entry)
    ensures forall x :: x in f + [e] <==> x in f || x == e
    ensures Sorted(f) && (forall x :: x in f ==> x.date <= e.date) ==> Sorted(f + [e])
    ensures Distinct(f) && (forall x :: x in f ==> x.date != e.date) ==> Distinct(f + [e])
  {
  }

  /** The last entry at each date. */
  function Series(f: seq<Entry>): map<int, Entry> {
    if f == [] then map[] else Series(f[..|f| - 1])[f[|f| - 1].date := f[|f| - 1]]
  }

  lemma {:induction false} SeriesHolds(f: seq<Entry>)
    ensures forall d :: d in Series(f) ==> Series(f)[d] in f && Series(f)[d].date == d
    ensures forall e :: e in f ==> e.date in Series(f)
    ensures Distinct(f) ==> forall e :: e in f ==> Series(f)[e.date] == e
  {
    if f != [] {
      var n := |f| - 1;
      SeriesHolds(f[..n]);
      assert f == f[..n] + [f[n]];
    }
  }

  lemma EmptySeries()
    ensures Series([]) == map[]
  {
  }

  lemma {:induction false} SeriesAppend(a: seq<Entry>, b: seq<Entry>)
    ensures Series(a + b) == Series(a) + Series(b)
  {
    if b == [] {
      assert a + b == a;
    } else {
      var n := |b| - 1;
      assert (a + b)[..|a + b| - 1] == a + b[..n];
      SeriesAppend(a, b[..n]);
    }
  }

  /** Frames with distinct dates and the same entries are the same series. */
  lemma SameEntriesSameSeries(a: seq<Entry>, b: seq<Entry>)
    requires Distinct(a) && Distinct(b) && forall e :: e in a <==> e in b
    ensures Series(a) == Series(b)
  {
    hide Series;
    SeriesHolds(a);
    SeriesHolds(b);
    forall d
      ensures d in Series(a) <==> d in Series(b)
      ensures d in Series(a) ==> Series(a)[d] == Series(b)[d]
    {
      assert d in Series(a) ==> Series(a)[d] in b;
      assert d in Series(b) ==> Series(b)[d] in a;
    }
  }

  function Without(f: seq<Entry>, date: int): (r: seq<Entry>)
    ensures forall e :: e in r <==> e in f && e.date != date
    ensures Distinct(f) ==> Distinct(r)
  {
    if f == [] then []
    else
      var n := |f| - 1;
      assert f == f[..n] + [f[n]];
      if f[n].date == date then Without(f[..n], date) else Without(f[..n], date) + [f[n]]
  }

  /** Keep the last entry of every date. */
  function DropDuplicates(f: seq<Entry>): (r: seq<Entry>)
    ensures Distinct(r)
    ensures forall e :: e in r ==> e in f
  {
    if f == [] then []
    else
      var n := |f| - 1;
      assert f == f[..n] + [f[n]];
      Without(DropDuplicates(f[..n]), f[n].date) + [f[n]]
  }

  lemma {:induction false} WithoutKeepsOthers(f: seq<Entry>, date: int)
    requires Distinct(f)
    ensures Series(Without(f, date)) == Series(f) - {date}
  {
    hide Series, Without;
    SeriesHolds(f);
    SeriesHolds(Without(f, date));
    forall d
      ensures d in Series(Without(f, date)) <==> d in Series(f) && d != date
      ensures d in Series(Without(f, date)) ==> Series(Without(f, date))[d] == Series(f)[d]
    {
      assert d in Series(f) && d != date ==> Series(f)[d] in Without(f, date);
    }
  }

  lemma {:induction false} DropDuplicatesKeepsSeries(f: seq<Entry>)
    ensures Series(DropDuplicates(f)) == Series(f)
  {
    hide Without, Distinct;
    if f != [] {
      var n := |f| - 1;
      var rest := DropDuplicates(f[..n]);
      DropDuplicatesKeepsSeries(f[..n]);
      var kept := Without(rest, f[n].date);
      WithoutKeepsOthers(rest, f[n].date);
      assert (kept + [f[n]])[..|kept|] == kept;
    }
  }

  function Insert(f: seq<Entry>, e: Entry): (r: seq<Entry>)
    requires Sorted(f)
    ensures Sorted(r)
    ensures forall x :: x in r <==> x in f || x == e
    ensures Distinct(f) && (forall x :: x in f ==> x.date != e.date) ==> Distinct(r)
  {
    if f == [] then [e]
    else
      var n := |f| - 1;
      Ends(f);
      if f[n].date <= e.date then Snoc(f, e); f + [e]
      else
        Snoc(Insert(f[..n], e), f[n]);
        Insert(f[..n], e) + [f[n]]
  }

  function SortByDate(f: seq<Entry>): (r: seq<Entry>)
    ensures Sorted(r)
    ensures forall x :: x in r <==> x in f
    ensures Distinct(f) ==> Distinct(r)
  {
    if f == [] then []
    else
      Ends(f);
      Insert(SortByDate(f[..|f| - 1]), f[|f| - 1])
  }

  // ------------------------------------------------------------ rows of the table

  /** The rows a read returns before sorting: of the symbol, in the window, of the bar size or of none. */
  function Pick(t: Table, symbol: string, start: int, end: int, barSize: string): (r: seq<Entry>)
    ensures forall e :: e in r <==> Stored(symbol, e) in t && Reads(e, start, end, barSize)
  {
    if t == [] then []
    else
      var n := |t| - 1;
      var s := t[n];
      assert t == t[..n] + [s];
      if s.symbol == symbol && Reads(s.entry, start, end, barSize)
      then Pick(t[..n], symbol, start, end, barSize) + [s.entry]
      else Pick(t[..n], symbol, start, end, barSize)
  }

  predicate Reads(e: Entry, start: int, end: int, barSize: string) {
    start <= e.date <= end && (e.barSize == Some(barSize) || e.barSize == None)
  }

  function Read(t: Table, symbol: string, start: int, end: int, barSize: string): (r: seq<Entry>)
    ensures Sorted(r)
    ensures forall e :: e in r <==>
              Stored(symbol, e) in t && start <= e.date <= end && (e.barSize == Some(barSize) || e.barSize == None)
  {
    SortByDate(Pick(t, symbol, start, end, barSize))
  }

  /** The rows of one symbol and bar size, whatever their dates. */
  function Rows(t: Table, symbol: string, barSize: string): (r: seq<Entry>)
    ensures forall e :: e in r <==> Stored(symbol, e) in t && e.barSize == Some(barSize)
  {
    if t == [] then []
    else
      var n := |t| - 1;
      var s := t[n];
      assert t == t[..n] + [s];
      if s.symbol == symbol && s.entry.barSize == Some(barSize) then Rows(t[..n], symbol, barSize) + [s.entry]
      else Rows(t[..n], symbol, barSize)
  }

  /** All rows but those of one symbol and bar size. */
  function Others(t: Table, symbol: string, barSize: string): seq<Stored> {
    if t == [] then []
    else
      var n := |t| - 1;
      var s := t[n];
      if s.symbol == symbol && s.entry.barSize == Some(barSize) then Others(t[..n], symbol, barSize)
      else Others(t[..n], symbol, barSize) + [s]
  }

  function MinDate(f: seq<Entry>): (d: int)
    requires f != []
    ensures forall e :: e in f ==> d <= e.date
  {
    var n := |f| - 1;
    assert f == f[..n] + [f[n]];
    if n == 0 then f[0].date
    else if f[n].date < MinDate(f[..n]) then f[n].date else MinDate(f[..n])
  }

  function MaxDate(f: seq<Entry>): (d: int)
    requires f != []
    ensures forall e :: e in f ==> e.date <= d
  {
    var n := |f| - 1;
    assert f == f[..n] + [f[n]];
    if n == 0 then f[0].date
    else if f[n].date > MaxDate(f[..n]) then f[n].date else MaxDate(f[..n])
  }

  /** The bar sizes a frame names. */
  function Sizes(f: seq<Entry>): set<string> {
    set e | e in f && e.barSize.Some? :: e.barSize.value
  }

  /** The rows a write deletes. A frame that names no bar size deletes all of them. */
  predicate Deletes(s: Stored, symbol: string, lo: int, hi: int, sizes: set<string>) {
    && s.symbol == symbol && lo <= s.entry.date <= hi
    && (sizes == {} || (s.entry.barSize.Some? && s.entry.barSize.value in sizes))
  }

  function Keep(t: Table, symbol: string, lo: int, hi: int, sizes: set<string>): (r: Table)
    ensures forall s :: s in r <==> s in t && !Deletes(s, symbol, lo, hi, sizes)
  {
    if t == [] then []
    else
      var n := |t| - 1;
      assert t == t[..n] + [t[n]];
      if Deletes(t[n], symbol, lo, hi, sizes) then Keep(t[..n], symbol, lo, hi, sizes)
      else Keep(t[..n], symbol, lo, hi, sizes) + [t[n]]
  }

  function Tag(symbol: string, f: seq<Entry>): (r: Table)
    ensures |r| == |f|
    ensures forall i :: 0 <= i < |f| ==> r[i] == Stored(symbol, f[i])
  {
    seq(|f|, i requires 0 <= i < |f| => Stored(symbol, f[i]))
  }

  /** One write transaction. */
  function Written(t: Table, symbol: string, f: seq<Entry>): Table {
    if f == [] then t else Keep(t, symbol, MinDate(f), MaxDate(f), Sizes(f)) + Tag(symbol, f)
  }

  predicate IsImpossible(e: Entry) {
    MaskAt(e.cells, true)
  }

  function Possible(f: seq<Entry>): (r: seq<Entry>)
    ensures forall e :: e in r <==> e in f && !IsImpossible(e)
    ensures Distinct(f) ==> Distinct(r)
  {
    if f == [] then []
    else
      var n := |f| - 1;
      Ends(f);
      var r := Possible(f[..n]);
      Snoc(r, f[n]);
      if IsImpossible(f[n]) then r else r + [f[n]]
  }

  function Rejected(f: seq<Entry>): (r: seq<Entry>)
    ensures forall e :: e in r <==> e in f && IsImpossible(e)
  {
    if f == [] then []
    else
      var n := |f| - 1;
      assert f == f[..n] + [f[n]];
      if IsImpossible(f[n]) then Rejected(f[..n]) + [f[n]] else Rejected(f[..n])
  }

  predicate HasClose(e: Entry) {
    !ToNumeric(e.cells.close).NaN?
  }

  /** The bars that are observations at all. */
  function Closed(f: seq<Entry>): (r: seq<Entry>)
    ensures forall e :: e in r <==> e in f && e.cells.close.Value? && !e.cells.close.num.NaN?
    ensures Distinct(f) ==> Distinct(r)
  {
    if f == [] then []
    else
      var n := |f| - 1;
      Ends(f);
      var r := Closed(f[..n]);
      Snoc(r, f[n]);
      if HasClose(f[n]) then r + [f[n]] else r
  }

  /** A bar is impossible exactly if the rules for a single bar find an error in it. */
  lemma ImpossibleBreaksARule(e: Entry, ts: Num)
    ensures IsImpossible(e) <==> Impossible(BarOf(e.cells, ts))
  {
    MaskAgreesWithRules(Frame(true, true, [e.cells]), 0, ts);
  }

  /** What is kept, refused and left out of a frame: each bar on its own, in the frame's order. */
  lemma {:induction false} PossibleJoins(a: seq<Entry>, b: seq<Entry>)
    ensures Possible(a + b) == Possible(a) + Possible(b)
  {
    hide IsImpossible, HasClose, Distinct;
    if b == [] {
      assert a + b == a;
    } else {
      var n := |b| - 1;
      assert (a + b)[..|a + b| - 1] == a + b[..n];
      PossibleJoins(a, b[..n]);
    }
  }

  lemma {:induction false} RejectedJoins(a: seq<Entry>, b: seq<Entry>)
    ensures Rejected(a + b) == Rejected(a) + Rejected(b)
  {
    hide IsImpossible, HasClose, Distinct;
    if b == [] {
      assert a + b == a;
    } else {
      var n := |b| - 1;
      assert (a + b)[..|a + b| - 1] == a + b[..n];
      RejectedJoins(a, b[..n]);
    }
  }

  lemma {:induction false} ClosedJoins(a: seq<Entry>, b: seq<Entry>)
    ensures Closed(a + b) == Closed(a) + Closed(b)
  {
    hide IsImpossible, HasClose, Distinct;
    if b == [] {
      assert a + b == a;
    } else {
      var n := |b| - 1;
      assert (a + b)[..|a + b| - 1] == a + b[..n];
      ClosedJoins(a, b[..n]);
    }
  }

  lemma FiltersOfOne(e: Entry)
    ensures Possible([e]) == if IsImpossible(e) then [] else [e]
    ensures Rejected([e]) == if IsImpossible(e) then [e] else []
    ensures Closed([e]) == if e.cells.close.Value? && !e.cells.close.num.NaN? then [e] else []
  {
    assert [e][..0] == [];
  }

  lemma {:induction false} PossibleCount(f: seq<Entry>, e: Entry)
    ensures multiset(Possible(f))[e] == if IsImpossible(e) then 0 else multiset(f)[e]
  {
    if f != [] {
      var n := |f| - 1;
      PossibleCount(f[..n], e);
      assert f == f[..n] + [f[n]];
    }
  }

  /** The frame an overlapping download is merged into: a downloaded bar wins over a stored one. */
  function Merged(existing: seq<Entry>, f: seq<Entry>): seq<Entry> {
    SortByDate(DropDuplicates(existing + f))
  }

  /** What write_resolve_overlap hands to the checked write. */
  function Resolution(t: Table, library: string, symbol: string, f: seq<Entry>, now: int): seq<Entry> {
    var existing := Read(t, symbol, EPOCH, now, library);
    if existing == [] then Closed(f) else if Closed(f) == [] then [] else Merged(existing, Closed(f))
  }

  function Resolved(t: Table, library: string, symbol: string, f: seq<Entry>, now: int): Table {
    Written(t, symbol, Possible(Resolution(t, library, symbol, f, now)))
  }

  lemma {:induction false} KeptCount(t: Table, symbol: string, lo: int, hi: int, sizes: set<string>, s: Stored)
    ensures multiset(Keep(t, symbol, lo, hi, sizes))[s]
            == if Deletes(s, symbol, lo, hi, sizes) then 0 else multiset(t)[s]
  {
    if t != [] {
      var n := |t| - 1;
      assert t == t[..n] + [t[n]];
      KeptCount(t[..n], symbol, lo, hi, sizes, s);
    }
  }

  lemma {:induction false} TagCount(symbol: string, f: seq<Entry>, s: Stored)
    ensures multiset(Tag(symbol, f))[s] == if s.symbol == symbol then multiset(f)[s.entry] else 0
  {
    if f != [] {
      var n := |f| - 1;
      TagCount(symbol, f[..n], s);
      assert f == f[..n] + [f[n]];
      assert Tag(symbol, f) == Tag(symbol, f[..n]) + [Stored(symbol, f[n])];
      assert s == Stored(s.symbol, s.entry);
    } else {
      assert Tag(symbol, f) == [];
    }
  }

  /** Some bars of the frame are dated no later and no earlier than the row, and the frame names its bar size, or none
      at all. */
  predicate Replaces(symbol: string, f: seq<Entry>, s: Stored) {
    && s.symbol == symbol
    && (exists x :: x in f && x.date <= s.entry.date) && (exists y :: y in f && s.entry.date <= y.date)
    && ((forall e :: e in f ==> e.barSize.None?)
        || (s.entry.barSize.Some? && exists e :: e in f && e.barSize == s.entry.barSize))
  }

  lemma {:induction false} Extremes(f: seq<Entry>) returns (first: Entry, last: Entry)
    requires f != []
    ensures first in f && first.date == MinDate(f) && last in f && last.date == MaxDate(f)
  {
    var n := |f| - 1;
    assert f == f[..n] + [f[n]];
    if n == 0 {
      first, last := f[0], f[0];
    } else {
      first, last := Extremes(f[..n]);
      first := if f[n].date < MinDate(f[..n]) then f[n] else first;
      last := if f[n].date > MaxDate(f[..n]) then f[n] else last;
    }
  }

  lemma ReplacesIsDeletes(symbol: string, f: seq<Entry>, s: Stored)
    requires f != []
    ensures Replaces(symbol, f, s) <==> Deletes(s, symbol, MinDate(f), MaxDate(f), Sizes(f))
  {
    var first, last := Extremes(f);
    hide MinDate, MaxDate;
    SizesAre(f);
    if Replaces(symbol, f, s) {
      var x :| x in f && x.date <= s.entry.date;
      var y :| y in f && s.entry.date <= y.date;
      if e :| e in f && s.entry.barSize.Some? && e.barSize == s.entry.barSize {
        assert s.entry.barSize.value in Sizes(f);
      }
    } else if Deletes(s, symbol, MinDate(f), MaxDate(f), Sizes(f)) {
      assert first in f && last in f;
    }
  }

  lemma SizesAre(f: seq<Entry>)
    ensures Sizes(f) == {} <==> forall e :: e in f ==> e.barSize.None?
    ensures forall size :: size in Sizes(f) <==> exists e :: e in f && e.barSize == Some(size)
  {
    forall e | e in f
      ensures e.barSize.Some? ==> e.barSize.value in Sizes(f)
    {
    }
  }

  /** A write, row by row: the rows in the frame's range and of its bar sizes go, and every bar of the frame comes, as
      often as the frame has it. */
  lemma WriteCounts(t: Table, symbol: string, f: seq<Entry>, s: Stored)
    ensures multiset(Written(t, symbol, f))[s] ==
              (if Replaces(symbol, f, s) then 0 else multiset(t)[s])
              + (if s.symbol == symbol then multiset(f)[s.entry] else 0)
  {
    if f != [] {
      ReplacesIsDeletes(symbol, f, s);
      KeptCount(t, symbol, MinDate(f), MaxDate(f), Sizes(f), s);
      TagCount(symbol, f, s);
    }
  }

  // ---------------------------------------------------------------- the store

  lemma {:induction false} KeepTwice(t: Table, symbol: string, lo: int, hi: int, sizes: set<string>, more: string)
    requires sizes != {}
    ensures Keep(Keep(t, symbol, lo, hi, sizes), symbol, lo, hi, {more}) == Keep(t, symbol, lo, hi, sizes + {more})
  {
    if t != [] {
      var n := |t| - 1;
      KeepTwice(t[..n], symbol, lo, hi, sizes, more);
      if !Deletes(t[n], symbol, lo, hi, sizes) {
        var kept := Keep(t, symbol, lo, hi, sizes);
        assert kept[..|kept| - 1] == Keep(t[..n], symbol, lo, hi, sizes) && kept[|kept| - 1] == t[n];
      }
    }
  }

  class TickStore {
    /** The bar size this handle reads and writes. */
    const library: string
    var ticks: Table
    var quarantined: Table

    constructor (library: string)
      ensures this.library == library && ticks == [] && quarantined == []
    {
      this.library := library;
      ticks, quarantined := [], [];
    }

    /** Delete the frame's date range for the bar sizes it names, then insert it. */
    method WriteTable(symbol: string, f: seq<Entry>)
      modifies this`ticks
      ensures ticks == Written(old(ticks), symbol, f)
    {
      if f == [] {
        return;
      }
      var lo, hi := MinDate(f), MaxDate(f);
      var left := Sizes(f);
      if left == {} {
        ticks := Keep(ticks, symbol, lo, hi, {});
      }
      ghost var done: set<string> := {};
      while left != {}
        invariant done + left == Sizes(f) && done !! left
        invariant ticks == if done == {} && Sizes(f) != {} then old(ticks) else Keep(old(ticks), symbol, lo, hi, done)
      {
        var size :| size in left;
        if done != {} {
          KeepTwice(old(ticks), symbol, lo, hi, done, size);
        } else {
          assert done + {size} == {size};
        }
        ticks := Keep(ticks, symbol, lo, hi, {size});
        done, left := done + {size}, left - {size};
      }
      ticks := ticks + Tag(symbol, f);
    }

    /** The write every path goes through: impossible bars go to quarantine, the rest to the table. */
    method Write(symbol: string, f: seq<Entry>)
      modifies this`ticks, this`quarantined
      ensures ticks == Written(old(ticks), symbol, Possible(f))
      ensures quarantined == old(quarantined) + Tag(symbol, Rejected(f))
    {
      var mask := ImpossibleMask(Frame(true, true, seq(|f|, i requires 0 <= i < |f| => f[i].cells)));
      var kept, rejected: seq<Entry> := [], [];
      for i := 0 to |f|
        invariant kept == Possible(f[..i]) && rejected == Rejected(f[..i])
      {
        assert f[..i + 1][..i] == f[..i];
        if mask[i] {
          rejected := rejected + [f[i]];
        } else {
          kept := kept + [f[i]];
        }
      }
      assert f[..|f|] == f;
      quarantined := quarantined + Tag(symbol, rejected);
      WriteTable(symbol, kept);
    }

    method WriteResolveOverlap(symbol: string, f: seq<Entry>, now: int)
      modifies this`ticks, this`quarantined
      ensures ticks == Resolved(old(ticks), library, symbol, f, now)
      ensures quarantined == old(quarantined) + Tag(symbol, Rejected(Resolution(old(ticks), library, symbol, f, now)))
    {
      var closed := Closed(f);
      var existing := Read(ticks, symbol, EPOCH, now, library);
      if existing == [] {
        Write(symbol, closed);
        return;
      }
      if closed == [] {
        assert quarantined == quarantined + Tag(symbol, []);
        return;
      }
      var result := SortByDate(DropDuplicates(existing + closed));
      Write(symbol, result);
    }
  }

  // -------------------------------------------------- the merge refines map override

  /** What the store keeps to for one symbol and bar size: one possible bar a date, dated in the readable window,
      and in that window no row of the symbol without a bar size. */
  ghost predicate Clean(t: Table, library: string, symbol: string, now: int) {
    && Distinct(Rows(t, symbol, library))
    && (forall e :: e in Rows(t, symbol, library) ==> EPOCH <= e.date <= now && !IsImpossible(e))
    && AllTagged(t, symbol, now)
  }

  predicate AllTagged(t: Table, symbol: string, now: int) {
    forall s :: s in t && s.symbol == symbol && EPOCH <= s.entry.date <= now ==> s.entry.barSize.Some?
  }

  predicate Tagged(f: seq<Entry>, library: string) {
    forall e :: e in f ==> e.barSize == Some(library)
  }

  lemma {:induction false} PicksItsRows(t: Table, library: string, symbol: string, now: int)
    requires AllTagged(t, symbol, now)
    requires forall e :: e in Rows(t, symbol, library) ==> EPOCH <= e.date <= now
    ensures Pick(t, symbol, EPOCH, now, library) == Rows(t, symbol, library)
  {
    if t != [] {
      var n := |t| - 1;
      assert t == t[..n] + [t[n]];
      forall e | e in Rows(t[..n], symbol, library)
        ensures EPOCH <= e.date <= now
      {
        assert e in Rows(t, symbol, library);
      }
      PicksItsRows(t[..n], library, symbol, now);
      assert t[n] in t;
      if t[n].symbol == symbol && t[n].entry.barSize == Some(library) {
        assert t[n].entry in Rows(t, symbol, library);
      }
    }
  }

  lemma {:induction false} RowsAppend(a: Table, b: Table, symbol: string, library: string)
    ensures Rows(a + b, symbol, library) == Rows(a, symbol, library) + Rows(b, symbol, library)
    ensures Others(a + b, symbol, library) == Others(a, symbol, library) + Others(b, symbol, library)
  {
    if b == [] {
      assert a + b == a;
    } else {
      var n := |b| - 1;
      assert (a + b)[..|a + b| - 1] == a + b[..n];
      RowsAppend(a, b[..n], symbol, library);
    }
  }

  lemma {:induction false} TaggedRows(f: seq<Entry>, symbol: string, library: string)
    requires Tagged(f, library)
    ensures Rows(Tag(symbol, f), symbol, library) == f
    ensures Others(Tag(symbol, f), symbol, library) == []
  {
    if f != [] {
      var n := |f| - 1;
      assert f == f[..n] + [f[n]];
      assert Tag(symbol, f)[..n] == Tag(symbol, f[..n]);
      TaggedRows(f[..n], symbol, library);
    }
  }

  /** Deleting a range of one symbol and bar size leaves the others as they are, and these distinct. */
  lemma {:induction false} KeepRows(t: Table, symbol: string, library: string, lo: int, hi: int)
    ensures var kept := Keep(t, symbol, lo, hi, {library});
            && Others(kept, symbol, library) == Others(t, symbol, library)
            && (forall e :: e in Rows(kept, symbol, library) <==>
                  e in Rows(t, symbol, library) && !(lo <= e.date <= hi))
            && (Distinct(Rows(t, symbol, library)) ==> Distinct(Rows(kept, symbol, library)))
  {
    if t != [] {
      var n := |t| - 1;
      KeepRows(t[..n], symbol, library, lo, hi);
      var was, now := Keep(t[..n], symbol, lo, hi, {library}), Keep(t, symbol, lo, hi, {library});
      if now != was {
        assert now[..|now| - 1] == was && now[|now| - 1] == t[n];
      }
      var rows := Rows(t[..n], symbol, library);
      if t[n].symbol == symbol && t[n].entry.barSize == Some(library) {
        assert Rows(t, symbol, library) == rows + [t[n].entry];
        Ends(rows + [t[n].entry]);
        assert (rows + [t[n].entry])[..|rows|] == rows;
        Snoc(Rows(was, symbol, library), t[n].entry);
      }
    }
  }

  lemma DistinctJoin(a: seq<Entry>, b: seq<Entry>)
    requires Distinct(a) && Distinct(b) && forall x, y :: x in a && y in b ==> x.date != y.date
    ensures Distinct(a + b)
  {
    forall i, j | 0 <= i < j < |a + b|
      ensures (a + b)[i].date != (a + b)[j].date
    {
      if i < |a| <= j {
        assert a[i] in a && b[j - |a|] in b;
      }
    }
  }

  /** A write of tagged bars replaces the rows in its range and touches nothing else. */
  lemma WriteReplacesRange(t: Table, symbol: string, library: string, f: seq<Entry>)
    requires Tagged(f, library) && f != []
    ensures var rows := Rows(Written(t, symbol, f), symbol, library);
            var kept := Rows(Keep(t, symbol, MinDate(f), MaxDate(f), {library}), symbol, library);
            && rows == kept + f
            && (forall e :: e in kept <==> e in Rows(t, symbol, library) && !(MinDate(f) <= e.date <= MaxDate(f)))
            && (Distinct(Rows(t, symbol, library)) && Distinct(f) ==> Distinct(rows))
            && Others(Written(t, symbol, f), symbol, library) == Others(t, symbol, library)
  {
    hide Rows, Others, Keep, Distinct, MinDate, MaxDate;
    assert f[0] in f;
    assert Sizes(f) == {library};
    var keep := Keep(t, symbol, MinDate(f), MaxDate(f), {library});
    KeepRows(t, symbol, library, MinDate(f), MaxDate(f));
    RowsAppend(keep, Tag(symbol, f), symbol, library);
    TaggedRows(f, symbol, library);
    if Distinct(Rows(t, symbol, library)) && Distinct(f) {
      DistinctJoin(Rows(keep, symbol, library), f);
    }
  }

  lemma {:induction false} PossibleAll(f: seq<Entry>)
    requires forall e :: e in f ==> !IsImpossible(e)
    ensures Possible(f) == f
  {
    if f != [] {
      Ends(f);
      PossibleAll(f[..|f| - 1]);
    }
  }

  lemma WriteKeepsClean(t: Table, library: string, symbol: string, f: seq<Entry>, now: int)
    requires Clean(t, library, symbol, now) && Tagged(f, library) && Distinct(f)
    requires forall e :: e in f ==> !IsImpossible(e)
    ensures var t' := Written(t, symbol, f);
            && Others(t', symbol, library) == Others(t, symbol, library)
            && Distinct(Rows(t', symbol, library))
            && (forall e :: e in Rows(t', symbol, library) ==> e in Rows(t, symbol, library) || e in f)
            && AllTagged(t', symbol, now)
  {
    hide Rows, Others, Keep, Distinct, MinDate, MaxDate, Sizes;
    if f != [] {
      WriteReplacesRange(t, symbol, library, f);
      forall s | s in Written(t, symbol, f) && s.symbol == symbol && EPOCH <= s.entry.date <= now
        ensures s.entry.barSize.Some?
      {
        if s !in Keep(t, symbol, MinDate(f), MaxDate(f), Sizes(f)) {
          assert s in Tag(symbol, f);
        }
      }
    }
  }

  /** Whatever is merged, the result keeps one possible bar a date and leaves every other row as it was. */
  lemma MergeKeepsStoreClean(t: Table, library: string, symbol: string, f: seq<Entry>, now: int)
    requires Clean(t, library, symbol, now) && Tagged(f, library) && Distinct(f)
    ensures var t' := Resolved(t, library, symbol, f, now);
            && Others(t', symbol, library) == Others(t, symbol, library)
            && Distinct(Rows(t', symbol, library))
            && (forall e :: e in Rows(t', symbol, library) ==> !IsImpossible(e))
            && ((forall e :: e in f ==> EPOCH <= e.date <= now) ==> Clean(t', library, symbol, now))
  {
    ResolutionIsTagged(t, library, symbol, f, now);
    WriteKeepsClean(t, library, symbol, Possible(Resolution(t, library, symbol, f, now)), now);
  }

  lemma ResolutionIsTagged(t: Table, library: string, symbol: string, f: seq<Entry>, now: int)
    requires Clean(t, library, symbol, now) && Tagged(f, library) && Distinct(f)
    ensures var r := Resolution(t, library, symbol, f, now);
            && Tagged(r, library) && Distinct(r)
            && forall e :: e in r ==> e in f || e in Rows(t, symbol, library)
  {
    PicksItsRows(t, library, symbol, now);
  }

  /** The merged frame, as a series, is the stored one overridden by the downloaded one. */
  lemma MergedSeries(existing: seq<Entry>, f: seq<Entry>)
    requires Distinct(existing) && Distinct(f)
    ensures Series(Merged(SortByDate(existing), f)) == Series(existing) + Series(f)
    ensures forall e :: e in Merged(SortByDate(existing), f) ==> e in existing || e in f
    ensures forall e :: e in existing ==> exists m :: m in Merged(SortByDate(existing), f) && m.date == e.date
  {
    var both := SortByDate(existing) + f;
    SameEntriesSameSeries(SortByDate(existing), existing);
    SeriesAppend(SortByDate(existing), f);
    DropDuplicatesKeepsSeries(both);
    var merged := Merged(SortByDate(existing), f);
    SameEntriesSameSeries(merged, DropDuplicates(both));
    SeriesHolds(merged);
    SeriesHolds(existing);
    forall e | e in existing
      ensures exists m :: m in merged && m.date == e.date
    {
      assert e.date in Series(merged);
      assert Series(merged)[e.date] in merged;
    }
  }

  /** A write that has a bar for every stored date leaves just what it wrote. */
  lemma CoveringWrite(t: Table, symbol: string, library: string, f: seq<Entry>)
    requires Tagged(f, library) && f != []
    requires forall e :: e in Rows(t, symbol, library) ==> exists m :: m in f && m.date == e.date
    ensures Rows(Written(t, symbol, f), symbol, library) == f
  {
    hide Rows, Keep, Others, Distinct, Written, MinDate, MaxDate;
    WriteReplacesRange(t, symbol, library, f);
    AllGone(Rows(Keep(t, symbol, MinDate(f), MaxDate(f), {library}), symbol, library), f);
  }

  /** What a merge or a first download does to the stored series, when every bar of it is written. */
  lemma WriteOverrides(t: Table, library: string, symbol: string, f: seq<Entry>, r: seq<Entry>)
    requires Distinct(Rows(t, symbol, library)) && Distinct(f) && f != [] && Tagged(f, library)
    requires var rows := Rows(t, symbol, library);
             r == if rows == [] then f else Merged(SortByDate(rows), f)
    ensures Series(Rows(Written(t, symbol, r), symbol, library)) == Series(Rows(t, symbol, library)) + Series(f)
  {
    hide Rows, Series, Written, Merged, SortByDate, DropDuplicates;
    var rows := Rows(t, symbol, library);
    if rows == [] {
      CoveringWrite(t, symbol, library, f);
      EmptySeries();
      assert Series(rows) + Series(f) == Series(f);
    } else {
      MergedSeries(rows, f);
      NewBarSurvives(SortByDate(rows), f);
      CoveringWrite(t, symbol, library, r);
    }
  }

  lemma ResolutionIsPossible(t: Table, library: string, symbol: string, f: seq<Entry>, now: int)
    requires Clean(t, library, symbol, now) && Tagged(f, library) && Distinct(f)
    requires forall e :: e in Closed(f) ==> !IsImpossible(e)
    ensures Resolved(t, library, symbol, f, now) == Written(t, symbol, Resolution(t, library, symbol, f, now))
  {
    PicksItsRows(t, library, symbol, now);
    PossibleAll(Resolution(t, library, symbol, f, now));
  }

  /** The frame that is merged, for a clean store. */
  lemma ResolutionOfRows(t: Table, library: string, symbol: string, f: seq<Entry>, now: int)
    requires Clean(t, library, symbol, now)
    ensures var rows := Rows(t, symbol, library);
            Resolution(t, library, symbol, f, now)
            == if rows == [] then Closed(f) else if Closed(f) == [] then [] else Merged(SortByDate(rows), Closed(f))
  {
    PicksItsRows(t, library, symbol, now);
    var rows := Rows(t, symbol, library);
    if rows != [] {
      assert rows[0] in SortByDate(rows);
    }
  }

  /** If nothing in the merge is impossible, the stored series becomes the old one overridden by the new. */
  lemma MergeOverrides(t: Table, library: string, symbol: string, f: seq<Entry>, now: int)
    requires Clean(t, library, symbol, now) && Tagged(f, library) && Distinct(f)
    requires forall e :: e in Closed(f) ==> !IsImpossible(e)
    ensures Series(Rows(Resolved(t, library, symbol, f, now), symbol, library))
            == Series(Rows(t, symbol, library)) + Series(Closed(f))
  {
    ResolutionIsPossible(t, library, symbol, f, now);
    ResolutionOfRows(t, library, symbol, f, now);
    OverridesWhenWritten(t, library, symbol, Closed(f), Resolution(t, library, symbol, f, now));
  }

  lemma OverridesWhenWritten(t: Table, library: string, symbol: string, closed: seq<Entry>, r: seq<Entry>)
    requires Distinct(Rows(t, symbol, library)) && Distinct(closed) && Tagged(closed, library)
    requires var rows := Rows(t, symbol, library);
             r == if rows == [] then closed else if closed == [] then [] else Merged(SortByDate(rows), closed)
    ensures Series(Rows(Written(t, symbol, r), symbol, library)) == Series(Rows(t, symbol, library)) + Series(closed)
  {
    if closed != [] {
      WriteOverrides(t, library, symbol, closed, r);
    } else {
      assert r == [];
      assert Series(closed) == map[];
      assert Written(t, symbol, r) == t;
    }
  }

  lemma AllGone(kept: seq<Entry>, f: seq<Entry>)
    requires forall e :: e !in kept
    ensures kept == [] && kept + f == f
  {
    if kept != [] {
      HeadIn(kept);
    }
  }

  /** write_resolve_overlap is map override exactly when no downloaded bar that has a close is impossible: one that
      is wins the merge, and is then neither stored nor overridden by the good bar it displaced. */
  lemma MergeOverridesExactlyWithoutImpossibleBars(
    t: Table, library: string, symbol: string, f: seq<Entry>, now: int)
    requires Clean(t, library, symbol, now) && Tagged(f, library) && Distinct(f)
    ensures Series(Rows(Resolved(t, library, symbol, f, now), symbol, library))
            == Series(Rows(t, symbol, library)) + Series(Closed(f))
            <==> forall e :: e in f && HasClose(e) ==> !IsImpossible(e)
  {
    if forall e :: e in Closed(f) ==> !IsImpossible(e) {
      MergeOverrides(t, library, symbol, f, now);
    } else {
      var e :| e in Closed(f) && IsImpossible(e);
      var after := Rows(Resolved(t, library, symbol, f, now), symbol, library);
      SeriesHolds(Closed(f));
      SeriesHolds(after);
      MergeKeepsStoreClean(t, library, symbol, f, now);
      assert (Series(Rows(t, symbol, library)) + Series(Closed(f)))[e.date] == e;
      assert forall d :: d in Series(after) ==> !IsImpossible(Series(after)[d]);
    }
  }

  /** Whether a date lies among the bars that are written. */
  predicate Spans(f: seq<Entry>, date: int) {
    f != [] && MinDate(f) <= date <= MaxDate(f)
  }

  /** What a merge leaves at a date, given the stored and the new series and the frame `r` written: the old overridden
      by the new, except where the new bar is impossible. Nothing new is stored there, and the old bar, if there was
      one, is lost exactly when it lies among the bars written. */
  predicate MergedAt(stored: map<int, Entry>, added: map<int, Entry>, r: seq<Entry>, after: map<int, Entry>, d: int) {
    if d in added && IsImpossible(added[d]) then
      (d in after <==> d in stored && !Spans(r, d)) && (d in after ==> after[d] == stored[d])
    else
      (d in after <==> d in stored + added) && (d in after ==> after[d] == (stored + added)[d])
  }

  /** The frame before the filter holds the overridden series, and after it the possible bars of that. */
  lemma ResolutionHolds(t: Table, library: string, symbol: string, f: seq<Entry>, now: int)
    requires Clean(t, library, symbol, now) && Tagged(f, library) && Distinct(f) && Closed(f) != []
    ensures var both := Series(Rows(t, symbol, library)) + Series(Closed(f));
            var m := Resolution(t, library, symbol, f, now);
            && Distinct(m) && Tagged(m, library) && Series(m) == both
            && forall e :: e in Possible(m) <==> e.date in both && both[e.date] == e && !IsImpossible(e)
  {
    hide Rows, Series, Merged, SortByDate, DropDuplicates;
    var rows, closed := Rows(t, symbol, library), Closed(f);
    ResolutionIsTagged(t, library, symbol, f, now);
    ResolutionOfRows(t, library, symbol, f, now);
    var m := Resolution(t, library, symbol, f, now);
    if rows == [] {
      EmptySeries();
      assert Series(rows) + Series(closed) == Series(closed);
    } else {
      MergedSeries(rows, closed);
    }
    SeriesHolds(m);
  }

  /** A merge, for any download: at every date, what is described above. */
  lemma MergeIsExactly(t: Table, library: string, symbol: string, f: seq<Entry>, now: int, d: int)
    requires Clean(t, library, symbol, now) && Tagged(f, library) && Distinct(f)
    ensures var stored, added := Series(Rows(t, symbol, library)), Series(Closed(f));
            var r := Possible(Resolution(t, library, symbol, f, now));
            var after := Series(Rows(Resolved(t, library, symbol, f, now), symbol, library));
            MergedAt(stored, added, r, after, d)
  {
    var m := Resolution(t, library, symbol, f, now);
    var r, closed := Possible(m), Closed(f);
    if closed == [] {
      ResolutionOfRows(t, library, symbol, f, now);
      assert m == [] && r == [];
      EmptySeries();
    } else {
      ResolutionHolds(t, library, symbol, f, now);
      SeriesHolds(Rows(t, symbol, library));
      SeriesHolds(closed);
      if r != [] {
        WriteReplacesRange(t, symbol, library, r);
        WrittenSeries(t, library, symbol, closed, r, d);
      } else {
        NothingWritten(t, library, symbol, closed, m, d);
      }
    }
  }

  lemma NothingWritten(t: Table, library: string, symbol: string, closed: seq<Entry>, m: seq<Entry>, d: int)
    requires var both := Series(Rows(t, symbol, library)) + Series(closed);
             forall e :: e in Possible(m) <==> e.date in both && both[e.date] == e && !IsImpossible(e)
    requires Possible(m) == [] && forall e :: e in Rows(t, symbol, library) ==> !IsImpossible(e)
    ensures var stored := Series(Rows(t, symbol, library));
            MergedAt(stored, Series(closed), [], stored, d)
  {
    SeriesHolds(Rows(t, symbol, library));
    SeriesHolds(closed);
    var stored, added := Series(Rows(t, symbol, library)), Series(closed);
    if d in stored + added {
      var e := (stored + added)[d];
      assert e !in Possible(m);
    }
  }

  lemma WrittenSeries(t: Table, library: string, symbol: string, closed: seq<Entry>, r: seq<Entry>, d: int)
    requires var both := Series(Rows(t, symbol, library)) + Series(closed);
             forall e :: e in r <==> e.date in both && both[e.date] == e && !IsImpossible(e)
    requires r != [] && Tagged(r, library) && Distinct(r) && Distinct(Rows(t, symbol, library))
    requires forall e :: e in Rows(t, symbol, library) ==> !IsImpossible(e)
    ensures var stored, added := Series(Rows(t, symbol, library)), Series(closed);
            var after := Series(Rows(Written(t, symbol, r), symbol, library));
            MergedAt(stored, added, r, after, d)
  {
    hide Rows, Series, Keep, Written, MinDate, MaxDate;
    var rows, rows' := Rows(t, symbol, library), Rows(Written(t, symbol, r), symbol, library);
    var kept := Rows(Keep(t, symbol, MinDate(r), MaxDate(r), {library}), symbol, library);
    WriteReplacesRange(t, symbol, library, r);
    SeriesHolds(rows);
    SeriesHolds(closed);
    SeriesHolds(rows');
    var stored, added, after := Series(rows), Series(closed), Series(rows');
    if d in after {
      assert after[d] in kept || after[d] in r;
    }
    if d in stored + added && !IsImpossible((stored + added)[d]) {
      assert (stored + added)[d] in r && (stored + added)[d] in rows';
    } else if d in stored && !Spans(r, d) {
      assert stored[d] in kept && stored[d] in rows';
    }
  }

  /** A read of a clean store is in strictly increasing order of time. */
  lemma ReadsInOrder(t: Table, library: string, symbol: string, now: int)
    requires Clean(t, library, symbol, now)
    ensures var r := Read(t, symbol, EPOCH, now, library);
            && (forall i, j :: 0 <= i < j < |r| ==> r[i].date < r[j].date)
            && Series(r) == Series(Rows(t, symbol, library))
  {
    PicksItsRows(t, library, symbol, now);
    SameEntriesSameSeries(Read(t, symbol, EPOCH, now, library), Rows(t, symbol, library));
  }

  /** Rows without a bar size are read but never deleted. So after a merge of new, possible bars each date reads
      back once exactly when the symbol had no such row in the readable window. */
  lemma UntaggedRowsAreDuplicated(t: Table, library: string, symbol: string, f: seq<Entry>, now: int)
    requires Distinct(Rows(t, symbol, library)) && Tagged(f, library) && Distinct(f) && Closed(f) != []
    requires forall e :: e in Rows(t, symbol, library) || e in f ==> EPOCH <= e.date <= now
    requires forall e :: e in Pick(t, symbol, EPOCH, now, library) || e in f ==> !IsImpossible(e)
    ensures Distinct(Pick(Resolved(t, library, symbol, f, now), symbol, EPOCH, now, library))
            <==> AllTagged(t, symbol, now)
  {
    var t' := Resolved(t, library, symbol, f, now);
    if AllTagged(t, symbol, now) {
      PicksItsRows(t, library, symbol, now);
      MergeKeepsStoreClean(t, library, symbol, f, now);
      PicksItsRows(t', library, symbol, now);
    } else {
      UntaggedRowStays(t, library, symbol, f, now);
    }
  }

  lemma UntaggedRowStays(t: Table, library: string, symbol: string, f: seq<Entry>, now: int)
    requires Tagged(f, library) && Distinct(f) && Closed(f) != [] && !AllTagged(t, symbol, now)
    requires forall e :: e in Pick(t, symbol, EPOCH, now, library) || e in f ==> !IsImpossible(e)
    ensures !Distinct(Pick(Resolved(t, library, symbol, f, now), symbol, EPOCH, now, library))
  {
    var s :| s in t && s.symbol == symbol && EPOCH <= s.entry.date <= now && s.entry.barSize == None;
    var existing, closed := Read(t, symbol, EPOCH, now, library), Closed(f);
    assert s == Stored(symbol, s.entry);
    assert s.entry in existing;
    var r := Merged(existing, closed);
    PossibleAll(r);
    NewBarSurvives(existing, closed);
    assert library in Sizes(r);
    var m := MergedHasDate(existing, closed, s.entry);
    TwoRowsAtOneDate(t, library, symbol, r, s, m, now);
  }

  lemma MergedHasDate(existing: seq<Entry>, f: seq<Entry>, e: Entry) returns (m: Entry)
    requires e in existing
    ensures m in Merged(existing, f) && m.date == e.date
  {
    var both := existing + f;
    DropDuplicatesKeepsSeries(both);
    SeriesHolds(both);
    SeriesHolds(DropDuplicates(both));
    assert e in both;
    m := Series(DropDuplicates(both))[e.date];
  }

  lemma TwoRowsAtOneDate(t: Table, library: string, symbol: string, r: seq<Entry>, s: Stored, m: Entry, now: int)
    requires s in t && s.symbol == symbol && EPOCH <= s.entry.date <= now && s.entry.barSize == None
    requires m in r && m.date == s.entry.date && library in Sizes(r)
    requires m.barSize == Some(library) || m.barSize == None
    ensures !Distinct(Pick(Written(t, symbol, r), symbol, EPOCH, now, library))
  {
    hide Pick, Keep, MinDate, MaxDate, Sizes;
    var keep := Keep(t, symbol, MinDate(r), MaxDate(r), Sizes(r));
    PickAppend(keep, Tag(symbol, r), symbol, EPOCH, now, library);
    var first, second := Pick(keep, symbol, EPOCH, now, library), Pick(Tag(symbol, r), symbol, EPOCH, now, library);
    assert s == Stored(symbol, s.entry);
    var k :| 0 <= k < |r| && r[k] == m;
    assert Tag(symbol, r)[k] == Stored(symbol, m);
    var i :| 0 <= i < |first| && first[i] == s.entry;
    var j :| 0 <= j < |second| && second[j] == m;
    assert (first + second)[i] == s.entry && (first + second)[|first| + j] == m;
  }

  /** The last frame merged in keeps at least its last bar. */
  lemma NewBarSurvives(existing: seq<Entry>, f: seq<Entry>)
    requires f != []
    ensures f[|f| - 1] in Merged(existing, f)
  {
    var both := existing + f;
    var d := DropDuplicates(both);
    assert d[|d| - 1] == both[|both| - 1] == f[|f| - 1];
    assert f[|f| - 1] in d;
  }

  lemma {:induction false} PickAppend(a: Table, b: Table, symbol: string, start: int, end: int, barSize: string)
    ensures Pick(a + b, symbol, start, end, barSize)
            == Pick(a, symbol, start, end, barSize) + Pick(b, symbol, start, end, barSize)
  {
    if b == [] {
      assert a + b == a;
    } else {
      var n := |b| - 1;
      assert (a + b)[..|a + b| - 1] == a + b[..n];
      PickAppend(a, b[..n], symbol, start, end, barSize);
    }
  }

  // ------------------------------------------------------------------- two cases in point

  /** A bar at one price throughout. */
  function FlatBar(date: int, price: real, barSize: Option<string>): Entry {
    var c := Value(Fin(price));
    Entry(date, Cells(c, c, c, c, Value(Fin(1.0))), Extra(Missing, None, None), barSize)
  }

  /** A stored bar between two others is lost to an impossible one that is downloaded alone. */
  lemma LoneBadBarDisplaces(t: Table, library: string, symbol: string, f: seq<Entry>, a: Entry, b: Entry, now: int)
    requires Clean(t, library, symbol, now) && |f| == 1 && f[0].barSize == Some(library)
    requires HasClose(f[0]) && IsImpossible(f[0])
    requires a in Rows(t, symbol, library) && b in Rows(t, symbol, library) && a.date < f[0].date < b.date
    ensures Series(Rows(Resolved(t, library, symbol, f, now), symbol, library))
            == Series(Rows(t, symbol, library)) - {f[0].date}
  {
    hide Clean, Rows, Series, Resolved, Resolution, Possible, Closed, HasClose, IsImpossible;
    LoneFrame(f);
    CleanRows(t, library, symbol, now);
    SeriesHolds(Rows(t, symbol, library));
    ResolutionHolds(t, library, symbol, f, now);
    var r := Possible(Resolution(t, library, symbol, f, now));
    assert a in r && b in r && Spans(r, f[0].date);
    var stored, after := Series(Rows(t, symbol, library)),
                         Series(Rows(Resolved(t, library, symbol, f, now), symbol, library));
    forall d
      ensures d in after <==> d in stored && d != f[0].date
      ensures d in after ==> after[d] == stored[d]
    {
      MergeIsExactly(t, library, symbol, f, now, d);
    }
  }

  lemma LoneFrame(f: seq<Entry>)
    requires |f| == 1 && HasClose(f[0])
    ensures Closed(f) == f && Series(f) == map[f[0].date := f[0]] && Closed(f) != []
  {
    var e := f[0];
    assert f[..0] == [];
    assert Closed(f[..0]) == [] && Series(f[..0]) == map[];
    assert [] + [e] == f;
  }

  lemma CleanRows(t: Table, library: string, symbol: string, now: int)
    requires Clean(t, library, symbol, now)
    ensures Distinct(Rows(t, symbol, library)) && forall e :: e in Rows(t, symbol, library) ==> !IsImpossible(e)
  {
  }

  const THREE_BARS: seq<Entry> :=
    [FlatBar(1, 10.0, Some("1 min")), FlatBar(2, 10.0, Some("1 min")), FlatBar(3, 10.0, Some("1 min"))]

  lemma FlatBarsArePossible(date: int, price: real, barSize: Option<string>)
    requires price > 0.0
    ensures !IsImpossible(FlatBar(date, price, barSize)) && HasClose(FlatBar(date, price, barSize))
  {
  }

  lemma ThreeBarsAreClean()
    ensures Clean(Tag("A", THREE_BARS), "1 min", "A", 9)
    ensures Rows(Tag("A", THREE_BARS), "A", "1 min") == THREE_BARS
  {
    hide FlatBar, IsImpossible;
    forall i | 0 <= i < 3
      ensures !IsImpossible(THREE_BARS[i])
    {
      FlatBarsArePossible(i + 1, 10.0, Some("1 min"));
    }
    assert Tagged(THREE_BARS, "1 min") && Distinct(THREE_BARS) by {
      FlatBarFields();
    }
    FlatBarFields();
    TaggedRows(THREE_BARS, "A", "1 min");
  }

  lemma FlatBarFields()
    ensures forall i :: 0 <= i < 3 ==> THREE_BARS[i].date == i + 1 && THREE_BARS[i].barSize == Some("1 min")
  {
  }

  /** Bars at 1, 2 and 3 are stored; a new one for 2 has its high below its low. The merge leaves no bar at 2. */
  lemma GoodBarIsLost()
    ensures var t, bad := Tag("A", THREE_BARS), FlatBar(2, 10.0, Some("1 min")).(
                            cells := THREE_BARS[1].cells.(high := Value(Fin(9.0))));
            && Clean(t, "1 min", "A", 9)
            && 2 in Series(Rows(t, "A", "1 min"))
            && 2 !in Series(Rows(Resolved(t, "1 min", "A", [bad], 9), "A", "1 min"))
  {
    var t, bad := Tag("A", THREE_BARS), FlatBar(2, 10.0, Some("1 min")).(
                    cells := THREE_BARS[1].cells.(high := Value(Fin(9.0))));
    ThreeBarsAreClean();
    SeriesHolds(THREE_BARS);
    assert IsImpossible(bad) && HasClose(bad);
    assert THREE_BARS[0] in THREE_BARS && THREE_BARS[1] in THREE_BARS && THREE_BARS[2] in THREE_BARS;
    hide Clean, Rows, Resolved, Series, IsImpossible;
    LoneBadBarDisplaces(t, "1 min", "A", [bad], THREE_BARS[0], THREE_BARS[2], 9);
  }

  /** A stored bar at 1 has no bar size. Merging one for 2 leaves two rows that read back at 1. */
  lemma UntaggedBarReadsTwice()
    ensures var t, f := Tag("A", [FlatBar(1, 10.0, None)]), [FlatBar(2, 10.0, Some("1 min"))];
            !Distinct(Pick(Resolved(t, "1 min", "A", f, 9), "A", EPOCH, 9, "1 min"))
  {
    var untagged, f := FlatBar(1, 10.0, None), [FlatBar(2, 10.0, Some("1 min"))];
    var t := Tag("A", [untagged]);
    FlatBarsArePossible(1, 10.0, None);
    FlatBarsArePossible(2, 10.0, Some("1 min"));
    assert untagged.date == 1 && untagged.barSize == None && f[0].date == 2 && f[0].barSize == Some("1 min");
    hide FlatBar, IsImpossible, HasClose, Rows, Pick, Resolved;
    LoneRow(untagged, "1 min");
    assert f[..0] == [] && Closed(f) == f;
    UntaggedRowStays(t, "1 min", "A", f, 9);
  }

  lemma LoneRow(e: Entry, library: string)
    requires e.barSize == None && e.date == 1
    ensures var t := Tag("A", [e]);
            && !AllTagged(t, "A", 9)
            && forall x :: x in Pick(t, "A", EPOCH, 9, library) ==> x == e
  {
    var t := Tag("A", [e]);
    assert t[0] in t;
  }
}
