/** Which trading sessions have no bar (TickData.missing in trader/data/data_access.py).
    Timestamps are seconds on the exchange's own clock, so a session's day is a quotient. */
module Gaps {
  import opened Common
  import opened BarStore

  datatype Range = Range(start: int, end: int)

  const DAY := 86400

  function DayOf(date: int): (d: int)
    ensures d * 86400 <= date < (d + 1) * 86400
  {
    date / DAY
  }

  predicate Covers(r: Range, day: int) {
    r.start <= day <= r.end
  }

  predicate Ascending(days: seq<int>) {
    forall i, j :: 0 <= i < j < |days| ==> days[i] < days[j]
  }

  /** The days on which a read finds a bar with a close. */
  function DaysPresent(df: seq<Entry>): (days: set<int>)
    ensures forall d :: d in days <==>
              exists e :: e in df && e.cells.close.Value? && !e.cells.close.num.NaN? && DayOf(e.date) == d
  {
    set e | e in df && HasClose(e) :: DayOf(e.date)
  }

  function Within(days: seq<int>, first: int, last: int): (r: seq<int>)
    ensures forall d :: d in r <==> d in days && first <= d <= last
    ensures Ascending(days) ==> Ascending(r)
  {
    if days == [] then []
    else
      var n := |days| - 1;
      assert days == days[..n] + [days[n]];
      var r := Within(days[..n], first, last);
      assert forall i :: 0 <= i < |r| ==> r[i] in r;
      assert Ascending(days) ==> forall d :: d in days[..n] ==> d < days[n];
      if first <= days[n] <= last then r + [days[n]] else r
  }

  /** `r` is a run of absent sessions that cannot be made longer on either side. */
  ghost predicate IsMaximalRun(r: Range, sessions: seq<int>, present: set<int>) {
    exists a, b :: 0 <= a <= b < |sessions| && IsRunAt(r, sessions, present, a, b)
  }

  ghost predicate IsRunAt(r: Range, sessions: seq<int>, present: set<int>, a: int, b: int)
    requires 0 <= a <= b < |sessions|
  {
    && sessions[a] == r.start && sessions[b] == r.end
    && (forall i :: a <= i <= b ==> sessions[i] !in present)
    && (a > 0 ==> sessions[a - 1] in present)
    && (b < |sessions| - 1 ==> sessions[b + 1] in present)
  }

  /** The ranges are exactly the maximal runs of absent sessions, in order. */
  ghost predicate AreTheGaps(ranges: seq<Range>, sessions: seq<int>, present: set<int>) {
    && (forall r :: r in ranges ==> IsMaximalRun(r, sessions, present))
    && (forall i, j :: 0 <= i < j < |ranges| ==> ranges[i].end < ranges[j].start)
    && (forall i :: 0 <= i < |sessions| ==>
          (sessions[i] !in present <==> Covered(ranges, sessions[i])))
  }

  ghost predicate Covered(ranges: seq<Range>, day: int) {
    exists r :: r in ranges && Covers(r, day)
  }

  ghost predicate CoveredUpTo(ranges: seq<Range>, sessions: seq<int>, present: set<int>, k: nat) {
    forall i :: 0 <= i < |sessions| && i < k && sessions[i] !in present ==> Covered(ranges, sessions[i])
  }

  /** Ranges that are maximal runs before `day`, in order. */
  ghost predicate RunsBefore(ranges: seq<Range>, sessions: seq<int>, present: set<int>, day: int) {
    && (forall i :: 0 <= i < |ranges| ==> IsMaximalRun(ranges[i], sessions, present) && ranges[i].end < day)
    && (forall i, j :: 0 <= i < j < |ranges| ==> ranges[i].end < ranges[j].start)
  }

  /** Everything about the ranges found before session `a`. */
  ghost predicate FoundUpTo(ranges: seq<Range>, sessions: seq<int>, present: set<int>, a: nat) {
    RunsBefore(ranges, sessions, present, DayAt(sessions, a)) && CoveredUpTo(ranges, sessions, present, a)
  }

  lemma RunIsLast(ranges: seq<Range>, r: Range, sessions: seq<int>, present: set<int>, a: nat, b: nat)
    requires Ascending(sessions) && a <= b < |sessions| && IsRunAt(r, sessions, present, a, b)
    requires RunsBefore(ranges, sessions, present, DayAt(sessions, a))
    ensures RunsBefore(ranges + [r], sessions, present, DayAt(sessions, b + 1))
  {
    assert DayAt(sessions, a) <= sessions[b] < DayAt(sessions, b + 1);
    hide Ascending;
    assert IsMaximalRun(r, sessions, present);
    hide IsMaximalRun, IsRunAt;
  }

  lemma RunCovers(ranges: seq<Range>, r: Range, sessions: seq<int>, present: set<int>, a: nat, b: nat)
    requires Ascending(sessions) && a <= b < |sessions| && IsRunAt(r, sessions, present, a, b)
    requires CoveredUpTo(ranges, sessions, present, a)
    ensures CoveredUpTo(ranges + [r], sessions, present, b + 1)
  {
    forall i | 0 <= i <= b && sessions[i] !in present
      ensures Covered(ranges + [r], sessions[i])
    {
      if i < a {
        var q :| q in ranges && Covers(q, sessions[i]);
        assert q in ranges + [r];
      } else {
        assert r in ranges + [r] && Covers(r, sessions[i]);
      }
    }
  }

  /** Adding the run that starts where the search stands takes it to the end of that run. */
  lemma RunExtends(ranges: seq<Range>, r: Range, sessions: seq<int>, present: set<int>, a: nat, b: nat)
    requires Ascending(sessions) && a <= b < |sessions| && IsRunAt(r, sessions, present, a, b)
    requires FoundUpTo(ranges, sessions, present, a)
    ensures FoundUpTo(ranges + [r], sessions, present, b + 1)
  {
    hide Ascending, IsRunAt, RunsBefore, CoveredUpTo;
    RunIsLast(ranges, r, sessions, present, a, b);
    RunCovers(ranges, r, sessions, present, a, b);
  }

  /** A present session takes the search one further. */
  lemma PresentExtends(ranges: seq<Range>, sessions: seq<int>, present: set<int>, k: nat)
    requires Ascending(sessions) && k < |sessions| && sessions[k] in present
    requires FoundUpTo(ranges, sessions, present, k)
    ensures FoundUpTo(ranges, sessions, present, k + 1)
  {
    assert DayAt(sessions, k) < DayAt(sessions, k + 1);
  }

  /** The ranges closed before session `k`, and the run still open there. */
  function Scan(sessions: seq<int>, present: set<int>, k: nat): (seq<Range>, Option<Range>)
    requires k <= |sessions|
  {
    if k == 0 then ([], None)
    else
      var (ranges, open) := Scan(sessions, present, k - 1);
      var d := sessions[k - 1];
      if d !in present then (ranges, Some(Range(if open.Some? then open.value.start else d, d)))
      else (if open.Some? then ranges + [open.value] else ranges, None)
  }

  /** The open run starts at `a`, after a present session, and reaches up to `k`; all gaps before `a` are found. */
  ghost predicate ScannedTo(
    ranges: seq<Range>, open: Option<Range>, sessions: seq<int>, present: set<int>, a: nat, k: nat)
  {
    && a <= k <= |sessions|
    && FoundUpTo(ranges, sessions, present, a)
    && (open.None? ==> a == k)
    && (a > 0 ==> sessions[a - 1] in present)
    && (open.Some? ==> a < k && sessions[a] == open.value.start && sessions[k - 1] == open.value.end
                       && forall i :: a <= i < k ==> sessions[i] !in present)
  }

  lemma NothingFoundYet(sessions: seq<int>, present: set<int>)
    ensures FoundUpTo([], sessions, present, 0)
  {
  }

  lemma {:induction false} ScanFinds(sessions: seq<int>, present: set<int>, k: nat) returns (a: nat)
    requires Ascending(sessions) && k <= |sessions|
    ensures ScannedTo(Scan(sessions, present, k).0, Scan(sessions, present, k).1, sessions, present, a, k)
  {
    hide Ascending, FoundUpTo;
    if k == 0 {
      NothingFoundYet(sessions, present);
      a := 0;
    } else {
      a := ScanFinds(sessions, present, k - 1);
      var (ranges, open) := Scan(sessions, present, k - 1);
      if sessions[k - 1] in present {
        if open.Some? {
          RunCloses(ranges, open.value, sessions, present, a, k - 1);
          PresentExtends(ranges + [open.value], sessions, present, k - 1);
        } else {
          PresentExtends(ranges, sessions, present, k - 1);
        }
        a := k;
      }
    }
  }

  lemma RunCloses(ranges: seq<Range>, r: Range, sessions: seq<int>, present: set<int>, a: nat, k: nat)
    requires Ascending(sessions) && ScannedTo(ranges, Some(r), sessions, present, a, k)
    requires k < |sessions| ==> sessions[k] in present
    ensures FoundUpTo(ranges + [r], sessions, present, k)
  {
    assert IsRunAt(r, sessions, present, a, k - 1);
    RunExtends(ranges, r, sessions, present, a, k - 1);
  }

  /** The loop over the sessions. */
  method Runs(sessions: seq<int>, present: set<int>) returns (ranges: seq<Range>)
    requires Ascending(sessions)
    ensures AreTheGaps(ranges, sessions, present)
  {
    ranges := [];
    var start, end: Option<int> := None, None;
    for k := 0 to |sessions|
      invariant start.Some? <==> end.Some?
      invariant Scan(sessions, present, k)
                == (ranges, if start.Some? then Some(Range(start.value, end.value)) else None)
    {
      var d := sessions[k];
      if d !in present {
        if start.None? {
          start := Some(d);
        }
        end := Some(d);
      } else if start.Some? {
        ranges := ranges + [Range(start.value, end.value)];
        start, end := None, None;
      }
    }
    ghost var closed := ranges;
    if start.Some? {
      ranges := ranges + [Range(start.value, end.value)];
    }
    ghost var a := ScanFinds(sessions, present, |sessions|);
    if start.Some? {
      RunCloses(closed, Range(start.value, end.value), sessions, present, a, |sessions|);
    }
    RunsAreTheGaps(ranges, sessions, present);
  }

  lemma RunsAreTheGaps(ranges: seq<Range>, sessions: seq<int>, present: set<int>)
    requires Ascending(sessions) && FoundUpTo(ranges, sessions, present, |sessions|)
    ensures AreTheGaps(ranges, sessions, present)
  {
    forall i | 0 <= i < |sessions| && Covered(ranges, sessions[i])
      ensures sessions[i] !in present
    {
      var r :| r in ranges && Covers(r, sessions[i]);
      RunsHoldNoPresentDay(r, sessions, present, i);
    }
  }

  /** The day of session `k`, or any day past the last one. */
  function DayAt(sessions: seq<int>, k: nat): int {
    if k < |sessions| then sessions[k] else if sessions == [] then 0 else sessions[|sessions| - 1] + 1
  }

  lemma RunsHoldNoPresentDay(r: Range, sessions: seq<int>, present: set<int>, i: nat)
    requires Ascending(sessions) && IsMaximalRun(r, sessions, present) && i < |sessions| && Covers(r, sessions[i])
    ensures sessions[i] !in present
  {
    var a, b :| 0 <= a <= b < |sessions| && IsRunAt(r, sessions, present, a, b);
    assert a <= i <= b;
  }

  /** The gaps of a symbol's stored bars among a calendar's sessions, between two timestamps. */
  method Missing(t: Table, library: string, symbol: string, calendar: seq<int>, start: int, end: int)
    returns (ranges: seq<Range>)
    requires Ascending(calendar)
    ensures AreTheGaps(ranges, Sessions(calendar, start, end), Present(t, library, symbol, start, end))
  {
    var df := Read(t, symbol, start, end, library);
    var dates := set d | d in DaysPresent(df) && DayOf(start) <= d <= DayOf(end);
    var sessions := Within(calendar, DayOf(start), DayOf(end));
    ranges := Runs(sessions, dates);
    assert forall d :: d in Within(calendar, DayOf(start), DayOf(end)) ==>
             (d in dates <==> d in Present(t, library, symbol, start, end));
    SamePresence(ranges, sessions, dates, Present(t, library, symbol, start, end));
  }

  function Sessions(calendar: seq<int>, start: int, end: int): seq<int> {
    Within(calendar, DayOf(start), DayOf(end))
  }

  function Present(t: Table, library: string, symbol: string, start: int, end: int): set<int> {
    DaysPresent(Pick(t, symbol, start, end, library))
  }

  lemma SamePresence(ranges: seq<Range>, sessions: seq<int>, a: set<int>, b: set<int>)
    requires AreTheGaps(ranges, sessions, a) && forall d :: d in sessions ==> (d in a <==> d in b)
    ensures AreTheGaps(ranges, sessions, b)
  {
    assert forall i :: 0 <= i < |sessions| ==> sessions[i] in sessions;
    forall r | r in ranges
      ensures IsMaximalRun(r, sessions, b)
    {
      var x, y :| 0 <= x <= y < |sessions| && IsRunAt(r, sessions, a, x, y);
      assert IsRunAt(r, sessions, b, x, y);
    }
  }

  /** The gaps determine the ranges: no other list of ranges fits the description. */
  lemma {:induction false} GapsAreUnique(x: seq<Range>, y: seq<Range>, sessions: seq<int>, present: set<int>)
    requires Ascending(sessions) && AreTheGaps(x, sessions, present) && AreTheGaps(y, sessions, present)
    ensures forall r :: r in x <==> r in y
  {
    forall r | r in x
      ensures r in y
    {
      FoundInOther(r, x, y, sessions, present);
    }
    forall r | r in y
      ensures r in x
    {
      FoundInOther(r, y, x, sessions, present);
    }
  }

  lemma FoundInOther(r: Range, x: seq<Range>, y: seq<Range>, sessions: seq<int>, present: set<int>)
    requires Ascending(sessions) && AreTheGaps(x, sessions, present) && AreTheGaps(y, sessions, present) && r in x
    ensures r in y
  {
    var a, b :| 0 <= a <= b < |sessions| && IsRunAt(r, sessions, present, a, b);
    assert Covered(y, sessions[a]);
    var q :| q in y && Covers(q, sessions[a]);
    var c, d :| 0 <= c <= d < |sessions| && IsRunAt(q, sessions, present, c, d);
    assert c <= a <= d;
    MeetingRunsAreOne(r, q, sessions, present, a, b, c, d);
  }

  lemma MeetingRunsAreOne(r: Range, q: Range, sessions: seq<int>, present: set<int>, a: int, b: int, c: int, d: int)
    requires 0 <= a <= b < |sessions| && 0 <= c <= d < |sessions| && c <= a <= d
    requires IsRunAt(r, sessions, present, a, b) && IsRunAt(q, sessions, present, c, d)
    ensures r == q
  {
    assert a > 0 ==> sessions[a - 1] in present;
    assert b < |sessions| - 1 ==> sessions[b + 1] in present;
    assert d < |sessions| - 1 ==> sessions[d + 1] in present;
  }
}
