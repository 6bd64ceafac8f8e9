/** Bars of the regular session, and the day's first open among them. */
module RegularHours {
  import opened Common
  import opened Numbers
  import opened Columns

  const RTH_OPEN_MIN := 570
  const RTH_CLOSE_MIN := 960

  predicate IsRegular(b: Bar) {
    RTH_OPEN_MIN <= b.minute < RTH_CLOSE_MIN
  }

  /** A column of the regular session; other bars have no value in it. */
  function Regular(bars: seq<Bar>, f: Bar -> Num): (r: seq<Num>)
    ensures |r| == |bars|
  {
    Where(Column(bars, f), Session(bars, RTH_OPEN_MIN, RTH_CLOSE_MIN))
  }

  lemma RegularAt(bars: seq<Bar>, f: Bar -> Num, j: nat)
    requires j < |bars|
    ensures Regular(bars, f)[j] == if IsRegular(bars[j]) then f(bars[j]) else NaN
  {
    WhereAt(bars, f, RTH_OPEN_MIN, RTH_CLOSE_MIN, j);
  }

  lemma RegularOfPrefix(bars: seq<Bar>, f: Bar -> Num, n: nat)
    requires n <= |bars|
    ensures Regular(bars[..n], f) == Regular(bars, f)[..n] && Days(bars[..n]) == Days(bars)[..n]
  {
  }

  /** The first open of a day. */
  function OpenOf(bars: seq<Bar>, d: int): Num {
    Over(Fill, NaN, Regular(bars, Open), Days(bars), d, |bars|)
  }

  /** Some bar up to `i` has given its day the open. */
  predicate HasOpen(bars: seq<Bar>, i: nat)
    requires i < |bars|
  {
    exists j :: 0 <= j <= i && In(Regular(bars, Open), Days(bars), bars[i].day, j)
  }

  lemma {:induction false} OpenIsSettled(bars: seq<Bar>, i: nat)
    requires i < |bars| && HasOpen(bars, i)
    ensures OpenOf(bars[..i + 1], bars[i].day) == OpenOf(bars, bars[i].day)
  {
    var n, days, opens := i + 1, Days(bars), Regular(bars, Open);
    RegularOfPrefix(bars, Open, n);
    OverAgrees(Fill, NaN, opens[..n], opens, days[..n], days, bars[i].day, n);
    FirstIsSettled(opens, days, bars[i].day, n, |bars|);
  }

  lemma {:induction false} OpensStay(bars: seq<Bar>, i: nat)
    requires i < |bars| && HasOpen(bars[..i + 1], i)
    ensures HasOpen(bars, i)
  {
    var few := bars[..i + 1];
    RegularOfPrefix(bars, Open, i + 1);
    var j :| 0 <= j <= i && In(Regular(few, Open), Days(few), bars[i].day, j);
    assert In(Regular(bars, Open), Days(bars), bars[i].day, j);
  }

  lemma {:induction false} OwnOpen(bars: seq<Bar>, i: nat)
    requires i < |bars| && IsRegular(bars[i]) && !bars[i].open.NaN?
    ensures HasOpen(bars, i)
  {
    RegularAt(bars, Open, i);
    assert In(Regular(bars, Open), Days(bars), bars[i].day, i);
  }

  lemma NoOpenYet(few: seq<Bar>)
    requires few != [] && !HasOpen(few, |few| - 1)
    ensures OpenOf(few, few[|few| - 1].day).NaN?
  {
    FirstOverDay(Regular(few, Open), Days(few), few[|few| - 1].day, |few|);
  }

  /** The bar that first has an open gives it to the day. */
  lemma {:induction false} OpenAtLast(few: seq<Bar>, b: Bar)
    requires few != [] && !HasOpen(few, |few| - 1) && b.day == few[|few| - 1].day && IsRegular(b) && !b.open.NaN?
    ensures OpenOf(few + [b], b.day) == b.open
  {
    var bars, n := few + [b], |few|;
    NoOpenYet(few);
    assert bars[..n] == few;
    RegularOfPrefix(bars, Open, n);
    OverAgrees(Fill, NaN, Regular(few, Open), Regular(bars, Open), Days(few), Days(bars), b.day, n);
    RegularAt(bars, Open, n);
  }

  /** A bar at the time of the last one keeps the order. */
  lemma SameTimeKeepsOrder(few: seq<Bar>, b: Bar)
    requires few != [] && InTimeOrder(few) && b.day == few[|few| - 1].day && b.minute == few[|few| - 1].minute
    ensures InTimeOrder(few + [b])
  {
    var bars, n := few + [b], |few|;
    forall i, j | 0 <= i < j < |bars|
      ensures bars[i].day <= bars[j].day
      ensures bars[i].day == bars[j].day && MORNING <= bars[i].minute ==> bars[i].minute <= bars[j].minute
    {
      if j == n && i < n - 1 {
        assert few[i].day <= few[n - 1].day;
      }
    }
  }
}
