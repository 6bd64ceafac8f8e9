/** What the columns of the strategies are, on numbers: means, average prices, true ranges, relative strength and the
    ranges of the days before (strategies/opening_drive_fade.py, strategies/late_day_momentum.py). */
module Indicators {
  import opened Common
  import opened Numbers
  import opened Columns
  import opened RegularHours
  import opened OpeningDriveFade
  import LateDayMomentum
  import GapReversion

  // -------------------------------------------------------------------- means

  /** The finite ones of some values, in order. */
  function Finites(a: seq<Num>): seq<real> {
    if a == [] then []
    else if a[|a| - 1].Fin? then Finites(a[..|a| - 1]) + [a[|a| - 1].x] else Finites(a[..|a| - 1])
  }

  lemma {:induction false} CountAndSum(a: seq<Num>, lo: nat, hi: nat)
    requires lo <= hi <= |a|
    ensures FiniteCount(a, lo, hi) == |Finites(a[lo..hi])| && FiniteSum(a, lo, hi) == Sum(Finites(a[lo..hi]))
  {
    if lo < hi {
      CountAndSum(a, lo, hi - 1);
      assert a[lo..hi][..hi - 1 - lo] == a[lo..hi - 1];
      var front := Finites(a[lo..hi - 1]);
      if a[hi - 1].Fin? {
        assert (front + [a[hi - 1].x])[..|front|] == front;
      }
    }
  }

  /** The mean of the finite values of a window, and NaN if there are fewer of them than asked for. */
  lemma MeanIs(a: seq<Num>, lo: nat, hi: nat, least: nat)
    requires lo <= hi <= |a| && least > 0
    ensures var values := Finites(a[lo..hi]);
            Mean(a, lo, hi, least) == if |values| < least then NaN else Fin(Sum(values) / |values| as real)
  {
    CountAndSum(a, lo, hi);
  }

  /** A rolling mean looks at the last `window` values up to its own place, or at all there are. */
  lemma RollingMeanIs(a: seq<Num>, window: nat, least: nat, i: nat)
    requires window > 0 && least > 0 && i < |a|
    ensures var values := Finites(if window <= i + 1 then a[i + 1 - window..i + 1] else a[..i + 1]);
            RollingMean(a, window, least)[i] ==
              if |values| < least then NaN else Fin(Sum(values) / |values| as real)
  {
    MeanIs(a, Back(i, window), i + 1, least);
    assert a[0..i + 1] == a[..i + 1];
  }

  function Total(a: seq<Num>, lo: nat, hi: nat): real
    requires lo <= hi <= |a| && forall j :: lo <= j < hi ==> a[j].Fin?
  {
    if lo == hi then 0.0 else Total(a, lo, hi - 1) + a[hi - 1].x
  }

  lemma {:induction false} AllFinite(a: seq<Num>, lo: nat, hi: nat)
    requires lo <= hi <= |a| && forall j :: lo <= j < hi ==> a[j].Fin?
    ensures FiniteCount(a, lo, hi) == hi - lo && FiniteSum(a, lo, hi) == Total(a, lo, hi)
  {
    if lo < hi {
      AllFinite(a, lo, hi - 1);
    }
  }

  lemma RollingOfFinite(a: seq<Num>, window: nat, i: nat)
    requires 0 < window <= i + 1 <= |a| && forall j :: i + 1 - window <= j <= i ==> a[j].Fin?
    ensures RollingMean(a, window, window)[i] == Fin(Total(a, i + 1 - window, i + 1) / window as real)
  {
    AllFinite(a, i + 1 - window, i + 1);
  }

  // --------------------------------------------------------------------- VWAP

  predicate Traded(b: Bar) {
    b.close.Fin? && b.volume.Fin?
  }

  /** Shares times price, and shares, over the day's bars among the first `n`. */
  function Money(bars: seq<Bar>, d: int, n: nat): real
    requires n <= |bars| && forall j :: 0 <= j < n && bars[j].day == d ==> Traded(bars[j])
  {
    if n == 0 then 0.0
    else
      assert bars[n - 1].day == d ==> Traded(bars[n - 1]);
      Money(bars, d, n - 1) + if bars[n - 1].day == d then bars[n - 1].close.x * bars[n - 1].volume.x else 0.0
  }

  function Shares(bars: seq<Bar>, d: int, n: nat): real
    requires n <= |bars| && forall j :: 0 <= j < n && bars[j].day == d ==> Traded(bars[j])
  {
    if n == 0 then 0.0
    else
      assert bars[n - 1].day == d ==> Traded(bars[n - 1]);
      Shares(bars, d, n - 1) + if bars[n - 1].day == d then bars[n - 1].volume.x else 0.0
  }

  lemma {:induction false} SumsOfDay(bars: seq<Bar>, d: int, n: nat)
    requires n <= |bars| && forall j :: 0 <= j < n && bars[j].day == d ==> Traded(bars[j])
    ensures var closes, volumes := Column(bars, Close), Column(bars, Volume);
            && Over(Add, Fin(0.0), Map2(Mul, closes, volumes), Days(bars), d, n) == Fin(Money(bars, d, n))
            && Over(Add, Fin(0.0), volumes, Days(bars), d, n) == Fin(Shares(bars, d, n))
  {
    if n > 0 {
      SumsOfDay(bars, d, n - 1);
      var closes, volumes := Column(bars, Close), Column(bars, Volume);
      assert closes[n - 1] == Close(bars[n - 1]) && volumes[n - 1] == Volume(bars[n - 1]);
      if bars[n - 1].day == d {
        assert Traded(bars[n - 1]);
        ProductAt(bars, n - 1);
      }
    }
  }

  /** The session's average price weighs every bar of the day up to now by its volume; without any volume it is the
      close. */
  lemma VwapIsTheAverage(bars: seq<Bar>, i: nat)
    requires i < |bars| && forall j :: 0 <= j <= i && bars[j].day == bars[i].day ==> Traded(bars[j])
    ensures var money, shares := Money(bars, bars[i].day, i + 1), Shares(bars, bars[i].day, i + 1);
            Vwap(bars)[i] == if shares == 0.0 then bars[i].close else Fin(money / shares)
  {
    var d := bars[i].day;
    assert Traded(bars[i]);
    SumsOfDay(bars, d, i + 1);
    ProductAt(bars, i);
    var money, shares := Money(bars, d, i + 1), Shares(bars, d, i + 1);
    var closes, volumes := Column(bars, Close), Column(bars, Volume);
    assert Over(Add, Fin(0.0), Map2(Mul, closes, volumes), Days(bars), d, i + 1) == Fin(money);
    assert Over(Add, Fin(0.0), volumes, Days(bars), d, i + 1) == Fin(shares);
    assert Map2(Mul, closes, volumes)[i].Fin?;
    hide *;
    VwapIs(bars, i, Fin(money), Fin(shares));
    AverageOr(money, shares, bars[i].close);
  }

  lemma AverageOr(money: real, shares: real, close: Num)
    ensures Fill(Div(Fin(money), ZeroToNaN(Fin(shares))), close) == if shares == 0.0 then close else Fin(money / shares)
  {
  }

  lemma ProductAt(bars: seq<Bar>, i: nat)
    requires i < |bars| && Traded(bars[i])
    ensures Map2(Mul, Column(bars, Close), Column(bars, Volume))[i] == Fin(bars[i].close.x * bars[i].volume.x)
  {
    var x, y := bars[i].close.x, bars[i].volume.x;
    assert Column(bars, Close)[i] == Close(bars[i]) && Column(bars, Volume)[i] == Volume(bars[i]);
    Product(x, y, x * y);
    hide Mul;
    assert Map2(Mul, Column(bars, Close), Column(bars, Volume))[i] == Mul(Fin(x), Fin(y));
  }

  // -------------------------------------------------- true range and relative strength

  function Larger(x: real, y: real): real {
    if x < y then y else x
  }

  function Distance(x: real, y: real): real {
    if x < y then y - x else x - y
  }

  /** The largest of the bar's own range and its distances from the close before. */
  lemma TrueRangeIs(bars: seq<Bar>, i: nat)
    requires i < |bars| && bars[i].high.Fin? && bars[i].low.Fin? && (i > 0 ==> bars[i - 1].close.Fin?)
    ensures var high, low := bars[i].high.x, bars[i].low.x;
            && (i == 0 ==> TrueRange(bars)[i] == Fin(high - low))
            && (i > 0 ==>
                  var before := bars[i - 1].close.x;
                  TrueRange(bars)[i] == Fin(Larger(Larger(high - low, Distance(high, before)), Distance(low, before))))
  {
    var highs, lows, before := Column(bars, High), Column(bars, Low), Shift(Column(bars, Close));
    assert highs[i] == High(bars[i]) && lows[i] == Low(bars[i]);
    assert i > 0 ==> before[i] == Column(bars, Close)[i - 1] == Close(bars[i - 1]);
    assert TrueRange(bars)[i] == FMax(FMax(Sub(highs[i], lows[i]), Gap(highs[i], before[i])), Gap(lows[i], before[i]));
  }

  /** How far the close rose, or fell, from the bar before, over some bars. */
  function Risen(bars: seq<Bar>, lo: nat, hi: nat): real
    requires 0 < lo <= hi <= |bars| && forall j :: lo - 1 <= j < hi ==> bars[j].close.Fin?
  {
    if lo == hi then 0.0
    else Risen(bars, lo, hi - 1) + Larger(bars[hi - 1].close.x - bars[hi - 2].close.x, 0.0)
  }

  function Fallen(bars: seq<Bar>, lo: nat, hi: nat): real
    requires 0 < lo <= hi <= |bars| && forall j :: lo - 1 <= j < hi ==> bars[j].close.Fin?
  {
    if lo == hi then 0.0
    else Fallen(bars, lo, hi - 1) + Larger(bars[hi - 2].close.x - bars[hi - 1].close.x, 0.0)
  }

  lemma ChangeIs(bars: seq<Bar>, j: nat)
    requires 0 < j < |bars| && bars[j].close.Fin? && bars[j - 1].close.Fin?
    ensures var up := bars[j].close.x - bars[j - 1].close.x;
            && Map(Rise, Changes(bars))[j] == Fin(Larger(up, 0.0))
            && Map(Fall, Changes(bars))[j] == Fin(Larger(-up, 0.0))
  {
    assert Column(bars, Close)[j] == Close(bars[j]) && Column(bars, Close)[j - 1] == Close(bars[j - 1]);
    assert Shift(Column(bars, Close))[j] == bars[j - 1].close;
    var changes, up := Changes(bars), bars[j].close.x - bars[j - 1].close.x;
    assert changes[j] == Sub(bars[j].close, bars[j - 1].close) == Fin(up);
    assert Map(Rise, changes)[j] == Rise(changes[j]) && Map(Fall, changes)[j] == Fall(changes[j]);
    assert Rise(Fin(up)) == Fin(Larger(up, 0.0)) && Fall(Fin(up)) == Fin(Larger(-up, 0.0));
  }

  lemma {:induction false} ChangesAddUp(bars: seq<Bar>, lo: nat, hi: nat)
    requires 0 < lo <= hi <= |bars| && forall j :: lo - 1 <= j < hi ==> bars[j].close.Fin?
    ensures var rises, falls := Map(Rise, Changes(bars)), Map(Fall, Changes(bars));
            && (forall j :: lo <= j < hi ==> rises[j].Fin? && falls[j].Fin?)
            && Total(rises, lo, hi) == Risen(bars, lo, hi) && Total(falls, lo, hi) == Fallen(bars, lo, hi)
  {
    forall j | lo <= j < hi
      ensures Map(Rise, Changes(bars))[j].Fin? && Map(Fall, Changes(bars))[j].Fin?
    {
      ChangeIs(bars, j);
    }
    if lo < hi {
      ChangesAddUp(bars, lo, hi - 1);
      ChangeIs(bars, hi - 1);
    }
  }

  /** The relative strength of the last 14 changes: 100 less 100 over one and the mean rise by the mean fall, and no
      number if nothing fell. */
  lemma RsiIs(bars: seq<Bar>, i: nat)
    requires 14 <= i < |bars| && forall j :: i - 14 <= j <= i ==> bars[j].close.Fin?
    ensures var risen, fallen := Risen(bars, i - 13, i + 1) / 14.0, Fallen(bars, i - 13, i + 1) / 14.0;
            && (fallen == 0.0 ==> Rsi(bars)[i].NaN?)
            && (fallen != 0.0 && 1.0 + risen / fallen != 0.0 ==>
                  Rsi(bars)[i] == Fin(100.0 - 100.0 / (1.0 + risen / fallen)))
  {
    hide Index, Rise, Fall, RollingMean, Risen, Fallen, Total, Changes;
    var rises, falls := Map(Rise, Changes(bars)), Map(Fall, Changes(bars));
    ChangesAddUp(bars, i - 13, i + 1);
    RollingOfFinite(rises, 14, i);
    RollingOfFinite(falls, 14, i);
    hide Map;
    var gain, loss := RollingMean(rises, RSI_PERIOD, RSI_PERIOD), RollingMean(falls, RSI_PERIOD, RSI_PERIOD);
    assert Rsi(bars)[i] == Index(gain[i], loss[i]);
    IndexIs(Risen(bars, i - 13, i + 1) / 14.0, Fallen(bars, i - 13, i + 1) / 14.0);
  }

  lemma IndexIs(gain: real, loss: real)
    ensures loss == 0.0 ==> Index(Fin(gain), Fin(loss)).NaN?
    ensures loss != 0.0 && 1.0 + gain / loss != 0.0 ==>
              Index(Fin(gain), Fin(loss)) == Fin(100.0 - 100.0 / (1.0 + gain / loss))
  {
    if loss != 0.0 && 1.0 + gain / loss != 0.0 {
      var q := gain / loss;
      Quotient(gain, loss, q);
      var p := 100.0 / (1.0 + q);
      Quotient(100.0, 1.0 + q, p);
      hide Div;
      assert Index(Fin(gain), Fin(loss)) == Sub(Fin(100.0), Fin(p));
    }
  }

  /** The average true range is the mean of the last 5460 true ranges, given at least 390. */
  lemma AtrIs(bars: seq<Bar>, i: nat)
    requires i < |bars|
    ensures var ranges := TrueRange(bars);
            var values := Finites(if 5460 <= i + 1 then ranges[i + 1 - 5460..i + 1] else ranges[..i + 1]);
            Atr(bars)[i] == if |values| < 390 then NaN else Fin(Sum(values) / |values| as real)
  {
    RollingMeanIs(TrueRange(bars), ATR_BARS, LEAST_ATR_BARS, i);
  }

  // -------------------------------------------------------------- the days before

  /** They are in order, earlier than the day, and no earlier day is left out except for those before all of them, and
      of these only once there are as many as asked for. */
  lemma {:induction false} PriorDaysAre(days: seq<int>, d: int, k: nat)
    ensures var prior := LateDayMomentum.PriorDays(days, d, k);
            && |prior| <= k
            && (forall i, j :: 0 <= i < j < |prior| ==> prior[i] < prior[j])
            && (forall p :: p in prior ==> p in days && p < d)
            && (forall x :: x in days && x < d && x !in prior ==> |prior| == k && forall p :: p in prior ==> x < p)
    decreases k
  {
    if k > 0 {
      LateDayMomentum.DayBeforeFinds(days, d, |days|);
      assert days[..|days|] == days;
      match LateDayMomentum.DayBefore(days, d, |days|)
      case None =>
        assert forall x :: x in days ==> x >= d;
      case Some(p) =>
        PriorDaysAre(days, p, k - 1);
        var rest := LateDayMomentum.PriorDays(days, p, k - 1);
        assert LateDayMomentum.PriorDays(days, d, k) == rest + [p];
        forall i | 0 <= i < |rest|
          ensures rest[i] < p
        {
          assert rest[i] in rest;
        }
        forall x | x in days && x < d && x !in rest + [p]
          ensures |rest| + 1 == k && forall q :: q in rest + [p] ==> x < q
        {
          assert p in rest + [p];
          assert x <= p && x != p;
          assert x !in rest;
        }
    }
  }

  /** The range of a day is from the lowest low to the highest high of its regular hours. */
  lemma {:induction false} DailyRangeIs(bars: seq<Bar>, d: int, high: Num, low: Num)
    requires IsHighest(Regular(bars, High), Days(bars), d, |bars|, high)
    requires IsLowest(Regular(bars, Low), Days(bars), d, |bars|, low)
    ensures LateDayMomentum.DailyRange(bars, d) == Sub(high, low)
  {
    hide IsHighest, IsLowest, Over, Regular, Sub;
    HighestIs(Regular(bars, High), Days(bars), d, |bars|, high);
    LowestIs(Regular(bars, Low), Days(bars), d, |bars|, low);
    var ranges := LateDayMomentum.PerDayRange(bars);
    forall j | 0 <= j < |bars| && Days(bars)[j] == d
      ensures ranges[j] == Sub(high, low)
    {
    }
    SomeBar(Regular(bars, High), Days(bars), d, high);
    FirstOverDay(ranges, Days(bars), d, |bars|);
    var r := LateDayMomentum.DailyRange(bars, d);
    if r.NaN? {
      var j :| 0 <= j < |bars| && Days(bars)[j] == d;
      assert !In(ranges, Days(bars), d, j);
    }
  }

  lemma SomeBar(a: seq<Num>, days: seq<int>, d: int, v: Num)
    requires |a| == |days| && IsHighest(a, days, d, |a|, v)
    ensures exists j :: 0 <= j < |days| && days[j] == d
  {
    var j :| 0 <= j < |a| && In(a, days, d, j) && a[j] == v;
    assert days[j] == d;
  }

  /** What a session is measured against: the mean of those ranges of the five days before that are numbers, given at
      least three. */
  lemma PriorMeanIs(bars: seq<Bar>, d: int)
    ensures var prior := LateDayMomentum.PriorDays(Days(bars), d, 5);
            var ranges := seq(|prior|, k requires 0 <= k < |prior| => LateDayMomentum.DailyRange(bars, prior[k]));
            var values := Finites(ranges);
            LateDayMomentum.PriorMean(bars, d) == if |values| < 3 then NaN else Fin(Sum(values) / |values| as real)
  {
    var ranges := LateDayMomentum.PriorRanges(bars, d);
    MeanIs(ranges, 0, |ranges|, 3);
    assert ranges[0..|ranges|] == ranges;
  }

  // ----------------------------------------------------------------------- the gap

  lemma GapIsInPercent(open: real, before: real)
    requires before != 0.0
    ensures GapReversion.Percent(Fin(open), Fin(before)) == Fin((open / before - 1.0) * 100.0)
  {
  }
}
