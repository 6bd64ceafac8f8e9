/** Afternoon trend-day long (strategies/late_day_momentum.py). */
module LateDayMomentum {
  import opened Common
  import opened Numbers
  import opened Columns
  import opened RegularHours

  const ENTRY_START_MIN := 870
  const ENTRY_END_MIN := 915
  const VWAP_PREMIUM_PCT := 0.5
  const VOL_WINDOW := 20
  const VOL_MULT := 1.1
  const RANGE_EXPANSION := 1.15
  const MAX_HOLD_BARS := 90
  const EOD_HOUR := 15
  const EOD_MINUTE := 55
  const MIN_BARS := 120
  const PRIOR_DAYS := 5
  const LEAST_PRIOR_DAYS := 3

  datatype State =
    | Empty
    | State(close: seq<Num>, vwap: seq<Num>, dayRangeSoFar: seq<Num>, prior5: seq<Num>, vol: seq<Num>,
            volAvg: seq<Num>, entryWindow: seq<bool>)

  predicate Covers(s: State, n: nat) {
    s.Empty? ||
    (n == |s.close| == |s.vwap| == |s.dayRangeSoFar| == |s.prior5| == |s.vol| == |s.volAvg| == |s.entryWindow|)
  }

  function RangeSoFar(bars: seq<Bar>): (r: seq<Num>)
    ensures |r| == |bars|
  {
    Map2(Sub, Running(FMax, NaN, Regular(bars, High), Days(bars)), Running(FMin, NaN, Regular(bars, Low), Days(bars)))
  }

  /** Each day's full range, given to every bar of the day. */
  function PerDayRange(bars: seq<Bar>): (r: seq<Num>)
    ensures |r| == |bars|
  {
    Map2(Sub, Broadcast(FMax, NaN, Regular(bars, High), Days(bars)),
         Broadcast(FMin, NaN, Regular(bars, Low), Days(bars)))
  }

  /** The day's row of the table of daily ranges. */
  function DailyRange(bars: seq<Bar>, d: int): Num {
    Over(Fill, NaN, PerDayRange(bars), Days(bars), d, |bars|)
  }

  /** The last day before `d` among the first `n` bars. */
  function DayBefore(days: seq<int>, d: int, n: nat): Option<int>
    requires n <= |days|
  {
    if n == 0 then None
    else
      var p := DayBefore(days, d, n - 1);
      if days[n - 1] < d && (p.None? || p.value < days[n - 1]) then Some(days[n - 1]) else p
  }

  /** Up to `k` days before `d`, in order. */
  function PriorDays(days: seq<int>, d: int, k: nat): seq<int>
    decreases k
  {
    if k == 0 then []
    else
      match DayBefore(days, d, |days|)
      case None => []
      case Some(p) => PriorDays(days, p, k - 1) + [p]
  }

  function PriorRanges(bars: seq<Bar>, d: int): seq<Num> {
    var prior := PriorDays(Days(bars), d, PRIOR_DAYS);
    seq(|prior|, k requires 0 <= k < |prior| => DailyRange(bars, prior[k]))
  }

  /** The mean range of the five days before, given at least three. */
  function PriorMean(bars: seq<Bar>, d: int): Num {
    var ranges := PriorRanges(bars, d);
    Mean(ranges, 0, |ranges|, LEAST_PRIOR_DAYS)
  }

  function Prior5(bars: seq<Bar>): (r: seq<Num>)
    ensures |r| == |bars|
  {
    seq(|bars|, i requires 0 <= i < |bars| => PriorMean(bars, bars[i].day))
  }

  function Precompute(bars: seq<Bar>): (s: State)
    ensures Covers(s, |bars|)
  {
    if |bars| < MIN_BARS then Empty
    else
      State(Column(bars, Close), Vwap(bars), RangeSoFar(bars), Prior5(bars), Column(bars, Volume),
            RollingMean(Column(bars, Volume), VOL_WINDOW, VOL_WINDOW), Session(bars, ENTRY_START_MIN, ENTRY_END_MIN))
  }

  function OnBar(s: State, n: nat, i: nat): Option<Signal>
    requires i < n && Covers(s, n)
  {
    if s.Empty? || i < MIN_BARS || !s.entryWindow[i] then None
    else if s.vwap[i].NaN? || s.dayRangeSoFar[i].NaN? || s.prior5[i].NaN? || s.volAvg[i].NaN?
            || Le(s.volAvg[i], Fin(0.0)) || Le(s.prior5[i], Fin(0.0)) then None
    else
      var premium := Mul(Div(Sub(s.close[i], s.vwap[i]), s.vwap[i]), Fin(100.0));
      if Lt(premium, Fin(VWAP_PREMIUM_PCT)) then None
      else if Lt(s.dayRangeSoFar[i], Mul(s.prior5[i], Fin(RANGE_EXPANSION))) then None
      else if Lt(s.vol[i], Mul(s.volAvg[i], Fin(VOL_MULT))) then None
      else if Lt(s.close[i], s.close[i - 1]) then None
      else Some(Signal(BUY, 0.65, 0.35, Some(EOD_HOUR * 60 + EOD_MINUTE), Some(MAX_HOLD_BARS)))
  }

  // ------------------------------------------------- earlier days are complete

  lemma {:induction false} DayBeforeFinds(days: seq<int>, d: int, n: nat)
    requires n <= |days|
    ensures var p := DayBefore(days, d, n);
            match p
            case None => forall j :: 0 <= j < n ==> days[j] >= d
            case Some(v) => v < d && v in days[..n] && forall j :: 0 <= j < n && days[j] < d ==> days[j] <= v
  {
    if n > 0 {
      DayBeforeFinds(days, d, n - 1);
      assert days[..n] == days[..n - 1] + [days[n - 1]];
    }
  }

  /** Bars that come later add no day before the present one. */
  lemma {:induction false} DayBeforeIsSettled(days: seq<int>, d: int, n: nat, m: nat)
    requires n <= m <= |days| && forall j :: n <= j < m ==> days[j] >= d
    ensures DayBefore(days, d, m) == DayBefore(days, d, n)
  {
    if n < m {
      DayBeforeIsSettled(days, d, n, m - 1);
    }
  }

  lemma {:induction false} DayBeforeAgrees(days: seq<int>, d: int, n: nat, m: nat)
    requires n <= m <= |days|
    ensures DayBefore(days[..m], d, n) == DayBefore(days, d, n)
  {
    if n > 0 {
      DayBeforeAgrees(days, d, n - 1, m);
    }
  }

  lemma {:induction false} PriorDaysAreSettled(days: seq<int>, d: int, n: nat, k: nat)
    requires n <= |days| && forall j :: n <= j < |days| ==> days[j] >= d
    ensures PriorDays(days[..n], d, k) == PriorDays(days, d, k)
    ensures forall p :: p in PriorDays(days, d, k) ==> p < d
    decreases k
  {
    if k > 0 {
      DayBeforeIsSettled(days, d, n, |days|);
      DayBeforeAgrees(days, d, n, n);
      DayBeforeFinds(days, d, |days|);
      match DayBefore(days, d, |days|)
      case None =>
      case Some(p) => PriorDaysAreSettled(days, p, n, k - 1);
    }
  }

  /** The full range of a day with no bars left to come. */
  lemma PerDayRangeIsSettled(bars: seq<Bar>, n: nat, j: nat)
    requires j < n <= |bars| && forall k :: n <= k < |bars| ==> bars[k].day != bars[j].day
    ensures PerDayRange(bars[..n])[j] == PerDayRange(bars)[j]
  {
    var days, d := Days(bars), bars[j].day;
    OverAgrees(FMax, NaN, Regular(bars[..n], High), Regular(bars, High), Days(bars[..n]), days, d, n);
    OverAgrees(FMin, NaN, Regular(bars[..n], Low), Regular(bars, Low), Days(bars[..n]), days, d, n);
    OverIgnores(FMax, NaN, Regular(bars, High), days, d, n, |bars|);
    OverIgnores(FMin, NaN, Regular(bars, Low), days, d, n, |bars|);
  }

  lemma DailyRangeIsSettled(bars: seq<Bar>, n: nat, d: int)
    requires n <= |bars| && forall k :: n <= k < |bars| ==> bars[k].day != d
    ensures DailyRange(bars[..n], d) == DailyRange(bars, d)
  {
    forall j | 0 <= j < n && bars[j].day == d
      ensures PerDayRange(bars[..n])[j] == PerDayRange(bars)[j]
    {
      PerDayRangeIsSettled(bars, n, j);
    }
    OverAgrees(Fill, NaN, PerDayRange(bars[..n]), PerDayRange(bars), Days(bars[..n]), Days(bars), d, n);
    OverIgnores(Fill, NaN, PerDayRange(bars), Days(bars), d, n, |bars|);
  }

  lemma Prior5IsSettled(bars: seq<Bar>, i: nat)
    requires i < |bars| && InTimeOrder(bars)
    ensures Prior5(bars[..i + 1])[i] == Prior5(bars)[i]
  {
    var n, d := i + 1, bars[i].day;
    ColumnOfPrefix(bars, n, High);
    PriorDaysAreSettled(Days(bars), d, n, PRIOR_DAYS);
    var prior := PriorDays(Days(bars), d, PRIOR_DAYS);
    forall k | 0 <= k < |prior|
      ensures DailyRange(bars[..n], prior[k]) == DailyRange(bars, prior[k])
    {
      assert prior[k] in prior;
      DailyRangeIsSettled(bars, n, prior[k]);
    }
    assert PriorRanges(bars[..n], d) == PriorRanges(bars, d);
  }

  lemma RangeSoFarOfPrefix(bars: seq<Bar>, n: nat)
    requires n <= |bars|
    ensures RangeSoFar(bars[..n]) == RangeSoFar(bars)[..n]
  {
    var days := Days(bars);
    var highs, lows := Regular(bars, High), Regular(bars, Low);
    assert Regular(bars[..n], High) == highs[..n] && Regular(bars[..n], Low) == lows[..n];
    assert Days(bars[..n]) == days[..n];
    RunningOfPrefix(FMax, NaN, highs, days, n);
    RunningOfPrefix(FMin, NaN, lows, days, n);
    Map2OfPrefix(Sub, Running(FMax, NaN, highs, days), Running(FMin, NaN, lows, days), n);
  }

  /** The columns agree wherever the signal of bar `i` looks. */
  predicate SameAt(s: State, t: State, i: nat)
    requires s.State? && t.State? && Covers(s, |s.close|) && Covers(t, |t.close|) && 0 < i < |s.close| && i < |t.close|
  {
    && s.close[i] == t.close[i] && s.close[i - 1] == t.close[i - 1] && s.vwap[i] == t.vwap[i]
    && s.dayRangeSoFar[i] == t.dayRangeSoFar[i] && s.prior5[i] == t.prior5[i] && s.vol[i] == t.vol[i]
    && s.volAvg[i] == t.volAvg[i] && s.entryWindow[i] == t.entryWindow[i]
  }

  lemma ColumnsAreSettled(bars: seq<Bar>, i: nat)
    requires MIN_BARS <= i < |bars| && InTimeOrder(bars)
    ensures SameAt(Precompute(bars), Precompute(bars[..i + 1]), i)
  {
    hide Vwap, RangeSoFar, Prior5, RollingMean;
    VwapOfPrefix(bars, i + 1);
    RangeSoFarOfPrefix(bars, i + 1);
    Prior5IsSettled(bars, i);
    VolumesOfPrefix(bars, i + 1, VOL_WINDOW);
  }

  lemma SameSignal(s: State, t: State, n: nat, m: nat, i: nat)
    requires s.State? && t.State? && Covers(s, n) && Covers(t, m) && 0 < i < n && i < m && SameAt(s, t, i)
    ensures OnBar(s, n, i) == OnBar(t, m, i)
  {
  }

  /** What a bar signals does not depend on later bars, although every bar is given its whole day's range. */
  lemma SignalIsCausal(bars: seq<Bar>, i: nat)
    requires i < |bars| && InTimeOrder(bars)
    ensures OnBar(Precompute(bars), |bars|, i) == OnBar(Precompute(bars[..i + 1]), i + 1, i)
  {
    if MIN_BARS <= i {
      ColumnsAreSettled(bars, i);
      SameSignal(Precompute(bars), Precompute(bars[..i + 1]), |bars|, i + 1, i);
    }
  }

  // ---------------------------------------------------------- what a signal means

  /** Between 14:30 and 15:15, half a per cent above the VWAP, not falling, on volume, in a session whose range so far
      is large against the mean range of the days before. */
  ghost predicate Trends(bars: seq<Bar>, i: nat, high: Num, low: Num)
    requires i < |bars|
  {
    && MIN_BARS <= i && ENTRY_START_MIN <= bars[i].minute < ENTRY_END_MIN
    && !bars[i].high.NaN? && IsHighest(Regular(bars, High), Days(bars), bars[i].day, i + 1, high)
    && !bars[i].low.NaN? && IsLowest(Regular(bars, Low), Days(bars), bars[i].day, i + 1, low)
    && Expands(Sub(high, low), PriorMean(bars, bars[i].day))
    && Leads(bars[i].close, Vwap(bars)[i]) && !Lt(bars[i].close, bars[i - 1].close)
    && OnVolume(RollingMean(Column(bars, Volume), VOL_WINDOW, VOL_WINDOW)[i], bars[i].volume)
  }

  predicate Expands(range: Num, prior: Num) {
    !range.NaN? && Lt(Fin(0.0), prior) && !Lt(range, Mul(prior, Fin(RANGE_EXPANSION)))
  }

  predicate Leads(close: Num, vwap: Num) {
    !vwap.NaN? && !Lt(Mul(Div(Sub(close, vwap), vwap), Fin(100.0)), Fin(VWAP_PREMIUM_PCT))
  }

  predicate OnVolume(average: Num, volume: Num) {
    Lt(Fin(0.0), average) && !Lt(volume, Mul(average, Fin(VOL_MULT)))
  }

  lemma RangeSoFarIs(bars: seq<Bar>, i: nat)
    requires i < |bars| && IsRegular(bars[i])
    ensures var d := bars[i].day;
            RangeSoFar(bars)[i] == Sub(
              if bars[i].high.NaN? then NaN else Over(FMax, NaN, Regular(bars, High), Days(bars), d, i + 1),
              if bars[i].low.NaN? then NaN else Over(FMin, NaN, Regular(bars, Low), Days(bars), d, i + 1))
  {
    hide Over, Sub;
    RegularAt(bars, High, i);
    RegularAt(bars, Low, i);
    hide Regular;
    var highs := Running(FMax, NaN, Regular(bars, High), Days(bars));
    var lows := Running(FMin, NaN, Regular(bars, Low), Days(bars));
    assert RangeSoFar(bars)[i] == Sub(highs[i], lows[i]);
  }

  lemma ColumnsAre(bars: seq<Bar>, i: nat)
    requires MIN_BARS <= i < |bars|
    ensures var s := Precompute(bars);
            && s.State? && Covers(s, |bars|) && s.close[i] == bars[i].close && s.close[i - 1] == bars[i - 1].close
            && s.vwap == Vwap(bars) && s.vol[i] == bars[i].volume && s.dayRangeSoFar == RangeSoFar(bars)
            && s.prior5[i] == PriorMean(bars, bars[i].day)
            && s.volAvg == RollingMean(Column(bars, Volume), VOL_WINDOW, VOL_WINDOW)
            && (s.entryWindow[i] <==> ENTRY_START_MIN <= bars[i].minute < ENTRY_END_MIN)
  {
    hide Vwap, RollingMean, RangeSoFar, PriorMean;
    assert Column(bars, Close)[i] == Close(bars[i]) && Column(bars, Close)[i - 1] == Close(bars[i - 1]);
    assert Column(bars, Volume)[i] == Volume(bars[i]);
  }

  /** A bar buys if and only if it is such a trend. */
  lemma {:induction false} BuysExactlyOnTrends(bars: seq<Bar>, i: nat)
    requires i < |bars|
    ensures var signal := OnBar(Precompute(bars), |bars|, i);
            && (signal.Some? <==> exists high, low :: Trends(bars, i, high, low))
            && (signal.Some? ==>
                signal.value == Signal(BUY, 0.65, 0.35, Some(EOD_HOUR * 60 + EOD_MINUTE), Some(MAX_HOLD_BARS)))
  {
    hide Precompute, Vwap, RollingMean, Over, Regular, Column, Days, RangeSoFar, PriorMean, Mul, Div;
    hide IsHighest, IsLowest;
    if MIN_BARS <= i && ENTRY_START_MIN <= bars[i].minute < ENTRY_END_MIN {
      ColumnsAre(bars, i);
      RangeSoFarIs(bars, i);
      var d := bars[i].day;
      var highest, lowest := Over(FMax, NaN, Regular(bars, High), Days(bars), d, i + 1),
                             Over(FMin, NaN, Regular(bars, Low), Days(bars), d, i + 1);
      HighestIs(Regular(bars, High), Days(bars), d, i + 1, highest);
      LowestIs(Regular(bars, Low), Days(bars), d, i + 1, lowest);
      if OnBar(Precompute(bars), |bars|, i).Some? {
        assert Trends(bars, i, highest, lowest);
      }
      forall high, low | Trends(bars, i, high, low)
        ensures OnBar(Precompute(bars), |bars|, i).Some?
      {
        HighestIs(Regular(bars, High), Days(bars), d, i + 1, high);
        LowestIs(Regular(bars, Low), Days(bars), d, i + 1, low);
      }
    } else if MIN_BARS <= i {
      ColumnsAre(bars, i);
    }
  }
}
