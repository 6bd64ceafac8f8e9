/** Morning long when price reclaims the session VWAP (strategies/vwap_reclaim.py). */
module VwapReclaim {
  import opened Common
  import opened Numbers
  import opened Columns
  import opened RegularHours

  const ENTRY_WINDOW_MIN := 120
  const MIN_DIP_PCT := 0.3
  const VOL_MULT := 1.3
  const VOL_WINDOW := 20
  const MAX_HOLD_BARS := 180
  const EOD_HOUR := 15
  const EOD_MINUTE := 45
  const MIN_BARS := 60

  datatype State =
    | Empty
    | State(close: seq<Num>, vwap: seq<Num>, dayLow: seq<Num>, openVwap: seq<Num>, vol: seq<Num>, volAvg: seq<Num>,
            entryWindow: seq<bool>)

  predicate Covers(s: State, n: nat) {
    s.Empty? ||
    (n == |s.close| == |s.vwap| == |s.dayLow| == |s.openVwap| == |s.vol| == |s.volAvg| == |s.entryWindow|)
  }

  /** The day's first price in regular hours, given to every bar of the day. */
  function OpenVwap(bars: seq<Bar>): (r: seq<Num>)
    ensures |r| == |bars|
  {
    Broadcast(Fill, NaN, Regular(bars, Close), Days(bars))
  }

  function Precompute(bars: seq<Bar>): (s: State)
    ensures Covers(s, |bars|)
  {
    if |bars| < MIN_BARS then Empty
    else
      State(Column(bars, Close), Vwap(bars), Running(FMin, NaN, Column(bars, Low), Days(bars)), OpenVwap(bars),
            Column(bars, Volume), RollingMean(Column(bars, Volume), VOL_WINDOW, VOL_WINDOW),
            Session(bars, RTH_OPEN_MIN, RTH_OPEN_MIN + ENTRY_WINDOW_MIN))
  }

  function OnBar(s: State, n: nat, i: nat): Option<Signal>
    requires i < n && Covers(s, n)
  {
    if s.Empty? || i < MIN_BARS || !s.entryWindow[i] then None
    else if s.vwap[i].NaN? || s.vwap[i - 1].NaN? || s.dayLow[i].NaN? || s.openVwap[i].NaN? || s.volAvg[i].NaN?
            || Le(s.volAvg[i], Fin(0.0)) then None
    else
      var dipPct := Mul(Div(Sub(s.openVwap[i], s.dayLow[i]), s.openVwap[i]), Fin(100.0));
      if Lt(dipPct, Fin(MIN_DIP_PCT)) then None
      else if Lt(s.close[i - 1], s.vwap[i - 1]) && Le(s.vwap[i], s.close[i])
              && Lt(Mul(s.volAvg[i], Fin(VOL_MULT)), s.vol[i]) then
        Some(Signal(BUY, 0.64, 0.36, Some(EOD_HOUR * 60 + EOD_MINUTE), Some(MAX_HOLD_BARS)))
      else None
  }

  function OnPrices(bars: seq<Bar>): Option<Signal> {
    if |bars| < MIN_BARS then None
    else if Precompute(bars).Empty? then None
    else OnBar(Precompute(bars), |bars|, |bars| - 1)
  }

  /** Once a bar in regular hours has a close, the day's first price is settled. */
  lemma OpenVwapIsSettled(bars: seq<Bar>, i: nat)
    requires i < |bars| && IsRegular(bars[i]) && !bars[i].close.NaN?
    ensures OpenVwap(bars[..i + 1])[i] == OpenVwap(bars)[i]
  {
    var days, n := Days(bars), i + 1;
    var closes := Regular(bars, Close);
    RegularOfPrefix(bars, Close, n);
    OverAgrees(Fill, NaN, Regular(bars[..n], Close), closes, Days(bars[..n]), days, days[i], n);
    RegularAt(bars, Close, i);
    assert In(closes, days, days[i], i);
    FirstIsSettled(closes, days, days[i], n, |bars|);
  }

  /** A bar in regular hours that has a close. */
  predicate Priced(bars: seq<Bar>, day: int, j: int) {
    0 <= j < |bars| && bars[j].day == day && IsRegular(bars[j]) && !bars[j].close.NaN?
  }

  /** The column itself looks ahead: exactly where the day's first price in regular hours is yet to come. */
  lemma OpenVwapLooksAhead(bars: seq<Bar>, i: nat)
    requires i < |bars|
    ensures OpenVwap(bars[..i + 1])[i] != OpenVwap(bars)[i] <==>
      && (forall j :: 0 <= j <= i ==> !Priced(bars, bars[i].day, j))
      && (exists j :: i < j < |bars| && Priced(bars, bars[i].day, j))
  {
    var days, n := Days(bars), i + 1;
    var closes := Regular(bars, Close);
    RegularOfPrefix(bars, Close, n);
    OverAgrees(Fill, NaN, Regular(bars[..n], Close), closes, Days(bars[..n]), days, days[i], n);
    assert forall j :: 0 <= j < |bars| ==> (In(closes, days, days[i], j) <==> Priced(bars, bars[i].day, j));
    FirstOverDay(closes, days, days[i], n);
    FirstOverDay(closes, days, days[i], |bars|);
    if j :| 0 <= j < n && In(closes, days, days[i], j) {
      FirstIsSettled(closes, days, days[i], n, |bars|);
    }
  }

  /** The columns agree wherever the signal of bar `i` looks; a bar without a VWAP signals nothing. */
  predicate SameAt(s: State, t: State, i: nat)
    requires s.State? && t.State? && Covers(s, |s.close|) && Covers(t, |t.close|) && 0 < i < |s.close| && i < |t.close|
  {
    && s.close[i] == t.close[i] && s.close[i - 1] == t.close[i - 1] && s.vwap[i] == t.vwap[i]
    && s.vwap[i - 1] == t.vwap[i - 1] && s.dayLow[i] == t.dayLow[i] && s.vol[i] == t.vol[i]
    && s.volAvg[i] == t.volAvg[i] && s.entryWindow[i] == t.entryWindow[i]
    && (s.entryWindow[i] && !s.vwap[i].NaN? ==> s.openVwap[i] == t.openVwap[i])
  }

  lemma SameSignal(s: State, t: State, n: nat, m: nat, i: nat)
    requires s.State? && t.State? && Covers(s, n) && Covers(t, m) && 0 < i < n && i < m && SameAt(s, t, i)
    ensures OnBar(s, n, i) == OnBar(t, m, i)
  {
  }

  lemma ColumnsAreSettled(bars: seq<Bar>, i: nat)
    requires MIN_BARS <= i < |bars|
    ensures SameAt(Precompute(bars), Precompute(bars[..i + 1]), i)
  {
    hide Vwap, Running, OpenVwap, RollingMean;
    var n := i + 1;
    ColumnOfPrefix(bars, n, Low);
    VwapOfPrefix(bars, n);
    RunningOfPrefix(FMin, NaN, Column(bars, Low), Days(bars), n);
    VolumesOfPrefix(bars, n, VOL_WINDOW);
    if bars[i].close.NaN? {
      VwapNeedsClose(bars, i);
    } else if IsRegular(bars[i]) {
      OpenVwapIsSettled(bars, i);
    }
  }

  /** What a bar signals does not depend on later bars, although the day's first price is given to every bar. */
  lemma SignalIsCausal(bars: seq<Bar>, i: nat)
    requires i < |bars|
    ensures OnBar(Precompute(bars), |bars|, i) == OnBar(Precompute(bars[..i + 1]), i + 1, i)
  {
    if MIN_BARS <= i {
      ColumnsAreSettled(bars, i);
      SameSignal(Precompute(bars), Precompute(bars[..i + 1]), |bars|, i + 1, i);
    }
  }

  lemma LiveIsTheLastBar(bars: seq<Bar>)
    requires bars != []
    ensures OnPrices(bars) == OnBar(Precompute(bars), |bars|, |bars| - 1)
  {
  }

  /** The live strategy, given the bars up to now, says what the backtest says at that bar of the whole history. */
  lemma LiveEqualsBacktest(bars: seq<Bar>, i: nat)
    requires i < |bars|
    ensures OnPrices(bars[..i + 1]) == OnBar(Precompute(bars), |bars|, i)
  {
    SignalIsCausal(bars, i);
    LiveIsTheLastBar(bars[..i + 1]);
  }

  // ---------------------------------------------------------- what a signal means

  /** Early in the session, after a dip of at least 0.3% from the day's first price to its low so far, the price is
      back at the VWAP from below, on volume. */
  ghost predicate Reclaims(bars: seq<Bar>, i: nat, open: Num, low: Num)
    requires i < |bars|
  {
    && MIN_BARS <= i && RTH_OPEN_MIN <= bars[i].minute < RTH_OPEN_MIN + ENTRY_WINDOW_MIN
    && IsFirst(Regular(bars, Close), Days(bars), bars[i].day, |bars|, open)
    && !bars[i].low.NaN? && IsLowest(Column(bars, Low), Days(bars), bars[i].day, i + 1, low)
    && !Lt(Mul(Div(Sub(open, low), open), Fin(100.0)), Fin(MIN_DIP_PCT))
    && Lt(bars[i - 1].close, Vwap(bars)[i - 1]) && Le(Vwap(bars)[i], bars[i].close)
    && OnVolume(RollingMean(Column(bars, Volume), VOL_WINDOW, VOL_WINDOW)[i], bars[i].volume)
  }

  predicate OnVolume(average: Num, volume: Num) {
    Lt(Fin(0.0), average) && Lt(Mul(average, Fin(VOL_MULT)), volume)
  }

  lemma ColumnsAre(bars: seq<Bar>, i: nat)
    requires MIN_BARS <= i < |bars|
    ensures var s, d := Precompute(bars), bars[i].day;
            && s.State? && Covers(s, |bars|) && s.close[i] == bars[i].close && s.close[i - 1] == bars[i - 1].close
            && s.vwap == Vwap(bars) && s.vol[i] == bars[i].volume
            && s.dayLow[i]
               == (if bars[i].low.NaN? then NaN else Over(FMin, NaN, Column(bars, Low), Days(bars), d, i + 1))
            && s.openVwap[i] == Over(Fill, NaN, Regular(bars, Close), Days(bars), d, |bars|)
            && s.volAvg == RollingMean(Column(bars, Volume), VOL_WINDOW, VOL_WINDOW)
            && (s.entryWindow[i] <==> RTH_OPEN_MIN <= bars[i].minute < RTH_OPEN_MIN + ENTRY_WINDOW_MIN)
  {
    hide Vwap, RollingMean, Over, Regular;
    assert Column(bars, Close)[i] == Close(bars[i]) && Column(bars, Close)[i - 1] == Close(bars[i - 1]);
    assert Column(bars, Low)[i] == Low(bars[i]) && Column(bars, Volume)[i] == Volume(bars[i]);
  }

  /** A bar buys if and only if it is such a reclaim. */
  lemma {:induction false} BuysExactlyOnReclaims(bars: seq<Bar>, i: nat)
    requires i < |bars|
    ensures var signal := OnBar(Precompute(bars), |bars|, i);
            && (signal.Some? <==> exists open, low :: Reclaims(bars, i, open, low))
            && (signal.Some? ==>
                signal.value == Signal(BUY, 0.64, 0.36, Some(EOD_HOUR * 60 + EOD_MINUTE), Some(MAX_HOLD_BARS)))
  {
    hide Precompute, Vwap, RollingMean, Over, Regular, Column, Days, IsFirst, IsLowest, Mul, Div, Sub;
    if MIN_BARS <= i {
      ColumnsAre(bars, i);
      var d := bars[i].day;
      var first, lowest := Over(Fill, NaN, Regular(bars, Close), Days(bars), d, |bars|),
                           Over(FMin, NaN, Column(bars, Low), Days(bars), d, i + 1);
      FirstIs(Regular(bars, Close), Days(bars), d, |bars|, first);
      LowestIs(Column(bars, Low), Days(bars), d, i + 1, lowest);
      if OnBar(Precompute(bars), |bars|, i).Some? {
        assert Reclaims(bars, i, first, lowest);
      }
      forall open, low | Reclaims(bars, i, open, low)
        ensures OnBar(Precompute(bars), |bars|, i).Some?
      {
        FirstIs(Regular(bars, Close), Days(bars), d, |bars|, open);
        LowestIs(Column(bars, Low), Days(bars), d, i + 1, low);
      }
    }
  }
}
