/** Fading the opening gap back to the session VWAP (strategies/gap_reversion.py). */
module GapReversion {
  import opened Common
  import opened Numbers
  import opened Columns
  import opened RegularHours

  const GAP_MIN_PCT := 0.5
  const GAP_MAX_PCT := 5.0
  const VOL_MULT := 1.2
  const VOL_WINDOW := 20
  const EOD_CLOSE_MIN := 945
  const MIN_BARS := 40

  datatype State =
    | Empty
    | State(close: seq<Num>, vwap: seq<Num>, gapPct: seq<Num>, vol: seq<Num>, volAvg: seq<Num>, rth: seq<bool>,
            eodFlat: seq<bool>)

  predicate Covers(s: State, n: nat) {
    s.Empty? ||
    (n == |s.close| == |s.vwap| == |s.gapPct| == |s.vol| == |s.volAvg| == |s.rth| == |s.eodFlat|)
  }

  /** The last day before `d` with a bar in regular hours, among the first `n` bars. */
  function SessionBefore(bars: seq<Bar>, d: int, n: nat): Option<int>
    requires n <= |bars|
  {
    if n == 0 then None
    else
      var p := SessionBefore(bars, d, n - 1);
      var b := bars[n - 1];
      if IsRegular(b) && b.day < d && (p.None? || p.value < b.day) then Some(b.day) else p
  }

  function CloseOf(bars: seq<Bar>, d: int): Num {
    Over(Latest, NaN, Regular(bars, Close), Days(bars), d, |bars|)
  }

  function PriorClose(bars: seq<Bar>, d: int): Num {
    match SessionBefore(bars, d, |bars|)
    case None => NaN
    case Some(p) => CloseOf(bars, p)
  }

  function Percent(open: Num, before: Num): Num {
    Mul(Sub(Div(open, before), Fin(1.0)), Fin(100.0))
  }

  /** The day's opening gap, given to every bar of its regular hours: the first price of today over the last of the
      session before. */
  function GapPct(bars: seq<Bar>): (r: seq<Num>)
    ensures |r| == |bars|
  {
    seq(|bars|, i requires 0 <= i < |bars| =>
      if IsRegular(bars[i]) then Percent(OpenOf(bars, bars[i].day), PriorClose(bars, bars[i].day)) else NaN)
  }

  function Precompute(bars: seq<Bar>): (s: State)
    ensures Covers(s, |bars|) && (s.Empty? <==> |bars| < MIN_BARS)
  {
    if |bars| < MIN_BARS then Empty
    else
      State(Column(bars, Close), Vwap(bars), GapPct(bars), Column(bars, Volume),
            RollingMean(Column(bars, Volume), VOL_WINDOW, VOL_WINDOW), Session(bars, RTH_OPEN_MIN, RTH_CLOSE_MIN),
            Session(bars, EOD_CLOSE_MIN, RTH_CLOSE_MIN))
  }

  /** What a bar's signal depends on besides the clock. */
  datatype Row = Row(close: Num, vwap: Num, gap: Num, vol: Num, volAvg: Num, prevClose: Num, prevVwap: Num)

  function RowAt(s: State, i: nat): Row
    requires s.State? && 0 < i < |s.close| && Covers(s, |s.close|)
  {
    Row(s.close[i], s.vwap[i], s.gapPct[i], s.vol[i], s.volAvg[i], s.close[i - 1], s.vwap[i - 1])
  }

  predicate CrossesUp(r: Row) {
    Lt(r.prevClose, r.prevVwap) && Le(r.vwap, r.close)
  }

  predicate CrossesDown(r: Row) {
    Lt(r.prevVwap, r.prevClose) && Le(r.close, r.vwap)
  }

  predicate Loud(r: Row) {
    Lt(Mul(r.volAvg, Fin(VOL_MULT)), r.vol)
  }

  function Fade(r: Row): Option<Signal> {
    if r.vwap.NaN? || r.prevVwap.NaN? || r.gap.NaN? || r.volAvg.NaN? || Le(r.volAvg, Fin(0.0)) then None
    else if Lt(Abs(r.gap), Fin(GAP_MIN_PCT)) || Lt(Fin(GAP_MAX_PCT), Abs(r.gap)) then None
    else if Lt(r.gap, Fin(0.0)) && CrossesUp(r) && Loud(r) then Some(Signal(BUY, 0.62, 0.38, None, None))
    else if Lt(Fin(0.0), r.gap) && CrossesDown(r) && Loud(r) then Some(Signal(SELL, 0.62, 0.38, None, None))
    else if Lt(r.gap, Fin(0.0)) && CrossesDown(r) then Some(Signal(SELL, 0.6, 0.4, None, None))
    else None
  }

  function OnBar(s: State, n: nat, i: nat): Option<Signal>
    requires i < n && Covers(s, n)
  {
    if s.Empty? || i < MIN_BARS || !s.rth[i] then None
    else if s.eodFlat[i] then Some(Signal(SELL, 0.55, 0.45, None, None))
    else Fade(RowAt(s, i))
  }

  // ------------------------------------------------- the session before is complete

  lemma {:induction false} SessionBeforeFinds(bars: seq<Bar>, d: int, n: nat)
    requires n <= |bars|
    ensures var p := SessionBefore(bars, d, n);
            match p
            case None => forall j :: 0 <= j < n && IsRegular(bars[j]) ==> bars[j].day >= d
            case Some(v) =>
              && v < d && (exists j :: 0 <= j < n && IsRegular(bars[j]) && bars[j].day == v)
              && forall j :: 0 <= j < n && IsRegular(bars[j]) && bars[j].day < d ==> bars[j].day <= v
  {
    if n > 0 {
      SessionBeforeFinds(bars, d, n - 1);
    }
  }

  lemma {:induction false} SessionBeforeIsSettled(bars: seq<Bar>, d: int, n: nat, m: nat)
    requires n <= m <= |bars| && forall j :: n <= j < m ==> bars[j].day >= d
    ensures SessionBefore(bars, d, m) == SessionBefore(bars, d, n)
  {
    if n < m {
      SessionBeforeIsSettled(bars, d, n, m - 1);
    }
  }

  lemma {:induction false} SessionBeforeAgrees(bars: seq<Bar>, d: int, n: nat, m: nat)
    requires n <= m <= |bars|
    ensures SessionBefore(bars[..m], d, n) == SessionBefore(bars, d, n)
  {
    if n > 0 {
      SessionBeforeAgrees(bars, d, n - 1, m);
    }
  }

  lemma {:induction false} CloseOfIsSettled(bars: seq<Bar>, d: int, n: nat)
    requires n <= |bars| && forall j :: n <= j < |bars| ==> bars[j].day != d
    ensures CloseOf(bars[..n], d) == CloseOf(bars, d)
  {
    var closes := Regular(bars, Close);
    assert Regular(bars[..n], Close) == closes[..n] && Days(bars[..n]) == Days(bars)[..n];
    OverAgrees(Latest, NaN, closes[..n], closes, Days(bars[..n]), Days(bars), d, n);
    OverIgnores(Latest, NaN, closes, Days(bars), d, n, |bars|);
  }

  lemma {:induction false} PriorCloseIsSettled(bars: seq<Bar>, i: nat)
    requires i < |bars| && InTimeOrder(bars)
    ensures PriorClose(bars[..i + 1], bars[i].day) == PriorClose(bars, bars[i].day)
  {
    var n, d := i + 1, bars[i].day;
    SessionBeforeIsSettled(bars, d, n, |bars|);
    SessionBeforeAgrees(bars, d, n, n);
    SessionBeforeFinds(bars, d, n);
    match SessionBefore(bars, d, n)
    case None =>
    case Some(p) => CloseOfIsSettled(bars, p, n);
  }

  // -------------------------------------------------------------- the signal

  function SignalAt(bars: seq<Bar>, i: nat): Option<Signal>
    requires i < |bars|
  {
    OnBar(Precompute(bars), |bars|, i)
  }

  /** Long enough a history, in regular hours, and not yet time to go flat. */
  predicate Trades(bars: seq<Bar>, i: nat)
    requires i < |bars|
  {
    MIN_BARS <= i && RTH_OPEN_MIN <= bars[i].minute < EOD_CLOSE_MIN
  }

  /** Near the close every bar says SELL, whatever the gap. */
  lemma TradesOrNot(bars: seq<Bar>, i: nat)
    requires i < |bars|
    ensures Trades(bars, i) ==> SignalAt(bars, i) == Fade(RowAt(Precompute(bars), i))
    ensures !Trades(bars, i) ==>
      SignalAt(bars, i)
      == if MIN_BARS <= i && IsRegular(bars[i]) then Some(Signal(SELL, 0.55, 0.45, None, None)) else None
  {
    hide Vwap, GapPct, RollingMean, Fade;
  }

  lemma RowLooksBack(bars: seq<Bar>, i: nat)
    requires MIN_BARS <= i < |bars|
    ensures var s, t := Precompute(bars), Precompute(bars[..i + 1]);
            RowAt(s, i) == RowAt(t, i).(gap := s.gapPct[i])
  {
    hide Vwap, GapPct, RollingMean;
    VwapOfPrefix(bars, i + 1);
    VolumesOfPrefix(bars, i + 1, VOL_WINDOW);
  }

  lemma GapIs(bars: seq<Bar>, i: nat)
    requires MIN_BARS <= i < |bars| && IsRegular(bars[i])
    ensures RowAt(Precompute(bars), i).gap == Percent(OpenOf(bars, bars[i].day), PriorClose(bars, bars[i].day))
  {
    hide Vwap, RollingMean, Percent, OpenOf, PriorClose;
  }

  /** A bar that has seen its day's open signals the same with and without the bars after it. */
  lemma SignalIsCausal(bars: seq<Bar>, i: nat)
    requires i < |bars| && InTimeOrder(bars) && HasOpen(bars, i)
    ensures SignalAt(bars, i) == SignalAt(bars[..i + 1], i)
  {
    hide Precompute, RowAt, Fade, Percent, OpenOf, PriorClose, OnBar, SignalAt;
    TradesOrNot(bars, i);
    TradesOrNot(bars[..i + 1], i);
    if Trades(bars, i) {
      RowLooksBack(bars, i);
      GapIs(bars, i);
      GapIs(bars[..i + 1], i);
      OpenIsSettled(bars, i);
      PriorCloseIsSettled(bars, i);
    }
  }

  // -------------------------------------- exactly when the rest of the day matters

  /** Some gap would make the bar trade. */
  predicate Fires(r: Row) {
    && !r.vwap.NaN? && !r.prevVwap.NaN? && !r.volAvg.NaN? && !Le(r.volAvg, Fin(0.0))
    && ((CrossesUp(r) && Loud(r)) || CrossesDown(r))
  }

  predicate Poised(bars: seq<Bar>, i: nat)
    requires i < |bars|
  {
    && Trades(bars, i) && Fires(RowAt(Precompute(bars), i))
    && PriorClose(bars, bars[i].day).Fin? && PriorClose(bars, bars[i].day).x != 0.0
  }

  /** No later bar of any continuation changes what the last bar of these signals. */
  ghost predicate Causal(few: seq<Bar>)
    requires few != []
  {
    forall bars | InTimeOrder(bars) && few <= bars :: SignalAt(bars, |few| - 1) == SignalAt(few, |few| - 1)
  }

  lemma FadeFires(r: Row)
    requires Fade(r).Some?
    ensures Fires(r) && !r.gap.NaN? && Le(Abs(r.gap), Fin(GAP_MAX_PCT))
  {
  }

  /** Only a finite prior close other than zero gives a gap small enough to fade. */
  lemma GapNeedsPriorClose(open: Num, before: Num)
    requires var gap := Percent(open, before);
             !gap.NaN? && Le(Abs(gap), Fin(GAP_MAX_PCT))
    ensures before.Fin? && before.x != 0.0 && !open.NaN?
  {
  }

  lemma TradersArePoised(bars: seq<Bar>, i: nat)
    requires i < |bars| && Trades(bars, i) && SignalAt(bars, i).Some?
    ensures Poised(bars, i) && !OpenOf(bars, bars[i].day).NaN?
  {
    hide Precompute, RowAt, Fade, Percent, OpenOf, PriorClose, OnBar, SignalAt, Fires;
    TradesOrNot(bars, i);
    GapIs(bars, i);
    FadeFires(RowAt(Precompute(bars), i));
    GapNeedsPriorClose(OpenOf(bars, bars[i].day), PriorClose(bars, bars[i].day));
  }

  lemma PoiseIsSettled(bars: seq<Bar>, i: nat)
    requires i < |bars| && InTimeOrder(bars)
    ensures Poised(bars, i) <==> Poised(bars[..i + 1], i)
  {
    hide Precompute, RowAt, PriorClose;
    if Trades(bars, i) {
      RowLooksBack(bars, i);
      PriorCloseIsSettled(bars, i);
    }
  }

  /** A continuation that gives the day an open one per cent below the close before. */
  function Reopening(few: seq<Bar>): Bar
    requires few != []
  {
    var b := few[|few| - 1];
    var before := PriorClose(few, b.day);
    Bar(b.day, b.minute, Fin(if before.Fin? then before.x * 0.99 else 0.0), NaN, NaN, NaN, NaN)
  }

  lemma OnePerCentDown(before: real)
    requires before != 0.0
    ensures Percent(Fin(before * 0.99), Fin(before)) == Fin(-1.0)
  {
    assert before * 0.99 / before == 0.99;
    assert (0.99 - 1.0) * 100.0 == -1.0;
  }

  lemma FiresOnAFall(r: Row)
    requires Fires(r)
    ensures Fade(r.(gap := Fin(-1.0))).Some?
  {
  }

  lemma ReopeningTrades(few: seq<Bar>)
    requires few != [] && InTimeOrder(few) && !HasOpen(few, |few| - 1) && Poised(few, |few| - 1)
    ensures SignalAt(few + [Reopening(few)], |few| - 1).Some?
  {
    hide Precompute, RowAt, Fade, Percent, OpenOf, PriorClose, OnBar, SignalAt, Fires;
    var i, b := |few| - 1, Reopening(few);
    var bars := few + [b];
    assert bars[..i + 1] == few;
    SameTimeKeepsOrder(few, b);
    RowLooksBack(bars, i);
    OpenAtLast(few, b);
    PriorCloseIsSettled(bars, i);
    OnePerCentDown(PriorClose(few, b.day).x);
    GapIs(bars, i);
    FiresOnAFall(RowAt(Precompute(few), i));
    TradesOrNot(bars, i);
  }

  lemma Continues(bars: seq<Bar>, i: nat)
    requires i < |bars| && InTimeOrder(bars)
    requires HasOpen(bars[..i + 1], i) || !Poised(bars[..i + 1], i)
    ensures SignalAt(bars, i) == SignalAt(bars[..i + 1], i)
  {
    hide SignalAt, Poised, Fade, RowAt, Precompute;
    var few := bars[..i + 1];
    if HasOpen(few, i) {
      OpensStay(bars, i);
      SignalIsCausal(bars, i);
    } else {
      PoiseIsSettled(bars, i);
      TradesOrNot(bars, i);
      TradesOrNot(few, i);
      if Trades(bars, i) && SignalAt(bars, i).Some? {
        TradersArePoised(bars, i);
      }
      if Trades(few, i) && SignalAt(few, i).Some? {
        TradersArePoised(few, i);
      }
    }
  }

  /** What the last bar signals can be changed by later bars exactly when its day has no open yet and it crosses the
      VWAP so that some gap would have it traded. */
  lemma CausalExactlyWhen(few: seq<Bar>)
    requires few != [] && InTimeOrder(few)
    ensures Causal(few) <==> HasOpen(few, |few| - 1) || !Poised(few, |few| - 1)
  {
    hide SignalAt, OpenOf;
    var i := |few| - 1;
    if HasOpen(few, i) || !Poised(few, i) {
      forall bars | InTimeOrder(bars) && few <= bars
        ensures SignalAt(bars, i) == SignalAt(few, i)
      {
        assert bars[..i + 1] == few;
        Continues(bars, i);
      }
    } else {
      SameTimeKeepsOrder(few, Reopening(few));
      ReopeningTrades(few);
      NoOpenYet(few);
      if SignalAt(few, i).Some? {
        TradersArePoised(few, i);
      }
      assert few <= few + [Reopening(few)];
    }
  }

  /** Bars that all have an open signal the same with and without the bars after them. */
  lemma BarsWithOpensAreCausal(bars: seq<Bar>, i: nat)
    requires i < |bars| && InTimeOrder(bars) && !bars[i].open.NaN?
    ensures SignalAt(bars, i) == SignalAt(bars[..i + 1], i)
  {
    hide Precompute, SignalAt, Fade;
    TradesOrNot(bars, i);
    TradesOrNot(bars[..i + 1], i);
    if Trades(bars, i) {
      OwnOpen(bars, i);
      SignalIsCausal(bars, i);
    }
  }

  // ----------------------------------------------------- a history that is not causal

  const EARLIER := 40

  /** A quiet day, then three bars without an open: one before hours, a dip below the VWAP, and a loud recovery. */
  function ReclaimingBar(k: nat): Bar {
    var price := Fin(if k == EARLIER + 1 then 90.0 else 100.0);
    Bar(if k < EARLIER then 0 else 1,
        if k < EARLIER then RTH_OPEN_MIN + k else if k == EARLIER then 500 else RTH_OPEN_MIN + k - EARLIER - 1,
        if k < EARLIER then price else NaN, price, price, price, Fin(if k == EARLIER + 2 then 10.0 else 1.0))
  }

  function ReclaimingBars(): (r: seq<Bar>)
    ensures |r| == EARLIER + 3 && forall k :: 0 <= k < |r| ==> r[k] == ReclaimingBar(k)
  {
    seq(EARLIER + 3, k requires 0 <= k => ReclaimingBar(k))
  }

  lemma ReclaimingAt(k: nat)
    requires k < EARLIER + 3
    ensures var bars := ReclaimingBars();
            && Column(bars, Close)[k] == ReclaimingBar(k).close && Column(bars, Volume)[k] == ReclaimingBar(k).volume
            && Map2(Mul, Column(bars, Close), Column(bars, Volume))[k]
               == Mul(ReclaimingBar(k).close, ReclaimingBar(k).volume)
            && Days(bars)[k] == ReclaimingBar(k).day
  {
    var bars := ReclaimingBars();
    assert Column(bars, Close)[k] == Close(bars[k]) && Column(bars, Volume)[k] == Volume(bars[k]);
  }

  /** Totals of the three last bars. */
  lemma {:induction false} TotalsToday(a: seq<Num>, x: real, y: real, z: real)
    requires |a| == EARLIER + 3 && a[EARLIER] == Fin(x) && a[EARLIER + 1] == Fin(y) && a[EARLIER + 2] == Fin(z)
    ensures Over(Add, Fin(0.0), a, Days(ReclaimingBars()), 1, EARLIER + 2) == Fin(x + y)
    ensures Over(Add, Fin(0.0), a, Days(ReclaimingBars()), 1, EARLIER + 3) == Fin(x + y + z)
  {
    var days := Days(ReclaimingBars());
    OverIgnores(Add, Fin(0.0), a, days, 1, 0, EARLIER);
    assert Over(Add, Fin(0.0), a, days, 1, EARLIER + 1) == Fin(x);
  }

  lemma ReclaimingVwap()
    ensures Vwap(ReclaimingBars())[EARLIER + 1] == Fin(95.0)
    ensures Vwap(ReclaimingBars())[EARLIER + 2] == Fin(1190.0 / 12.0)
  {
    hide Vwap, Mul, Div, Over, Map2, Column, Days;
    var bars := ReclaimingBars();
    ReclaimingAt(EARLIER);
    ReclaimingAt(EARLIER + 1);
    ReclaimingAt(EARLIER + 2);
    Product(100.0, 1.0, 100.0);
    Product(90.0, 1.0, 90.0);
    Product(100.0, 10.0, 1000.0);
    TotalsToday(Map2(Mul, Column(bars, Close), Column(bars, Volume)), 100.0, 90.0, 1000.0);
    TotalsToday(Column(bars, Volume), 1.0, 1.0, 10.0);
    VwapIs(bars, EARLIER + 1, Fin(190.0), Fin(2.0));
    VwapIs(bars, EARLIER + 2, Fin(1190.0), Fin(12.0));
    Quotient(190.0, 2.0, 95.0);
    Quotient(1190.0, 12.0, 1190.0 / 12.0);
  }

  lemma ReclaimingVolumes()
    ensures RollingMean(Column(ReclaimingBars(), Volume), VOL_WINDOW, VOL_WINDOW)[EARLIER + 2] == Fin(1.45)
  {
    var volumes, n := Column(ReclaimingBars(), Volume), EARLIER + 3;
    forall k | 0 <= k < n
      ensures volumes[k] == if k == EARLIER + 2 then Fin(10.0) else Fin(1.0)
    {
      ReclaimingAt(k);
    }
    SumOfConstant(volumes, n - VOL_WINDOW, n - 1, 1.0);
  }

  lemma {:induction false} ReclaimingPriorClose()
    ensures PriorClose(ReclaimingBars(), 1) == Fin(100.0)
  {
    var bars := ReclaimingBars();
    var closes, days := Regular(bars, Close), Days(bars);
    SessionBeforeFinds(bars, 1, |bars|);
    assert IsRegular(bars[0]) && bars[0].day == 0;
    OverIgnores(Latest, NaN, closes, days, 0, EARLIER, |bars|);
    RegularAt(bars, Close, EARLIER - 1);
    assert closes[EARLIER - 1] == Fin(100.0) && days[EARLIER - 1] == 0;
  }

  lemma RowIs(bars: seq<Bar>, i: nat)
    requires MIN_BARS <= i < |bars|
    ensures var r := RowAt(Precompute(bars), i);
            && r.close == Column(bars, Close)[i] && r.vwap == Vwap(bars)[i] && r.vol == Column(bars, Volume)[i]
            && r.volAvg == RollingMean(Column(bars, Volume), VOL_WINDOW, VOL_WINDOW)[i]
            && r.prevClose == Column(bars, Close)[i - 1] && r.prevVwap == Vwap(bars)[i - 1]
  {
    hide Vwap, RollingMean;
  }

  lemma ReclaimingBarsArePoised()
    ensures Poised(ReclaimingBars(), EARLIER + 2)
  {
    hide RowAt, Precompute, PriorClose, Vwap, RollingMean, Mul;
    var bars, i := ReclaimingBars(), EARLIER + 2;
    ReclaimingAt(i);
    ReclaimingAt(i - 1);
    ReclaimingVwap();
    ReclaimingVolumes();
    ReclaimingPriorClose();
    RowIs(bars, i);
    Product(1.45, 1.2, 1.74);
  }

  /** Bars without an open can make the backtest see a gap that the live strategy could not. */
  lemma ReclaimingBarsLookAhead()
    ensures InTimeOrder(ReclaimingBars()) && !Causal(ReclaimingBars())
  {
    hide Poised;
    var bars := ReclaimingBars();
    ReclaimingBarsArePoised();
    forall j | 0 <= j < |bars|
      ensures !In(Regular(bars, Open), Days(bars), 1, j)
    {
      RegularAt(bars, Open, j);
    }
    CausalExactlyWhen(bars);
  }

  // ---------------------------------------------------------- what a signal means

  /** The day's first open in regular hours, and the last close of the session before. */
  ghost predicate OpenedAfter(bars: seq<Bar>, day: int, open: Num, before: Num) {
    && IsFirst(Regular(bars, Open), Days(bars), day, |bars|, open)
    && SessionBefore(bars, day, |bars|).Some?
    && IsLast(Regular(bars, Close), Days(bars), SessionBefore(bars, day, |bars|).value, |bars|, before)
  }

  /** A gap from half a per cent to five. */
  predicate Moderate(gap: Num) {
    !gap.NaN? && Le(Fin(GAP_MIN_PCT), Abs(gap)) && Le(Abs(gap), Fin(GAP_MAX_PCT))
  }

  predicate UpThroughVwap(bars: seq<Bar>, i: nat)
    requires 0 < i < |bars|
  {
    Lt(bars[i - 1].close, Vwap(bars)[i - 1]) && Le(Vwap(bars)[i], bars[i].close)
  }

  predicate DownThroughVwap(bars: seq<Bar>, i: nat)
    requires 0 < i < |bars|
  {
    Lt(Vwap(bars)[i - 1], bars[i - 1].close) && Le(bars[i].close, Vwap(bars)[i])
  }

  function AverageVolume(bars: seq<Bar>, i: nat): Num
    requires i < |bars|
  {
    RollingMean(Column(bars, Volume), VOL_WINDOW, VOL_WINDOW)[i]
  }

  predicate OnVolume(bars: seq<Bar>, i: nat)
    requires i < |bars|
  {
    Lt(Mul(AverageVolume(bars, i), Fin(VOL_MULT)), bars[i].volume)
  }

  lemma RowOfBars(bars: seq<Bar>, i: nat)
    requires MIN_BARS <= i < |bars|
    ensures var r := RowAt(Precompute(bars), i);
            && (CrossesUp(r) <==> UpThroughVwap(bars, i)) && (CrossesDown(r) <==> DownThroughVwap(bars, i))
            && (Loud(r) <==> OnVolume(bars, i)) && r.volAvg == AverageVolume(bars, i)
  {
    hide Vwap, RollingMean, Precompute, RowAt;
    RowIs(bars, i);
    assert Column(bars, Close)[i] == Close(bars[i]) && Column(bars, Close)[i - 1] == Close(bars[i - 1]);
    assert Column(bars, Volume)[i] == Volume(bars[i]);
  }

  lemma {:induction false} GapIsOf(bars: seq<Bar>, i: nat, open: Num, before: Num)
    requires MIN_BARS <= i < |bars| && IsRegular(bars[i]) && OpenedAfter(bars, bars[i].day, open, before)
    ensures RowAt(Precompute(bars), i).gap == Percent(open, before)
  {
    hide Precompute, RowAt, Over, Regular, Percent;
    GapIs(bars, i);
    FirstIs(Regular(bars, Open), Days(bars), bars[i].day, |bars|, open);
    LastIs(Regular(bars, Close), Days(bars), SessionBefore(bars, bars[i].day, |bars|).value, |bars|, before);
  }

  lemma {:induction false} GapsHavePrices(bars: seq<Bar>, i: nat)
    requires MIN_BARS <= i < |bars| && IsRegular(bars[i]) && Moderate(RowAt(Precompute(bars), i).gap)
    ensures OpenedAfter(bars, bars[i].day, OpenOf(bars, bars[i].day), PriorClose(bars, bars[i].day))
  {
    hide Precompute, RowAt, Over, Regular, Percent;
    var d := bars[i].day;
    GapIs(bars, i);
    GapNeedsPriorClose(OpenOf(bars, d), PriorClose(bars, d));
    FirstIs(Regular(bars, Open), Days(bars), d, |bars|, OpenOf(bars, d));
    LastIs(Regular(bars, Close), Days(bars), SessionBefore(bars, d, |bars|).value, |bars|, PriorClose(bars, d));
  }

  lemma FadeIs(r: Row)
    ensures (Fade(r).Some? && Fade(r).value.action == BUY) <==>
      && Lt(Fin(0.0), r.volAvg) && Moderate(r.gap) && Lt(r.gap, Fin(0.0)) && CrossesUp(r) && Loud(r)
    ensures (Fade(r).Some? && Fade(r).value.action == SELL) <==>
      && Lt(Fin(0.0), r.volAvg) && Moderate(r.gap) && CrossesDown(r) && (Lt(r.gap, Fin(0.0)) || Loud(r))
  {
  }

  /** Before the flat time, a bar buys if and only if the day opened from half a per cent to five below the close of
      the session before, and the price now crosses the VWAP upwards on volume. It sells if and only if the gap is
      moderate and the price crosses downwards: on volume after a gap up, on any after a gap down. */
  lemma {:induction false} FadesExactly(bars: seq<Bar>, i: nat)
    requires i < |bars| && Trades(bars, i)
    ensures var signal := SignalAt(bars, i);
            && ((signal.Some? && signal.value.action == BUY) <==>
                && Lt(Fin(0.0), AverageVolume(bars, i)) && UpThroughVwap(bars, i) && OnVolume(bars, i)
                && exists open, before :: OpenedAfter(bars, bars[i].day, open, before)
                     && Moderate(Percent(open, before)) && Lt(Percent(open, before), Fin(0.0)))
            && ((signal.Some? && signal.value.action == SELL) <==>
                && Lt(Fin(0.0), AverageVolume(bars, i)) && DownThroughVwap(bars, i)
                && exists open, before :: OpenedAfter(bars, bars[i].day, open, before)
                     && Moderate(Percent(open, before)) && (Lt(Percent(open, before), Fin(0.0)) || OnVolume(bars, i)))
  {
    hide Precompute, RowAt, Fade, Percent, OpenOf, PriorClose, SignalAt, OpenedAfter, Moderate, AverageVolume, OnVolume;
    hide UpThroughVwap, DownThroughVwap, CrossesUp, CrossesDown, Loud;
    TradesOrNot(bars, i);
    FadeIs(RowAt(Precompute(bars), i));
    RowOfBars(bars, i);
    var d, gap := bars[i].day, RowAt(Precompute(bars), i).gap;
    if Moderate(gap) {
      GapsHavePrices(bars, i);
      GapIs(bars, i);
    }
    forall open, before | OpenedAfter(bars, d, open, before)
      ensures Percent(open, before) == gap
    {
      GapIsOf(bars, i, open, before);
    }
  }
}
