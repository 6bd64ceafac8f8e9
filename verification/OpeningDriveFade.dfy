/** Fading an extreme opening drive (strategies/opening_drive_fade.py). */
module OpeningDriveFade {
  import opened Common
  import opened Numbers
  import opened Columns
  import opened RegularHours

  const DRIVE_WINDOW_MIN := 30
  const ENTRY_WINDOW_END_MIN := 120
  const DRIVE_ATR_MULT := 1.5
  const RSI_PERIOD := 14
  const RSI_OVERSOLD := 30.0
  const VOL_EXHAUST_MULT := 0.75
  const VOL_WINDOW := 20
  const MAX_HOLD_BARS := 120
  const EOD_HOUR := 15
  const EOD_MINUTE := 45
  const MIN_BARS := 60
  const ATR_BARS := 5460
  const LEAST_ATR_BARS := 390
  const NEAR_LOW := 0.2

  datatype State =
    | Empty
    | State(close: seq<Num>, low: seq<Num>, vwap: seq<Num>, driveLow: seq<Num>, driveDown: seq<Num>, atr: seq<Num>,
            rsi: seq<Num>, vol: seq<Num>, volAvg: seq<Num>, entryWindow: seq<bool>)

  predicate Covers(s: State, n: nat) {
    s.Empty? ||
    (n == |s.close| == |s.low| == |s.vwap| == |s.driveLow| == |s.driveDown| == |s.atr| == |s.rsi| == |s.vol|
       == |s.volAvg| == |s.entryWindow|)
  }

  function DriveLows(bars: seq<Bar>): (r: seq<Num>)
    ensures |r| == |bars|
  {
    Where(Column(bars, Low), Session(bars, RTH_OPEN_MIN, RTH_OPEN_MIN + DRIVE_WINDOW_MIN))
  }

  /** The day's first open, given to every bar of the day. */
  function DayOpen(bars: seq<Bar>): (r: seq<Num>)
    ensures |r| == |bars|
  {
    Broadcast(Fill, NaN, Regular(bars, Open), Days(bars))
  }

  /** The low of the day's opening drive, given to every bar of the day. */
  function DriveLow(bars: seq<Bar>): (r: seq<Num>)
    ensures |r| == |bars|
  {
    Broadcast(FMin, NaN, DriveLows(bars), Days(bars))
  }

  function Gap(a: Num, b: Num): Num {
    Abs(Sub(a, b))
  }

  function TrueRange(bars: seq<Bar>): (r: seq<Num>)
    ensures |r| == |bars|
  {
    var highs, lows, before := Column(bars, High), Column(bars, Low), Shift(Column(bars, Close));
    Map2(FMax, Map2(FMax, Map2(Sub, highs, lows), Map2(Gap, highs, before)), Map2(Gap, lows, before))
  }

  function Atr(bars: seq<Bar>): (r: seq<Num>)
    ensures |r| == |bars|
  {
    RollingMean(TrueRange(bars), ATR_BARS, LEAST_ATR_BARS)
  }

  function Rise(a: Num): Num {
    if Lt(a, Fin(0.0)) then Fin(0.0) else a
  }

  function Fall(a: Num): Num {
    Neg(if Lt(Fin(0.0), a) then Fin(0.0) else a)
  }

  function Changes(bars: seq<Bar>): (r: seq<Num>)
    ensures |r| == |bars|
  {
    Map2(Sub, Column(bars, Close), Shift(Column(bars, Close)))
  }

  function Index(gain: Num, loss: Num): Num {
    Sub(Fin(100.0), Div(Fin(100.0), Add(Fin(1.0), Div(gain, ZeroToNaN(loss)))))
  }

  function Rsi(bars: seq<Bar>): (r: seq<Num>)
    ensures |r| == |bars|
  {
    Map2(Index, RollingMean(Map(Rise, Changes(bars)), RSI_PERIOD, RSI_PERIOD),
         RollingMean(Map(Fall, Changes(bars)), RSI_PERIOD, RSI_PERIOD))
  }

  function Precompute(bars: seq<Bar>): (s: State)
    ensures Covers(s, |bars|) && (s.Empty? <==> |bars| < MIN_BARS)
  {
    if |bars| < MIN_BARS then Empty
    else
      State(Column(bars, Close), Column(bars, Low), Vwap(bars), DriveLow(bars),
            Map2(Sub, DayOpen(bars), DriveLow(bars)), Atr(bars), Rsi(bars), Column(bars, Volume),
            RollingMean(Column(bars, Volume), VOL_WINDOW, VOL_WINDOW),
            Session(bars, RTH_OPEN_MIN + DRIVE_WINDOW_MIN, RTH_OPEN_MIN + ENTRY_WINDOW_END_MIN))
  }

  /** Everything a bar's signal depends on. */
  datatype Row = Row(
    close: Num, low: Num, vwap: Num, driveLow: Num, driveDown: Num, atr: Num, rsi: Num, vol: Num, volAvg: Num)

  predicate Buys(r: Row) {
    && !r.vwap.NaN? && !r.driveLow.NaN? && !r.driveDown.NaN? && !r.atr.NaN? && !r.rsi.NaN? && !r.volAvg.NaN?
    && !Le(r.volAvg, Fin(0.0)) && !Le(r.atr, Fin(0.0))
    && !Lt(r.driveDown, Mul(r.atr, Fin(DRIVE_ATR_MULT)))
    && !Le(r.vwap, r.close)
    && !Lt(Fin(RSI_OVERSOLD), r.rsi)
    && !Lt(Mul(r.volAvg, Fin(VOL_EXHAUST_MULT)), r.vol)
    && !Lt(Mul(Fin(NEAR_LOW), r.atr), Sub(r.low, r.driveLow))
  }

  function RowAt(s: State, i: nat): Row
    requires s.State? && i < |s.close| && Covers(s, |s.close|)
  {
    Row(s.close[i], s.low[i], s.vwap[i], s.driveLow[i], s.driveDown[i], s.atr[i], s.rsi[i], s.vol[i], s.volAvg[i])
  }

  function OnBar(s: State, n: nat, i: nat): Option<Signal>
    requires i < n && Covers(s, n)
  {
    if s.Empty? || i < MIN_BARS || !s.entryWindow[i] then None
    else if Buys(RowAt(s, i)) then Some(Signal(BUY, 0.62, 0.38, Some(EOD_HOUR * 60 + EOD_MINUTE), Some(MAX_HOLD_BARS)))
    else None
  }

  // ---------------------------------------------------- columns that look back

  lemma TrueRangeOfPrefix(bars: seq<Bar>, n: nat)
    requires n <= |bars|
    ensures TrueRange(bars[..n]) == TrueRange(bars)[..n]
  {
    var few := bars[..n];
    forall i | 0 <= i < n
      ensures TrueRange(few)[i] == TrueRange(bars)[i]
    {
      assert Shift(Column(few, Close))[i] == Shift(Column(bars, Close))[i];
    }
  }

  lemma AtrOfPrefix(bars: seq<Bar>, n: nat)
    requires n <= |bars|
    ensures Atr(bars[..n]) == Atr(bars)[..n]
  {
    TrueRangeOfPrefix(bars, n);
    RollingMeanOfPrefix(TrueRange(bars), ATR_BARS, LEAST_ATR_BARS, n);
  }

  lemma ChangesOfPrefix(bars: seq<Bar>, n: nat)
    requires n <= |bars|
    ensures Changes(bars[..n]) == Changes(bars)[..n]
  {
    var few := bars[..n];
    forall i | 0 <= i < n
      ensures Changes(few)[i] == Changes(bars)[i]
    {
      assert Shift(Column(few, Close))[i] == Shift(Column(bars, Close))[i];
    }
  }

  lemma RsiOfPrefix(bars: seq<Bar>, n: nat)
    requires n <= |bars|
    ensures Rsi(bars[..n]) == Rsi(bars)[..n]
  {
    ChangesOfPrefix(bars, n);
    var rises, falls := Map(Rise, Changes(bars)), Map(Fall, Changes(bars));
    MapOfPrefix(Rise, Changes(bars), n);
    MapOfPrefix(Fall, Changes(bars), n);
    RollingMeanOfPrefix(rises, RSI_PERIOD, RSI_PERIOD, n);
    RollingMeanOfPrefix(falls, RSI_PERIOD, RSI_PERIOD, n);
    Map2OfPrefix(Index, RollingMean(rises, RSI_PERIOD, RSI_PERIOD), RollingMean(falls, RSI_PERIOD, RSI_PERIOD), n);
  }

  // ------------------------------------------------- columns of the whole day

  predicate MayEnter(b: Bar) {
    RTH_OPEN_MIN + DRIVE_WINDOW_MIN <= b.minute < RTH_OPEN_MIN + ENTRY_WINDOW_END_MIN
  }

  /** Once a bar may enter, the drive of its day is over. */
  lemma DriveLowIsSettled(bars: seq<Bar>, i: nat)
    requires i < |bars| && InTimeOrder(bars) && MayEnter(bars[i])
    ensures DriveLow(bars[..i + 1])[i] == DriveLow(bars)[i]
  {
    var n, days := i + 1, Days(bars);
    OverAgrees(FMin, NaN, DriveLows(bars[..n]), DriveLows(bars), Days(bars[..n]), days, days[i], n);
    OverIgnores(FMin, NaN, DriveLows(bars), days, days[i], n, |bars|);
  }

  /** It is the lowest low of the day's drive window, and some bar has it. */
  lemma DriveLowIsTheLow(bars: seq<Bar>, i: nat)
    requires i < |bars|
    ensures forall j :: 0 <= j < |bars| && InDrive(bars[j], bars[i].day) && !bars[j].low.NaN? ==>
      Le(DriveLow(bars)[i], bars[j].low)
    ensures !DriveLow(bars)[i].NaN? ==>
      exists j :: 0 <= j < |bars| && InDrive(bars[j], bars[i].day) && bars[j].low == DriveLow(bars)[i]
  {
    var days, lows := Days(bars), DriveLows(bars);
    LowestOverDay(lows, days, bars[i].day, |bars|);
    forall j | 0 <= j < |bars|
      ensures In(lows, days, bars[i].day, j) <==> InDrive(bars[j], bars[i].day) && !bars[j].low.NaN?
      ensures In(lows, days, bars[i].day, j) ==> lows[j] == bars[j].low
    {
      WhereAt(bars, Low, RTH_OPEN_MIN, RTH_OPEN_MIN + DRIVE_WINDOW_MIN, j);
    }
    if !DriveLow(bars)[i].NaN? {
      var j :| 0 <= j < |bars| && In(lows, days, bars[i].day, j) && lows[j] == DriveLow(bars)[i];
      assert InDrive(bars[j], bars[i].day);
    }
  }

  predicate InDrive(b: Bar, day: int) {
    b.day == day && RTH_OPEN_MIN <= b.minute < RTH_OPEN_MIN + DRIVE_WINDOW_MIN
  }

  lemma DayOpenIsSettled(bars: seq<Bar>, i: nat)
    requires i < |bars| && HasOpen(bars, i)
    ensures DayOpen(bars[..i + 1])[i] == DayOpen(bars)[i]
  {
    OpenIsSettled(bars, i);
  }

  /** The rows of bar `i` with and without the bars after it, but for the size of the drive. */
  lemma RowIsSettled(bars: seq<Bar>, i: nat)
    requires MIN_BARS <= i < |bars| && InTimeOrder(bars) && MayEnter(bars[i])
    ensures var s, t := Precompute(bars), Precompute(bars[..i + 1]);
            RowAt(s, i) == RowAt(t, i).(driveDown := s.driveDown[i])
    ensures DriveLow(bars[..i + 1])[i] == DriveLow(bars)[i]
  {
    DriveLowIsSettled(bars, i);
    LookingBack(bars, i);
  }

  lemma RowIs(bars: seq<Bar>, i: nat)
    requires MIN_BARS <= i < |bars|
    ensures var r := RowAt(Precompute(bars), i);
            && r.close == Column(bars, Close)[i] && r.low == Column(bars, Low)[i] && r.vwap == Vwap(bars)[i]
            && r.driveLow == DriveLow(bars)[i] && r.atr == Atr(bars)[i] && r.rsi == Rsi(bars)[i]
            && r.vol == Column(bars, Volume)[i]
            && r.volAvg == RollingMean(Column(bars, Volume), VOL_WINDOW, VOL_WINDOW)[i]
  {
  }

  lemma LookingBack(bars: seq<Bar>, i: nat)
    requires MIN_BARS <= i < |bars| && DriveLow(bars[..i + 1])[i] == DriveLow(bars)[i]
    ensures var s, t := Precompute(bars), Precompute(bars[..i + 1]);
            RowAt(s, i) == RowAt(t, i).(driveDown := s.driveDown[i])
  {
    hide Vwap, Rsi, Atr, DriveLow, DayOpen, RollingMean;
    VwapOfPrefix(bars, i + 1);
    AtrOfPrefix(bars, i + 1);
    RsiOfPrefix(bars, i + 1);
    VolumesOfPrefix(bars, i + 1, VOL_WINDOW);
  }

  // -------------------------------------------------------------- the signal

  function SignalAt(bars: seq<Bar>, i: nat): Option<Signal>
    requires i < |bars|
  {
    OnBar(Precompute(bars), |bars|, i)
  }

  predicate Enters(bars: seq<Bar>, i: nat)
    requires i < |bars|
  {
    MIN_BARS <= i && MayEnter(bars[i])
  }

  lemma EntersOrNothing(bars: seq<Bar>, i: nat)
    requires i < |bars|
    ensures SignalAt(bars, i).Some? <==> Enters(bars, i) && Buys(RowAt(Precompute(bars), i))
    ensures SignalAt(bars, i).Some? ==>
      SignalAt(bars, i).value == Signal(BUY, 0.62, 0.38, Some(EOD_HOUR * 60 + EOD_MINUTE), Some(MAX_HOLD_BARS))
  {
  }

  /** A bar that has seen its day's open signals the same with and without the bars after it. */
  lemma SignalIsCausal(bars: seq<Bar>, i: nat)
    requires i < |bars| && InTimeOrder(bars) && HasOpen(bars, i)
    ensures SignalAt(bars, i) == SignalAt(bars[..i + 1], i)
  {
    if Enters(bars, i) {
      RowIsSettled(bars, i);
      DayOpenIsSettled(bars, i);
      DriveDownIs(bars, i);
      DriveDownIs(bars[..i + 1], i);
      assert RowAt(Precompute(bars), i) == RowAt(Precompute(bars[..i + 1]), i);
    }
    EntersOrNothing(bars, i);
    EntersOrNothing(bars[..i + 1], i);
  }

  // -------------------------------------- exactly when the rest of the day matters

  /** The bar would be bought, had the drive been large enough. */
  predicate Poised(bars: seq<Bar>, i: nat)
    requires i < |bars|
  {
    Enters(bars, i) && Buys(RowAt(Precompute(bars), i).(driveDown := PosInf)) && DriveLow(bars)[i] != PosInf
  }

  /** No later bar of any continuation changes what the last bar of these signals. */
  ghost predicate Causal(few: seq<Bar>)
    requires few != []
  {
    forall bars | InTimeOrder(bars) && few <= bars :: SignalAt(bars, |few| - 1) == SignalAt(few, |few| - 1)
  }

  lemma AtrIsFinite(bars: seq<Bar>, i: nat)
    requires i < |bars| && !Atr(bars)[i].NaN?
    ensures Atr(bars)[i].Fin?
  {
  }

  lemma BuyingNeedsALow(r: Row)
    requires Buys(r)
    ensures !r.atr.NaN?
    ensures r.atr.Fin? ==> Buys(r.(driveDown := PosInf)) && r.driveDown != NegInf
  {
  }

  lemma DayOpenIs(bars: seq<Bar>, i: nat)
    requires i < |bars|
    ensures DayOpen(bars)[i] == OpenOf(bars, bars[i].day)
  {
  }

  /** A drive down from any open, to a low of plus infinity, is no drive at all. */
  lemma NoDrive(open: Num, low: Num)
    requires low == PosInf || open.NaN?
    ensures Sub(open, low) == NegInf || Sub(open, low).NaN?
  {
  }

  lemma DriveDownIs(bars: seq<Bar>, i: nat)
    requires MIN_BARS <= i < |bars|
    ensures Precompute(bars).driveDown[i] == Sub(DayOpen(bars)[i], DriveLow(bars)[i])
    ensures Precompute(bars).driveLow[i] == DriveLow(bars)[i] && Precompute(bars).atr[i] == Atr(bars)[i]
  {
  }

  lemma {:induction false} BuyersArePoised(bars: seq<Bar>, i: nat)
    requires i < |bars| && SignalAt(bars, i).Some?
    ensures Poised(bars, i) && !DayOpen(bars)[i].NaN?
  {
    EntersOrNothing(bars, i);
    DriveDownIs(bars, i);
    AtrIsFinite(bars, i);
    BuyingNeedsALow(RowAt(Precompute(bars), i));
    if DriveLow(bars)[i] == PosInf || DayOpen(bars)[i].NaN? {
      NoDrive(DayOpen(bars)[i], DriveLow(bars)[i]);
    }
  }

  lemma PoiseIsSettled(bars: seq<Bar>, i: nat)
    requires i < |bars| && InTimeOrder(bars)
    ensures Poised(bars, i) <==> Poised(bars[..i + 1], i)
  {
    if Enters(bars, i) {
      RowIsSettled(bars, i);
    }
  }

  /** A continuation that gives the day its open, high enough to make the drive large. */
  function Reopening(few: seq<Bar>): Bar
    requires few != []
  {
    var n := |few| - 1;
    var low, atr := DriveLow(few)[n], Atr(few)[n];
    var open := if low.Fin? && atr.Fin? then low.x + atr.x * DRIVE_ATR_MULT else 0.0;
    Bar(few[n].day, few[n].minute, Fin(open), NaN, NaN, NaN, NaN)
  }

  lemma LargeDrive(r: Row, open: real)
    requires Buys(r.(driveDown := PosInf)) && r.atr.Fin? && r.driveLow != PosInf
    requires r.driveLow.Fin? ==> open == r.driveLow.x + r.atr.x * DRIVE_ATR_MULT
    ensures Buys(r.(driveDown := Sub(Fin(open), r.driveLow)))
  {
  }

  lemma ReopeningBuys(few: seq<Bar>)
    requires few != [] && InTimeOrder(few) && !HasOpen(few, |few| - 1) && Poised(few, |few| - 1)
    ensures SignalAt(few + [Reopening(few)], |few| - 1).Some?
  {
    hide Precompute, Atr, DriveLow, DayOpen, OnBar, Buys, SignalAt, InTimeOrder, HasOpen, OpenOf;
    var i, b := |few| - 1, Reopening(few);
    var bars := few + [b];
    SameTimeKeepsOrder(few, b);
    assert bars[..i + 1] == few;
    RowIsSettled(bars, i);
    OpenAtLast(few, b);
    DriveDownIs(bars, i);
    DriveDownIs(few, i);
    DayOpenIs(bars, i);
    BuyingNeedsALow(RowAt(Precompute(few), i).(driveDown := PosInf));
    AtrIsFinite(few, i);
    LargeDrive(RowAt(Precompute(few), i), b.open.x);
    EntersOrNothing(bars, i);
  }

  /** What the last bar signals can be changed by later bars exactly when its day has no open yet and everything
      but the size of the drive already asks to buy. */
  lemma {:induction false} CausalExactlyWhen(few: seq<Bar>)
    requires few != [] && InTimeOrder(few)
    ensures Causal(few) <==> HasOpen(few, |few| - 1) || !Poised(few, |few| - 1)
  {
    hide SignalAt, Poised, HasOpen, InTimeOrder;
    var i := |few| - 1;
    if HasOpen(few, i) || !Poised(few, i) {
      forall bars | InTimeOrder(bars) && few <= bars
        ensures SignalAt(bars, i) == SignalAt(few, i)
      {
        assert bars[..i + 1] == few;
        Continues(bars, i);
      }
    } else {
      SameTimeKeepsOrder(few, Reopening(few));
      ReopeningBuys(few);
      NoOpenYet(few);
      if SignalAt(few, i).Some? {
        BuyersArePoised(few, i);
      }
      assert few <= few + [Reopening(few)];
    }
  }

  lemma Continues(bars: seq<Bar>, i: nat)
    requires i < |bars| && InTimeOrder(bars)
    requires HasOpen(bars[..i + 1], i) || !Poised(bars[..i + 1], i)
    ensures SignalAt(bars, i) == SignalAt(bars[..i + 1], i)
  {
    if HasOpen(bars[..i + 1], i) {
      OpensStay(bars, i);
      SignalIsCausal(bars, i);
    } else {
      PoiseIsSettled(bars, i);
      if SignalAt(bars, i).Some? {
        BuyersArePoised(bars, i);
      }
      if SignalAt(bars[..i + 1], i).Some? {
        BuyersArePoised(bars[..i + 1], i);
      }
    }
  }

  /** Bars that all have an open signal the same with and without the bars after them. */
  lemma BarsWithOpensAreCausal(bars: seq<Bar>, i: nat)
    requires i < |bars| && InTimeOrder(bars) && !bars[i].open.NaN?
    ensures SignalAt(bars, i) == SignalAt(bars[..i + 1], i)
  {
    if Enters(bars, i) {
      OwnOpen(bars, i);
      SignalIsCausal(bars, i);
    }
  }

  // ----------------------------------------------------- a history that is not causal

  const FULL_DAY := 390

  /** A day of falling prices, then two bars without an open: one in the drive window, one after it. */
  function FallingBar(k: nat): Bar {
    var p := 1000.0 - k as real;
    var today := k >= FULL_DAY;
    Bar(if today then 1 else 0, if !today then RTH_OPEN_MIN + k else if k == FULL_DAY then RTH_OPEN_MIN else 600,
        if today then NaN else Fin(p), Fin(p + 1.0), Fin(p), Fin(p), if k > FULL_DAY then Fin(0.0) else Fin(1.0))
  }

  function FallingBars(): (r: seq<Bar>)
    ensures |r| == FULL_DAY + 2 && forall k :: 0 <= k < |r| ==> r[k] == FallingBar(k)
  {
    seq(FULL_DAY + 2, k requires 0 <= k => FallingBar(k))
  }

  lemma FallingColumnsAt(k: nat)
    requires k < FULL_DAY + 2
    ensures var bars := FallingBars();
            && Column(bars, Close)[k] == FallingBar(k).close && Column(bars, High)[k] == FallingBar(k).high
            && Column(bars, Low)[k] == FallingBar(k).low && Column(bars, Volume)[k] == FallingBar(k).volume
            && Shift(Column(bars, Close))[k] == if k == 0 then NaN else FallingBar(k - 1).close
  {
    var bars := FallingBars();
    assert Column(bars, Close)[k] == Close(bars[k]) && Column(bars, High)[k] == High(bars[k]);
    assert Column(bars, Low)[k] == Low(bars[k]) && Column(bars, Volume)[k] == Volume(bars[k]);
    assert k > 0 ==> Shift(Column(bars, Close))[k] == Close(bars[k - 1]);
  }

  lemma TrueRangeAt(bars: seq<Bar>, k: nat)
    requires k < |bars|
    ensures var high, low, before := Column(bars, High)[k], Column(bars, Low)[k], Shift(Column(bars, Close))[k];
            TrueRange(bars)[k] == FMax(FMax(Sub(high, low), Gap(high, before)), Gap(low, before))
  {
    var highs, lows, before := Column(bars, High), Column(bars, Low), Shift(Column(bars, Close));
    var own, up, down := Map2(Sub, highs, lows), Map2(Gap, highs, before), Map2(Gap, lows, before);
    assert own[k] == Sub(highs[k], lows[k]) && up[k] == Gap(highs[k], before[k]) && down[k] == Gap(lows[k], before[k]);
    assert Map2(FMax, own, up)[k] == FMax(own[k], up[k]);
  }

  lemma FallingAtr()
    ensures Atr(FallingBars())[FULL_DAY + 1] == Fin(1.0)
  {
    var bars := FallingBars();
    forall k | 0 <= k < |bars|
      ensures TrueRange(bars)[k] == Fin(1.0)
    {
      FallingColumnsAt(k);
      TrueRangeAt(bars, k);
    }
    MeanOfConstant(TrueRange(bars), 0, |bars|, LEAST_ATR_BARS, 1.0);
  }

  lemma FallingRsi()
    ensures Rsi(FallingBars())[FULL_DAY + 1] == Fin(0.0)
  {
    var bars, n := FallingBars(), FULL_DAY + 2;
    var rises, falls := Map(Rise, Changes(bars)), Map(Fall, Changes(bars));
    forall k | 0 < k < n
      ensures rises[k] == Fin(0.0) && falls[k] == Fin(1.0)
    {
      FallingColumnsAt(k);
      assert Changes(bars)[k] == Sub(Column(bars, Close)[k], Shift(Column(bars, Close))[k]) == Fin(-1.0);
      assert rises[k] == Rise(Changes(bars)[k]) && falls[k] == Fall(Changes(bars)[k]);
    }
    MeanOfConstant(rises, n - RSI_PERIOD, n, RSI_PERIOD, 0.0);
    MeanOfConstant(falls, n - RSI_PERIOD, n, RSI_PERIOD, 1.0);
    assert RollingMean(rises, RSI_PERIOD, RSI_PERIOD)[n - 1] == Fin(0.0);
    assert RollingMean(falls, RSI_PERIOD, RSI_PERIOD)[n - 1] == Fin(1.0);
    assert Rsi(bars)[n - 1] == Index(Fin(0.0), Fin(1.0));
    assert 100.0 / 1.0 == 100.0;
  }

  lemma FallingVolumes()
    ensures RollingMean(Column(FallingBars(), Volume), VOL_WINDOW, VOL_WINDOW)[FULL_DAY + 1] == Fin(0.95)
  {
    var volumes, n := Column(FallingBars(), Volume), FULL_DAY + 2;
    forall k | 0 <= k < n
      ensures volumes[k] == if k > FULL_DAY then Fin(0.0) else Fin(1.0)
    {
      FallingColumnsAt(k);
    }
    SumOfConstant(volumes, n - VOL_WINDOW, n - 1, 1.0);
    assert volumes[n - 1] == Fin(0.0);
  }

  lemma FallingTurnover()
    ensures var volumes := Column(FallingBars(), Volume);
            volumes[FULL_DAY] == Fin(1.0) && volumes[FULL_DAY + 1] == Fin(0.0)
    ensures var pv := Map2(Mul, Column(FallingBars(), Close), Column(FallingBars(), Volume));
            pv[FULL_DAY] == Fin(610.0) && pv[FULL_DAY + 1] == Fin(0.0)
  {
    FallingColumnsAt(FULL_DAY);
    FallingColumnsAt(FULL_DAY + 1);
    Product(610.0, 1.0, 610.0);
    Product(609.0, 0.0, 0.0);
  }

  lemma {:induction false} TodaysTotal(a: seq<Num>, x: real)
    requires |a| == FULL_DAY + 2 && a[FULL_DAY] == Fin(x) && a[FULL_DAY + 1] == Fin(0.0)
    ensures Over(Add, Fin(0.0), a, Days(FallingBars()), 1, FULL_DAY + 2) == Fin(x)
  {
    var days := Days(FallingBars());
    OverIgnores(Add, Fin(0.0), a, days, 1, 0, FULL_DAY);
    assert Over(Add, Fin(0.0), a, days, 1, FULL_DAY + 1) == Fin(x);
  }

  lemma FallingVwap()
    ensures Vwap(FallingBars())[FULL_DAY + 1] == Fin(610.0)
  {
    var bars := FallingBars();
    FallingTurnover();
    TodaysTotal(Map2(Mul, Column(bars, Close), Column(bars, Volume)), 610.0);
    TodaysTotal(Column(bars, Volume), 1.0);
    VwapIs(FallingBars(), FULL_DAY + 1, Fin(610.0), Fin(1.0));
    Quotient(610.0, 1.0, 610.0);
  }

  lemma FallingDriveLow()
    ensures DriveLow(FallingBars())[FULL_DAY + 1] == Fin(610.0)
  {
    var bars, n := FallingBars(), FULL_DAY + 2;
    var lows := DriveLows(bars);
    WhereAt(bars, Low, RTH_OPEN_MIN, RTH_OPEN_MIN + DRIVE_WINDOW_MIN, n - 2);
    WhereAt(bars, Low, RTH_OPEN_MIN, RTH_OPEN_MIN + DRIVE_WINDOW_MIN, n - 1);
    OverIgnores(FMin, NaN, lows, Days(bars), 1, 0, FULL_DAY);
    assert Over(FMin, NaN, lows, Days(bars), 1, n - 1) == Fin(610.0);
  }

  lemma FallingBarsAreOrdered()
    ensures InTimeOrder(FallingBars()) && Enters(FallingBars(), FULL_DAY + 1) && !HasOpen(FallingBars(), FULL_DAY + 1)
  {
    var bars := FallingBars();
    forall j | 0 <= j < |bars|
      ensures !In(Regular(bars, Open), Days(bars), 1, j)
    {
      RegularAt(bars, Open, j);
    }
  }

  /** Bars without an open can make the backtest see a drive that the live strategy could not. */
  lemma FallingBarsLookAhead()
    ensures InTimeOrder(FallingBars()) && !Causal(FallingBars())
  {
    FallingBarsAreOrdered();
    FallingBarsArePoised();
    CausalExactlyWhen(FallingBars());
  }

  lemma FallingBarsArePoised()
    ensures Poised(FallingBars(), FULL_DAY + 1)
  {
    hide Mul, Precompute, RowAt, Vwap, RollingMean, Atr, Rsi, DriveLow;
    var bars, i := FallingBars(), FULL_DAY + 1;
    FallingColumnsAt(i);
    FallingAtr();
    FallingRsi();
    FallingVolumes();
    FallingVwap();
    FallingDriveLow();
    RowIs(bars, i);
    FallingBarsAreOrdered();
    Product(0.95, 0.75, 0.7125);
    Product(1.0, 1.5, 1.5);
    Product(0.2, 1.0, 0.2);
  }

  // ---------------------------------------------------------- what a signal means

  /** After the opening drive and before 11:30, below the VWAP, oversold and on fading volume, near the low of a drive
      that was large against the average true range. */
  ghost predicate Fades(bars: seq<Bar>, i: nat, open: Num, low: Num)
    requires i < |bars|
  {
    && Enters(bars, i)
    && IsFirst(Regular(bars, Open), Days(bars), bars[i].day, |bars|, open)
    && IsLowest(DriveLows(bars), Days(bars), bars[i].day, |bars|, low)
    && DroveFar(Sub(open, low), Atr(bars)[i]) && IsNear(bars[i].low, low, Atr(bars)[i])
    && Lt(bars[i].close, Vwap(bars)[i])
    && !Rsi(bars)[i].NaN? && Le(Rsi(bars)[i], Fin(RSI_OVERSOLD))
    && Fading(RollingMean(Column(bars, Volume), VOL_WINDOW, VOL_WINDOW)[i], bars[i].volume)
  }

  predicate DroveFar(drive: Num, atr: Num) {
    !drive.NaN? && Lt(Fin(0.0), atr) && Le(Mul(atr, Fin(DRIVE_ATR_MULT)), drive)
  }

  predicate IsNear(price: Num, low: Num, atr: Num) {
    !Lt(Mul(Fin(NEAR_LOW), atr), Sub(price, low))
  }

  predicate Fading(average: Num, volume: Num) {
    Lt(Fin(0.0), average) && !Lt(Mul(average, Fin(VOL_EXHAUST_MULT)), volume)
  }

  lemma FadesAre(r: Row)
    requires r.close.NaN? ==> r.vwap.NaN?
    ensures Buys(r) <==>
      && !r.driveLow.NaN? && DroveFar(r.driveDown, r.atr) && IsNear(r.low, r.driveLow, r.atr)
      && Lt(r.close, r.vwap)
      && !r.rsi.NaN? && Le(r.rsi, Fin(RSI_OVERSOLD)) && Fading(r.volAvg, r.vol)
  {
    hide Sub;
  }

  /** A bar buys if and only if it is such a fade. */
  lemma {:induction false} BuysExactlyOnFades(bars: seq<Bar>, i: nat)
    requires i < |bars|
    ensures SignalAt(bars, i).Some? <==> exists open, low :: Fades(bars, i, open, low)
  {
    hide Precompute, SignalAt, Vwap, RollingMean, Over, Regular, Column, Days, Atr, Rsi, DriveLows, IsFirst, IsLowest;
    hide Buys, DroveFar, IsNear, Fading;
    EntersOrNothing(bars, i);
    if Enters(bars, i) {
      RowIs(bars, i);
      DriveDownIs(bars, i);
      assert Column(bars, Close)[i] == bars[i].close && Column(bars, Low)[i] == bars[i].low
             && Column(bars, Volume)[i] == bars[i].volume by { BarAt(bars, i); }
      if bars[i].close.NaN? {
        VwapNeedsClose(bars, i);
      }
      FadesAre(RowAt(Precompute(bars), i));
      var d := bars[i].day;
      var first, lowest := Over(Fill, NaN, Regular(bars, Open), Days(bars), d, |bars|),
                           Over(FMin, NaN, DriveLows(bars), Days(bars), d, |bars|);
      assert DayOpen(bars)[i] == first && DriveLow(bars)[i] == lowest by { DaysAre(bars, i); }
      FirstIs(Regular(bars, Open), Days(bars), d, |bars|, first);
      LowestIs(DriveLows(bars), Days(bars), d, |bars|, lowest);
      if SignalAt(bars, i).Some? {
        BuyersArePoised(bars, i);
        assert Fades(bars, i, first, lowest);
      }
      forall open, low | Fades(bars, i, open, low)
        ensures SignalAt(bars, i).Some?
      {
        FirstIs(Regular(bars, Open), Days(bars), d, |bars|, open);
        LowestIs(DriveLows(bars), Days(bars), d, |bars|, low);
      }
    }
  }

  lemma BarAt(bars: seq<Bar>, i: nat)
    requires i < |bars|
    ensures Column(bars, Close)[i] == bars[i].close && Column(bars, Low)[i] == bars[i].low
    ensures Column(bars, Volume)[i] == bars[i].volume
  {
    assert Column(bars, Close)[i] == Close(bars[i]) && Column(bars, Low)[i] == Low(bars[i]);
    assert Column(bars, Volume)[i] == Volume(bars[i]);
  }

  lemma DaysAre(bars: seq<Bar>, i: nat)
    requires i < |bars|
    ensures DayOpen(bars)[i] == Over(Fill, NaN, Regular(bars, Open), Days(bars), bars[i].day, |bars|)
    ensures DriveLow(bars)[i] == Over(FMin, NaN, DriveLows(bars), Days(bars), bars[i].day, |bars|)
  {
    hide Over, Regular, DriveLows;
  }
}
