/** Opening-range breakout (strategies/opening_range_breakout.py). */
module OpeningRangeBreakout {
  import opened Common
  import opened Numbers
  import opened Columns

  const VOLUME_MULT := 1.5
  const VOL_WINDOW := 20
  const MIN_BARS := 40

  /** Per-deployment settings; minutes are counted on the clock of the configured session. */
  datatype Config = Config(
    rthOpen: int, rthClose: int, rangeMinutes: int, eodFlatten: bool, eodFlattenBefore: int, maxHoldBars: int)

  const US := Config(570, 960, 30, false, 15, 0)

  predicate InWindow(c: Config, b: Bar) {
    c.rthOpen <= b.minute < c.rthOpen + c.rangeMinutes
  }

  predicate AfterWindow(c: Config, b: Bar) {
    !InWindow(c, b) && c.rthOpen + c.rangeMinutes <= b.minute
  }

  /** The highest high of day `d`'s window among the first `n` bars; a high without a value does not count. */
  function WindowHigh(c: Config, bars: seq<Bar>, d: int, n: nat): (r: Num)
    requires n <= |bars|
    ensures !r.NaN?
  {
    if n == 0 then NegInf
    else
      var h, b := WindowHigh(c, bars, d, n - 1), bars[n - 1];
      if b.day == d && InWindow(c, b) && Lt(h, b.high) then b.high else h
  }

  function WindowLow(c: Config, bars: seq<Bar>, d: int, n: nat): (r: Num)
    requires n <= |bars|
    ensures !r.NaN?
  {
    if n == 0 then PosInf
    else
      var l, b := WindowLow(c, bars, d, n - 1), bars[n - 1];
      if b.day == d && InWindow(c, b) && Lt(b.low, l) then b.low else l
  }

  /** The range published at bar `i`: none while the window is open, or if it had no high. */
  function RangeHigh(c: Config, bars: seq<Bar>, i: nat): Num
    requires i < |bars|
  {
    if AfterWindow(c, bars[i]) && WindowHigh(c, bars, bars[i].day, i) != NegInf
    then WindowHigh(c, bars, bars[i].day, i)
    else NaN
  }

  function RangeLow(c: Config, bars: seq<Bar>, i: nat): Num
    requires i < |bars|
  {
    if AfterWindow(c, bars[i]) && WindowHigh(c, bars, bars[i].day, i) != NegInf
    then WindowLow(c, bars, bars[i].day, i)
    else NaN
  }

  /** Days in order, and no window that opens again once it has closed. */
  predicate WindowsClose(c: Config, bars: seq<Bar>) {
    forall i, j :: 0 <= i < j < |bars| ==>
      && bars[i].day <= bars[j].day
      && (bars[i].day == bars[j].day && AfterWindow(c, bars[i]) ==> !InWindow(c, bars[j]))
  }

  lemma TimeOrderClosesWindows(c: Config, bars: seq<Bar>)
    requires InTimeOrder(bars) && MORNING <= c.rthOpen + c.rangeMinutes
    ensures WindowsClose(c, bars)
  {
  }

  // ------------------------------------------------------------- the single pass

  /** Where the bars of one day that end with bar `i` begin. */
  function RunStart(bars: seq<Bar>, i: nat): (a: nat)
    requires i < |bars|
    ensures a <= i && (forall j :: a <= j <= i ==> bars[j].day == bars[i].day)
    ensures a == 0 || bars[a - 1].day != bars[i].day
  {
    if i == 0 || bars[i - 1].day != bars[i].day then i else RunStart(bars, i - 1)
  }

  /** The highest high of the window bars from `a` up to `n`, whatever their day. */
  function RunHigh(c: Config, bars: seq<Bar>, a: nat, n: nat): (r: Num)
    requires a <= n <= |bars|
    ensures !r.NaN?
  {
    if n == a then NegInf
    else
      var h, b := RunHigh(c, bars, a, n - 1), bars[n - 1];
      if InWindow(c, b) && Lt(h, b.high) then b.high else h
  }

  function RunLow(c: Config, bars: seq<Bar>, a: nat, n: nat): (r: Num)
    requires a <= n <= |bars|
    ensures !r.NaN?
  {
    if n == a then PosInf
    else
      var l, b := RunLow(c, bars, a, n - 1), bars[n - 1];
      if InWindow(c, b) && Lt(b.low, l) then b.low else l
  }

  /** The bar at which the range is frozen: the first after the window by which there was a high. */
  function FrozenAt(c: Config, bars: seq<Bar>, a: nat, i: nat): (k: Option<nat>)
    requires a <= i < |bars|
    ensures k.Some? ==> a <= k.value <= i && AfterWindow(c, bars[k.value]) && RunHigh(c, bars, a, k.value) != NegInf
    ensures k.None? && AfterWindow(c, bars[i]) ==> RunHigh(c, bars, a, i) == NegInf
    decreases i - a
  {
    var before := if i == a then None else FrozenAt(c, bars, a, i - 1);
    if before.None? && AfterWindow(c, bars[i]) && RunHigh(c, bars, a, i) != NegInf then Some(i) else before
  }

  /** What the pass publishes at bar `i`, of any history: a window that reopens changes nothing any more. */
  function PublishedHigh(c: Config, bars: seq<Bar>, i: nat): Num
    requires i < |bars|
  {
    var a := RunStart(bars, i);
    var k := FrozenAt(c, bars, a, i);
    if AfterWindow(c, bars[i]) && k.Some? then RunHigh(c, bars, a, k.value) else NaN
  }

  function PublishedLow(c: Config, bars: seq<Bar>, i: nat): Num
    requires i < |bars|
  {
    var a := RunStart(bars, i);
    var k := FrozenAt(c, bars, a, i);
    if AfterWindow(c, bars[i]) && k.Some? then RunLow(c, bars, a, k.value) else NaN
  }

  lemma {:induction false} NoWindowBar(c: Config, bars: seq<Bar>, d: int, n: nat, m: nat)
    requires n <= m <= |bars| && forall j :: n <= j < m ==> bars[j].day != d || !InWindow(c, bars[j])
    ensures WindowHigh(c, bars, d, m) == WindowHigh(c, bars, d, n)
    ensures WindowLow(c, bars, d, m) == WindowLow(c, bars, d, n)
  {
    if n < m {
      NoWindowBar(c, bars, d, n, m - 1);
    }
  }

  /** What the loop keeps: the running range of the current day, and the range it froze when the window closed. */
  ghost predicate Tracks(c: Config, bars: seq<Bar>, i: nat, currentDay: Option<int>,
                         runningHi: Num, runningLo: Num, lockedHi: Num, lockedLo: Num)
    requires i <= |bars|
  {
    match currentDay
    case None => i == 0
    case Some(d) =>
      && i > 0 && bars[i - 1].day == d
      && var a := RunStart(bars, i - 1);
         var k := FrozenAt(c, bars, a, i - 1);
         && runningHi == RunHigh(c, bars, a, i) && runningLo == RunLow(c, bars, a, i)
         && lockedHi == (if k.Some? then RunHigh(c, bars, a, k.value) else NaN)
         && lockedLo == (if k.Some? then RunLow(c, bars, a, k.value) else NaN)
  }

  /** How one more bar changes what the loop keeps. */
  lemma OneMoreBar(c: Config, bars: seq<Bar>, i: nat)
    requires i < |bars|
    ensures var a, b := RunStart(bars, i), bars[i];
            && RunHigh(c, bars, a, i + 1) ==
                 (if InWindow(c, b) && Lt(RunHigh(c, bars, a, i), b.high) then b.high else RunHigh(c, bars, a, i))
            && RunLow(c, bars, a, i + 1) ==
                 (if InWindow(c, b) && Lt(b.low, RunLow(c, bars, a, i)) then b.low else RunLow(c, bars, a, i))
            && (if i > 0 && bars[i - 1].day == b.day then
                  && a == RunStart(bars, i - 1)
                  && var k := FrozenAt(c, bars, a, i - 1);
                     FrozenAt(c, bars, a, i) ==
                       if k.None? && AfterWindow(c, b) && RunHigh(c, bars, a, i) != NegInf then Some(i) else k
                else
                  && a == i && RunHigh(c, bars, a, i) == NegInf && RunLow(c, bars, a, i) == PosInf
                  && FrozenAt(c, bars, a, i) == None)
  {
  }

  method OpeningRanges(c: Config, bars: seq<Bar>) returns (orbHigh: array<Num>, orbLow: array<Num>)
    ensures fresh(orbHigh) && fresh(orbLow) && orbHigh.Length == |bars| && orbLow.Length == |bars|
    ensures forall i :: 0 <= i < |bars| ==>
              orbHigh[i] == PublishedHigh(c, bars, i) && orbLow[i] == PublishedLow(c, bars, i)
  {
    hide RunStart, RunHigh, RunLow, FrozenAt, Lt;
    orbHigh := new Num[|bars|](_ => NaN);
    orbLow := new Num[|bars|](_ => NaN);
    var currentDay: Option<int> := None;
    var runningHi, runningLo, lockedHi, lockedLo := NegInf, PosInf, NaN, NaN;
    for i := 0 to |bars|
      invariant Tracks(c, bars, i, currentDay, runningHi, runningLo, lockedHi, lockedLo)
      invariant forall k :: 0 <= k < i ==>
                  orbHigh[k] == PublishedHigh(c, bars, k) && orbLow[k] == PublishedLow(c, bars, k)
      invariant forall k :: i <= k < |bars| ==> orbHigh[k] == NaN && orbLow[k] == NaN
    {
      OneMoreBar(c, bars, i);
      ghost var a := RunStart(bars, i);
      if currentDay != Some(bars[i].day) {
        currentDay := Some(bars[i].day);
        runningHi, runningLo := NegInf, PosInf;
        lockedHi, lockedLo := NaN, NaN;
      }
      assert runningHi == RunHigh(c, bars, a, i) && runningLo == RunLow(c, bars, a, i);
      if InWindow(c, bars[i]) {
        if Lt(runningHi, bars[i].high) { runningHi := bars[i].high; }
        if Lt(bars[i].low, runningLo) { runningLo := bars[i].low; }
      } else if c.rthOpen + c.rangeMinutes <= bars[i].minute {
        if runningHi != NegInf && lockedHi.NaN? {
          lockedHi, lockedLo := runningHi, runningLo;
        }
        assert lockedHi == PublishedHigh(c, bars, i) && lockedLo == PublishedLow(c, bars, i);
        orbHigh[i] := lockedHi;
        orbLow[i] := lockedLo;
      }
      assert Tracks(c, bars, i + 1, currentDay, runningHi, runningLo, lockedHi, lockedLo);
    }
  }

  // ----------------------------------------- where windows close, it is the day's whole window

  lemma {:induction false} RunIsWindow(c: Config, bars: seq<Bar>, d: int, a: nat, n: nat)
    requires a <= n <= |bars| && forall j :: a <= j < n ==> bars[j].day == d
    requires WindowHigh(c, bars, d, a) == NegInf && WindowLow(c, bars, d, a) == PosInf
    ensures RunHigh(c, bars, a, n) == WindowHigh(c, bars, d, n) && RunLow(c, bars, a, n) == WindowLow(c, bars, d, n)
  {
    if n > a {
      RunIsWindow(c, bars, d, a, n - 1);
    }
  }

  /** Where no window reopens, what the pass publishes is the range of the day's whole window. */
  lemma PublishedIsTheRange(c: Config, bars: seq<Bar>, i: nat)
    requires WindowsClose(c, bars) && i < |bars|
    ensures PublishedHigh(c, bars, i) == RangeHigh(c, bars, i) && PublishedLow(c, bars, i) == RangeLow(c, bars, i)
  {
    var a, d := RunStart(bars, i), bars[i].day;
    var k := FrozenAt(c, bars, a, i);
    NoWindowBar(c, bars, d, 0, a);
    RunIsWindow(c, bars, d, a, i);
    if k.Some? {
      RunIsWindow(c, bars, d, a, k.value);
      NoWindowBar(c, bars, d, k.value, i);
    }
  }

  /** Elsewhere it need not be: a window bar after the range was frozen is not in it. */
  lemma ReopenedWindowIsIgnored(c: Config, bars: seq<Bar>, j: nat, i: nat)
    requires j < i < |bars| && RunStart(bars, i) <= j && AfterWindow(c, bars[i]) && AfterWindow(c, bars[j])
    requires !PublishedHigh(c, bars, j).NaN?
    ensures PublishedHigh(c, bars, i) == PublishedHigh(c, bars, j)
    ensures PublishedLow(c, bars, i) == PublishedLow(c, bars, j)
  {
    SameRun(bars, j, i);
    FrozenStays(c, bars, RunStart(bars, i), j, i);
  }

  lemma {:induction false} SameRun(bars: seq<Bar>, j: nat, i: nat)
    requires j <= i < |bars| && RunStart(bars, i) <= j
    ensures RunStart(bars, j) == RunStart(bars, i)
  {
    if j < i {
      SameRun(bars, j, i - 1);
    }
  }

  lemma {:induction false} FrozenStays(c: Config, bars: seq<Bar>, a: nat, j: nat, i: nat)
    requires a <= j <= i < |bars| && FrozenAt(c, bars, a, j).Some?
    ensures FrozenAt(c, bars, a, i) == FrozenAt(c, bars, a, j)
  {
    if j < i {
      FrozenStays(c, bars, a, j, i - 1);
    }
  }

  // ------------------------------------------------------ what the range stands for

  predicate InWindowOf(c: Config, bars: seq<Bar>, d: int, j: int) {
    0 <= j < |bars| && bars[j].day == d && InWindow(c, bars[j])
  }

  lemma {:induction false} WindowHighIsHighest(c: Config, bars: seq<Bar>, d: int, n: nat)
    requires n <= |bars|
    ensures var r := WindowHigh(c, bars, d, n);
            && (forall j :: 0 <= j < n && InWindowOf(c, bars, d, j) && !bars[j].high.NaN? ==> Le(bars[j].high, r))
            && (r != NegInf ==> exists j :: 0 <= j < n && InWindowOf(c, bars, d, j) && bars[j].high == r)
  {
    if n > 0 {
      WindowHighIsHighest(c, bars, d, n - 1);
      assert InWindowOf(c, bars, d, n - 1) <==> bars[n - 1].day == d && InWindow(c, bars[n - 1]);
    }
  }

  lemma {:induction false} WindowLowIsLowest(c: Config, bars: seq<Bar>, d: int, n: nat)
    requires n <= |bars|
    ensures var r := WindowLow(c, bars, d, n);
            && (forall j :: 0 <= j < n && InWindowOf(c, bars, d, j) && !bars[j].low.NaN? ==> Le(r, bars[j].low))
            && (r != PosInf ==> exists j :: 0 <= j < n && InWindowOf(c, bars, d, j) && bars[j].low == r)
  {
    if n > 0 {
      WindowLowIsLowest(c, bars, d, n - 1);
      assert InWindowOf(c, bars, d, n - 1) <==> bars[n - 1].day == d && InWindow(c, bars[n - 1]);
    }
  }

  /** Before the window has closed there is no range. Afterwards it spans every bar of the day's window, of the whole
      history, and its ends are the high of one and the low of one; there is none only if no bar had a high. */
  lemma {:induction false} RangeIsTheWindows(c: Config, bars: seq<Bar>, i: nat)
    requires WindowsClose(c, bars) && i < |bars|
    ensures var high, low, d := RangeHigh(c, bars, i), RangeLow(c, bars, i), bars[i].day;
            && (!AfterWindow(c, bars[i]) ==> high.NaN? && low.NaN?)
            && (AfterWindow(c, bars[i]) ==>
                && (high.NaN? <==> low.NaN?)
                && (high.NaN? <==> forall j :: InWindowOf(c, bars, d, j) ==> bars[j].high.NaN? || bars[j].high.NegInf?)
                && (!high.NaN? ==>
                    && (forall j :: InWindowOf(c, bars, d, j) && !bars[j].high.NaN? ==> Le(bars[j].high, high))
                    && (forall j :: InWindowOf(c, bars, d, j) && !bars[j].low.NaN? ==> Le(low, bars[j].low))
                    && (exists j :: InWindowOf(c, bars, d, j) && bars[j].high == high)
                    && (low != PosInf ==> exists j :: InWindowOf(c, bars, d, j) && bars[j].low == low)))
  {
    var d := bars[i].day;
    if AfterWindow(c, bars[i]) {
      WindowHighIsHighest(c, bars, d, i);
      WindowLowIsLowest(c, bars, d, i);
      forall j | InWindowOf(c, bars, d, j)
        ensures j < i
      {
      }
    }
  }

  // -------------------------------------------------------------- the signal

  datatype State =
    | Empty
    | State(close: seq<Num>, volume: seq<Num>, volAvg: seq<Num>, orbHigh: seq<Num>, orbLow: seq<Num>, rth: seq<bool>)

  predicate Covers(s: State, n: nat) {
    s.Empty? || (n == |s.close| == |s.volume| == |s.volAvg| == |s.orbHigh| == |s.orbLow| == |s.rth|)
  }

  function RangeHighs(c: Config, bars: seq<Bar>): (r: seq<Num>)
    ensures |r| == |bars|
  {
    seq(|bars|, i requires 0 <= i < |bars| => PublishedHigh(c, bars, i))
  }

  function RangeLows(c: Config, bars: seq<Bar>): (r: seq<Num>)
    ensures |r| == |bars|
  {
    seq(|bars|, i requires 0 <= i < |bars| => PublishedLow(c, bars, i))
  }

  function Prepared(c: Config, bars: seq<Bar>): (s: State)
    ensures Covers(s, |bars|) && (s.Empty? <==> |bars| < MIN_BARS)
  {
    if |bars| < MIN_BARS then Empty
    else
      State(Column(bars, Close), Column(bars, Volume), RollingMean(Column(bars, Volume), VOL_WINDOW, VOL_WINDOW),
            RangeHighs(c, bars), RangeLows(c, bars), Session(bars, c.rthOpen, c.rthClose))
  }

  method Precompute(c: Config, bars: seq<Bar>) returns (s: State)
    ensures s == Prepared(c, bars)
  {
    if |bars| < MIN_BARS {
      return Empty;
    }
    var orbHigh, orbLow := OpeningRanges(c, bars);
    assert orbHigh[..] == RangeHighs(c, bars) && orbLow[..] == RangeLows(c, bars);
    s := State(Column(bars, Close), Column(bars, Volume), RollingMean(Column(bars, Volume), VOL_WINDOW, VOL_WINDOW),
               orbHigh[..], orbLow[..], Session(bars, c.rthOpen, c.rthClose));
  }

  /** When a bought position is to be closed again, if at all. */
  function ExitRules(c: Config): (Option<int>, Option<int>) {
    var flatten := c.rthClose - c.eodFlattenBefore;
    (if !c.eodFlatten then None else Some(if flatten < 0 then 0 else flatten),
     if c.maxHoldBars == 0 then None else Some(c.maxHoldBars))
  }

  function OnBar(c: Config, s: State, n: nat, i: nat): Option<Signal>
    requires i < n && Covers(s, n)
  {
    if s.Empty? || i < MIN_BARS || !s.rth[i] then None
    else if s.orbHigh[i].NaN? || s.orbLow[i].NaN? then None
    else if s.volAvg[i].NaN? || Le(s.volAvg[i], Fin(0.0)) then None
    else
      var close, prevClose := s.close[i], s.close[i - 1];
      var volOk := Lt(Mul(s.volAvg[i], Fin(VOLUME_MULT)), s.volume[i]);
      if Lt(s.orbHigh[i], close) && Le(prevClose, s.orbHigh[i]) && volOk then
        Some(Signal(BUY, 0.6, 0.4, ExitRules(c).0, ExitRules(c).1))
      else if Lt(close, s.orbLow[i]) && Le(s.orbLow[i], prevClose) && volOk then
        Some(Signal(SELL, 0.6, 0.4, None, None))
      else None
  }

  function OnPrices(c: Config, bars: seq<Bar>): Option<Signal> {
    if |bars| < MIN_BARS || Prepared(c, bars).Empty? then None
    else OnBar(c, Prepared(c, bars), |bars|, |bars| - 1)
  }

  lemma {:induction false} RunOfPrefix(c: Config, bars: seq<Bar>, a: nat, k: nat, n: nat)
    requires a <= k <= n <= |bars|
    ensures RunHigh(c, bars[..n], a, k) == RunHigh(c, bars, a, k) && RunLow(c, bars[..n], a, k) == RunLow(c, bars, a, k)
  {
    if k > a {
      RunOfPrefix(c, bars, a, k - 1, n);
    }
  }

  lemma {:induction false} StartOfPrefix(bars: seq<Bar>, i: nat, n: nat)
    requires i < n <= |bars|
    ensures RunStart(bars[..n], i) == RunStart(bars, i)
  {
    if i > 0 {
      StartOfPrefix(bars, i - 1, n);
    }
  }

  lemma {:induction false} FrozenOfPrefix(c: Config, bars: seq<Bar>, a: nat, i: nat, n: nat)
    requires a <= i < n <= |bars|
    ensures FrozenAt(c, bars[..n], a, i) == FrozenAt(c, bars, a, i)
    decreases i - a
  {
    RunOfPrefix(c, bars, a, i, n);
    if i > a {
      FrozenOfPrefix(c, bars, a, i - 1, n);
    }
  }

  lemma RangesOfPrefix(c: Config, bars: seq<Bar>, n: nat)
    requires n <= |bars|
    ensures RangeHighs(c, bars[..n]) == RangeHighs(c, bars)[..n] && RangeLows(c, bars[..n]) == RangeLows(c, bars)[..n]
  {
    forall i | 0 <= i < n
      ensures PublishedHigh(c, bars[..n], i) == PublishedHigh(c, bars, i)
      ensures PublishedLow(c, bars[..n], i) == PublishedLow(c, bars, i)
    {
      StartOfPrefix(bars, i, n);
      var a := RunStart(bars, i);
      FrozenOfPrefix(c, bars, a, i, n);
      var k := FrozenAt(c, bars, a, i);
      if k.Some? {
        RunOfPrefix(c, bars, a, k.value, n);
      }
    }
  }

  predicate SameAt(s: State, t: State, i: nat)
    requires s.State? && t.State? && Covers(s, |s.close|) && Covers(t, |t.close|) && 0 < i < |s.close| && i < |t.close|
  {
    && s.close[i] == t.close[i] && s.close[i - 1] == t.close[i - 1] && s.volume[i] == t.volume[i]
    && s.volAvg[i] == t.volAvg[i] && s.orbHigh[i] == t.orbHigh[i] && s.orbLow[i] == t.orbLow[i] && s.rth[i] == t.rth[i]
  }

  lemma ColumnsAreSettled(c: Config, bars: seq<Bar>, i: nat)
    requires MIN_BARS <= i < |bars|
    ensures SameAt(Prepared(c, bars), Prepared(c, bars[..i + 1]), i)
  {
    hide RangeHighs, RangeLows, RollingMean;
    RangesOfPrefix(c, bars, i + 1);
    VolumesOfPrefix(bars, i + 1, VOL_WINDOW);
  }

  lemma SameSignal(c: Config, s: State, t: State, n: nat, m: nat, i: nat)
    requires s.State? && t.State? && Covers(s, n) && Covers(t, m) && 0 < i < n && i < m && SameAt(s, t, i)
    ensures OnBar(c, s, n, i) == OnBar(c, t, m, i)
  {
  }

  /** The live strategy, given the bars up to now, says what the backtest says at that bar of the whole history. */
  lemma LiveEqualsBacktest(c: Config, bars: seq<Bar>, i: nat)
    requires i < |bars|
    ensures OnPrices(c, bars[..i + 1]) == OnBar(c, Prepared(c, bars), |bars|, i)
  {
    hide Prepared;
    if MIN_BARS <= i {
      ColumnsAreSettled(c, bars, i);
      SameSignal(c, Prepared(c, bars), Prepared(c, bars[..i + 1]), |bars|, i + 1, i);
    }
  }

  // ---------------------------------------------------------- what a signal means

  /** Inside the session, after a window with a high, and on volume. */
  ghost predicate CanSignal(c: Config, bars: seq<Bar>, i: nat)
    requires i < |bars|
  {
    && MIN_BARS <= i && c.rthOpen <= bars[i].minute < c.rthClose && AfterWindow(c, bars[i])
    && (exists j :: InWindowOf(c, bars, bars[i].day, j) && !bars[j].high.NaN? && !bars[j].high.NegInf?)
    && OnVolume(RollingMean(Column(bars, Volume), VOL_WINDOW, VOL_WINDOW)[i], bars[i].volume)
  }

  predicate OnVolume(average: Num, volume: Num) {
    Lt(Fin(0.0), average) && Lt(Mul(average, Fin(VOLUME_MULT)), volume)
  }

  /** The close is above every high of the window, the one before it was not. */
  ghost predicate BreaksUp(c: Config, bars: seq<Bar>, i: nat)
    requires 0 < i < |bars|
  {
    && (forall j :: InWindowOf(c, bars, bars[i].day, j) && !bars[j].high.NaN? ==> Lt(bars[j].high, bars[i].close))
    && (exists j :: InWindowOf(c, bars, bars[i].day, j) && Le(bars[i - 1].close, bars[j].high))
  }

  ghost predicate BreaksDown(c: Config, bars: seq<Bar>, i: nat)
    requires 0 < i < |bars|
  {
    && Lt(bars[i].close, PosInf)
    && (forall j :: InWindowOf(c, bars, bars[i].day, j) && !bars[j].low.NaN? ==> Lt(bars[i].close, bars[j].low))
    && (bars[i - 1].close == PosInf
        || exists j :: InWindowOf(c, bars, bars[i].day, j) && Le(bars[j].low, bars[i - 1].close))
  }

  lemma ColumnsAre(c: Config, bars: seq<Bar>, i: nat)
    requires WindowsClose(c, bars) && MIN_BARS <= i < |bars|
    ensures var s := Prepared(c, bars);
            && s.State? && Covers(s, |bars|) && s.close[i] == bars[i].close && s.close[i - 1] == bars[i - 1].close
            && s.volume[i] == bars[i].volume
            && s.orbHigh[i] == RangeHigh(c, bars, i) && s.orbLow[i] == RangeLow(c, bars, i)
            && s.volAvg == RollingMean(Column(bars, Volume), VOL_WINDOW, VOL_WINDOW)
            && (s.rth[i] <==> c.rthOpen <= bars[i].minute < c.rthClose)
  {
    hide RollingMean, RangeHigh, RangeLow, PublishedHigh, PublishedLow;
    PublishedIsTheRange(c, bars, i);
    assert Column(bars, Close)[i] == Close(bars[i]) && Column(bars, Close)[i - 1] == Close(bars[i - 1]);
    assert Column(bars, Volume)[i] == Volume(bars[i]);
  }

  lemma {:induction false} CrossingsAre(c: Config, bars: seq<Bar>, i: nat)
    requires WindowsClose(c, bars) && 0 < i < |bars| && !RangeHigh(c, bars, i).NaN? && AfterWindow(c, bars[i])
    ensures var high, low := RangeHigh(c, bars, i), RangeLow(c, bars, i);
            && (BreaksUp(c, bars, i) <==> Lt(high, bars[i].close) && Le(bars[i - 1].close, high))
            && (BreaksDown(c, bars, i) <==> Lt(bars[i].close, low) && Le(low, bars[i - 1].close))
  {
    hide RangeHigh, RangeLow, WindowsClose, AfterWindow, InWindowOf;
    RangeIsTheWindows(c, bars, i);
  }

  /** A bar buys if and only if it breaks upwards, and sells if and only if it breaks downwards and not upwards. */
  lemma {:induction false} SignalsExactlyOnBreakouts(c: Config, bars: seq<Bar>, i: nat)
    requires WindowsClose(c, bars) && i < |bars|
    ensures OnBar(c, Prepared(c, bars), |bars|, i) ==
      if CanSignal(c, bars, i) && BreaksUp(c, bars, i) then Some(Signal(BUY, 0.6, 0.4, ExitRules(c).0, ExitRules(c).1))
      else if CanSignal(c, bars, i) && BreaksDown(c, bars, i) then Some(Signal(SELL, 0.6, 0.4, None, None))
      else None
  {
    hide Prepared, RollingMean, RangeHigh, RangeLow, WindowsClose, BreaksUp, BreaksDown, ExitRules, Mul, Column;
    if MIN_BARS <= i {
      ColumnsAre(c, bars, i);
      RangeIsTheWindows(c, bars, i);
      if AfterWindow(c, bars[i]) && !RangeHigh(c, bars, i).NaN? {
        CrossingsAre(c, bars, i);
      }
    }
  }

  /** A bought position is closed at the flatten time, if there is one, never before midnight, and after the set
      number of bars, if that is not zero. */
  lemma ExitsAre(c: Config)
    ensures ExitRules(c).0.Some? <==> c.eodFlatten
    ensures c.eodFlatten ==> 0 <= ExitRules(c).0.value && (c.eodFlattenBefore <= c.rthClose ==>
              ExitRules(c).0.value + c.eodFlattenBefore == c.rthClose)
    ensures ExitRules(c).1.Some? <==> c.maxHoldBars != 0
    ensures c.maxHoldBars != 0 ==> ExitRules(c).1 == Some(c.maxHoldBars)
  {
  }
}
