/** Column arithmetic on bars of market data, as the strategies use it: one value per bar, NaN where there is none,
    and values taken within a trading day or over a rolling window. */
module Columns {
  import opened Common
  import opened Numbers

  /** `day` and `minute` are read off the exchange's clock. */
  datatype Bar = Bar(day: int, minute: int, open: Num, high: Num, low: Num, close: Num, volume: Num)

  datatype Action = BUY | SELL

  /** `closeBy` is a minute of the day. */
  datatype Signal = Signal(action: Action, probability: real, risk: real, closeBy: Option<int>, maxHold: Option<int>)

  /** The clock may be put back, but only during the night. */
  const MORNING := 180

  predicate InTimeOrder(bars: seq<Bar>) {
    forall i, j :: 0 <= i < j < |bars| ==>
      && bars[i].day <= bars[j].day
      && (bars[i].day == bars[j].day && MORNING <= bars[i].minute ==> bars[i].minute <= bars[j].minute)
  }

  // ------------------------------------------------------------ bar by bar

  function Days(bars: seq<Bar>): (r: seq<int>)
    ensures |r| == |bars|
  {
    seq(|bars|, i requires 0 <= i < |bars| => bars[i].day)
  }

  function Open(b: Bar): Num { b.open }

  function High(b: Bar): Num { b.high }

  function Low(b: Bar): Num { b.low }

  function Close(b: Bar): Num { b.close }

  function Volume(b: Bar): Num { b.volume }

  function Column(bars: seq<Bar>, f: Bar -> Num): (r: seq<Num>)
    ensures |r| == |bars|
  {
    seq(|bars|, i requires 0 <= i < |bars| => f(bars[i]))
  }

  function Map(f: Num -> Num, a: seq<Num>): (r: seq<Num>)
    ensures |r| == |a|
  {
    seq(|a|, i requires 0 <= i < |a| => f(a[i]))
  }

  function Map2(f: (Num, Num) -> Num, a: seq<Num>, b: seq<Num>): (r: seq<Num>)
    requires |a| == |b|
    ensures |r| == |a|
  {
    seq(|a|, i requires 0 <= i < |a| && |a| == |b| => f(a[i], b[i]))
  }

  /** The bars whose minute is in [from, until). */
  function Session(bars: seq<Bar>, from: int, until: int): (r: seq<bool>)
    ensures |r| == |bars|
  {
    seq(|bars|, i requires 0 <= i < |bars| => from <= bars[i].minute < until)
  }

  function Where(a: seq<Num>, mask: seq<bool>): (r: seq<Num>)
    requires |a| == |mask|
    ensures |r| == |a|
  {
    seq(|a|, i requires 0 <= i < |a| && |a| == |mask| => if mask[i] then a[i] else NaN)
  }

  /** Each value of the bar before. */
  function Shift(a: seq<Num>): (r: seq<Num>)
    ensures |r| == |a|
  {
    seq(|a|, i requires 0 <= i < |a| => if i == 0 then NaN else a[i - 1])
  }

  function ZeroToNaN(a: Num): Num {
    if a == Fin(0.0) then NaN else a
  }

  /** `b` where `a` has no value. */
  function Fill(a: Num, b: Num): Num {
    if a.NaN? then b else a
  }

  function Latest(a: Num, b: Num): Num {
    b
  }

  // ------------------------------------------------------------ within a day

  /** The values of day `d` among the first `n` bars, NaN left out, put together with `f` from the left. */
  function Over(f: (Num, Num) -> Num, zero: Num, a: seq<Num>, days: seq<int>, d: int, n: nat): Num
    requires n <= |a| == |days|
  {
    if n == 0 then zero
    else
      var r := Over(f, zero, a, days, d, n - 1);
      if days[n - 1] == d && !a[n - 1].NaN? then f(r, a[n - 1]) else r
  }

  /** Over the day so far; a bar without a value has none here either. */
  function Running(f: (Num, Num) -> Num, zero: Num, a: seq<Num>, days: seq<int>): (r: seq<Num>)
    requires |a| == |days|
    ensures |r| == |a|
  {
    seq(|a|, i requires 0 <= i < |a| == |days| => if a[i].NaN? then NaN else Over(f, zero, a, days, days[i], i + 1))
  }

  /** Over the whole day, given to every bar of it: also to those before. */
  function Broadcast(f: (Num, Num) -> Num, zero: Num, a: seq<Num>, days: seq<int>): (r: seq<Num>)
    requires |a| == |days|
    ensures |r| == |a|
  {
    seq(|a|, i requires 0 <= i < |a| == |days| => Over(f, zero, a, days, days[i], |a|))
  }

  // ------------------------------------------------------- rolling windows

  function FiniteSum(a: seq<Num>, lo: nat, hi: nat): real
    requires lo <= hi <= |a|
  {
    if lo == hi then 0.0 else FiniteSum(a, lo, hi - 1) + if a[hi - 1].Fin? then a[hi - 1].x else 0.0
  }

  function FiniteCount(a: seq<Num>, lo: nat, hi: nat): nat
    requires lo <= hi <= |a|
  {
    if lo == hi then 0 else FiniteCount(a, lo, hi - 1) + if a[hi - 1].Fin? then 1 else 0
  }

  /** The mean of the finite values in a window, if there are enough of them. */
  function Mean(a: seq<Num>, lo: nat, hi: nat, least: nat): Num
    requires lo <= hi <= |a| && least > 0
  {
    var count := FiniteCount(a, lo, hi);
    if count < least then NaN else Fin(FiniteSum(a, lo, hi) / count as real)
  }

  function Back(i: nat, window: nat): nat {
    if i + 1 < window then 0 else i + 1 - window
  }

  function RollingMean(a: seq<Num>, window: nat, least: nat): (r: seq<Num>)
    requires window > 0 && least > 0
    ensures |r| == |a|
  {
    seq(|a|, i requires 0 <= i < |a| && window > 0 && least > 0 => Mean(a, Back(i, window), i + 1, least))
  }

  // ------------------------------------------------------------------- VWAP

  /** The session's volume-weighted average price, or the close where there is no volume yet. */
  function Vwap(bars: seq<Bar>): (r: seq<Num>)
    ensures |r| == |bars|
  {
    var closes, volumes, days := Column(bars, Close), Column(bars, Volume), Days(bars);
    var money := Running(Add, Fin(0.0), Map2(Mul, closes, volumes), days);
    var shares := Running(Add, Fin(0.0), volumes, days);
    Map2(Fill, Map2(Div, money, Map(ZeroToNaN, shares)), closes)
  }

  lemma VwapIs(bars: seq<Bar>, i: nat, money: Num, shares: Num)
    requires i < |bars| && !bars[i].close.NaN? && !bars[i].volume.NaN?
    requires var pv := Map2(Mul, Column(bars, Close), Column(bars, Volume));
             !pv[i].NaN? && Over(Add, Fin(0.0), pv, Days(bars), bars[i].day, i + 1) == money
    requires Over(Add, Fin(0.0), Column(bars, Volume), Days(bars), bars[i].day, i + 1) == shares
    ensures Vwap(bars)[i] == Fill(Div(money, ZeroToNaN(shares)), bars[i].close)
  {
    var closes, volumes, days := Column(bars, Close), Column(bars, Volume), Days(bars);
    var pv := Map2(Mul, closes, volumes);
    var paid, sold := Running(Add, Fin(0.0), pv, days), Running(Add, Fin(0.0), volumes, days);
    assert volumes[i] == Volume(bars[i]) && closes[i] == Close(bars[i]);
    assert paid[i] == money && sold[i] == shares;
    assert Map(ZeroToNaN, sold)[i] == ZeroToNaN(shares);
    assert Map2(Div, paid, Map(ZeroToNaN, sold))[i] == Div(money, ZeroToNaN(shares));
  }

  // -------------------------------------------------- what the day folds find

  predicate In(a: seq<Num>, days: seq<int>, d: int, j: int)
    requires |a| == |days|
  {
    0 <= j < |a| && days[j] == d && !a[j].NaN?
  }

  /** The day's first value. */
  lemma {:induction false} FirstOverDay(a: seq<Num>, days: seq<int>, d: int, n: nat)
    requires n <= |a| == |days|
    ensures var r := Over(Fill, NaN, a, days, d, n);
            if r.NaN? then forall j :: 0 <= j < n ==> !In(a, days, d, j)
            else exists j :: 0 <= j < n && In(a, days, d, j) && a[j] == r
                             && forall k :: 0 <= k < j ==> !In(a, days, d, k)
  {
    if n > 0 {
      FirstOverDay(a, days, d, n - 1);
    }
  }

  lemma {:induction false} LastOverDay(a: seq<Num>, days: seq<int>, d: int, n: nat)
    requires n <= |a| == |days|
    ensures var r := Over(Latest, NaN, a, days, d, n);
            if r.NaN? then forall j :: 0 <= j < n ==> !In(a, days, d, j)
            else exists j :: 0 <= j < n && In(a, days, d, j) && a[j] == r
                             && forall k :: j < k < n ==> !In(a, days, d, k)
  {
    if n > 0 {
      LastOverDay(a, days, d, n - 1);
      if In(a, days, d, n - 1) {
        assert forall k :: n - 1 < k < n ==> !In(a, days, d, k);
      }
    }
  }

  lemma {:induction false} LowestOverDay(a: seq<Num>, days: seq<int>, d: int, n: nat)
    requires n <= |a| == |days|
    ensures var r := Over(FMin, NaN, a, days, d, n);
            && (forall j :: 0 <= j < n && In(a, days, d, j) ==> Le(r, a[j]))
            && (r.NaN? || exists j :: 0 <= j < n && In(a, days, d, j) && a[j] == r)
  {
    if n > 0 {
      LowestOverDay(a, days, d, n - 1);
      assert In(a, days, d, n - 1) <==> days[n - 1] == d && !a[n - 1].NaN?;
    }
  }

  lemma {:induction false} HighestOverDay(a: seq<Num>, days: seq<int>, d: int, n: nat)
    requires n <= |a| == |days|
    ensures var r := Over(FMax, NaN, a, days, d, n);
            && (forall j :: 0 <= j < n && In(a, days, d, j) ==> Le(a[j], r))
            && (r.NaN? || exists j :: 0 <= j < n && In(a, days, d, j) && a[j] == r)
  {
    if n > 0 {
      HighestOverDay(a, days, d, n - 1);
      assert In(a, days, d, n - 1) <==> days[n - 1] == d && !a[n - 1].NaN?;
    }
  }

  /** `v` is the day's first value among the first `n` bars. */
  ghost predicate IsFirst(a: seq<Num>, days: seq<int>, d: int, n: nat, v: Num)
    requires n <= |a| == |days|
  {
    exists j :: 0 <= j < n && In(a, days, d, j) && a[j] == v && forall k :: 0 <= k < j ==> !In(a, days, d, k)
  }

  ghost predicate IsLast(a: seq<Num>, days: seq<int>, d: int, n: nat, v: Num)
    requires n <= |a| == |days|
  {
    exists j :: 0 <= j < n && In(a, days, d, j) && a[j] == v && forall k :: j < k < n ==> !In(a, days, d, k)
  }

  ghost predicate IsLowest(a: seq<Num>, days: seq<int>, d: int, n: nat, v: Num)
    requires n <= |a| == |days|
  {
    && (exists j :: 0 <= j < n && In(a, days, d, j) && a[j] == v)
    && forall k :: 0 <= k < n && In(a, days, d, k) ==> Le(v, a[k])
  }

  ghost predicate IsHighest(a: seq<Num>, days: seq<int>, d: int, n: nat, v: Num)
    requires n <= |a| == |days|
  {
    && (exists j :: 0 <= j < n && In(a, days, d, j) && a[j] == v)
    && forall k :: 0 <= k < n && In(a, days, d, k) ==> Le(a[k], v)
  }

  lemma {:induction false} FirstIs(a: seq<Num>, days: seq<int>, d: int, n: nat, v: Num)
    requires n <= |a| == |days|
    ensures IsFirst(a, days, d, n, v) <==> !v.NaN? && v == Over(Fill, NaN, a, days, d, n)
  {
    hide Over;
    FirstOverDay(a, days, d, n);
    if IsFirst(a, days, d, n, v) {
      var j :| 0 <= j < n && In(a, days, d, j) && a[j] == v && forall k :: 0 <= k < j ==> !In(a, days, d, k);
      assert In(a, days, d, j);
    }
  }

  lemma {:induction false} LastIs(a: seq<Num>, days: seq<int>, d: int, n: nat, v: Num)
    requires n <= |a| == |days|
    ensures IsLast(a, days, d, n, v) <==> !v.NaN? && v == Over(Latest, NaN, a, days, d, n)
  {
    hide Over;
    LastOverDay(a, days, d, n);
    if IsLast(a, days, d, n, v) {
      var j :| 0 <= j < n && In(a, days, d, j) && a[j] == v && forall k :: j < k < n ==> !In(a, days, d, k);
      assert In(a, days, d, j);
    }
  }

  lemma {:induction false} LowestIs(a: seq<Num>, days: seq<int>, d: int, n: nat, v: Num)
    requires n <= |a| == |days|
    ensures IsLowest(a, days, d, n, v) <==> !v.NaN? && v == Over(FMin, NaN, a, days, d, n)
  {
    hide Over;
    LowestOverDay(a, days, d, n);
    if IsLowest(a, days, d, n, v) {
      var j :| 0 <= j < n && In(a, days, d, j) && a[j] == v;
      assert Le(Over(FMin, NaN, a, days, d, n), v);
    }
  }

  lemma {:induction false} HighestIs(a: seq<Num>, days: seq<int>, d: int, n: nat, v: Num)
    requires n <= |a| == |days|
    ensures IsHighest(a, days, d, n, v) <==> !v.NaN? && v == Over(FMax, NaN, a, days, d, n)
  {
    hide Over;
    HighestOverDay(a, days, d, n);
    if IsHighest(a, days, d, n, v) {
      var j :| 0 <= j < n && In(a, days, d, j) && a[j] == v;
      assert Le(v, Over(FMax, NaN, a, days, d, n));
    }
  }

  /** The first value of a day is settled once there is one. */
  lemma {:induction false} FirstIsSettled(a: seq<Num>, days: seq<int>, d: int, n: nat, m: nat)
    requires n <= m <= |a| == |days|
    requires exists j :: 0 <= j < n && In(a, days, d, j)
    ensures Over(Fill, NaN, a, days, d, m) == Over(Fill, NaN, a, days, d, n) && !Over(Fill, NaN, a, days, d, n).NaN?
  {
    if n < m {
      FirstIsSettled(a, days, d, n, m - 1);
    } else {
      FirstOverDay(a, days, d, n);
    }
  }

  // ------------------------------------------------------- windows of one value

  lemma {:induction false} SumOfConstant(a: seq<Num>, lo: nat, hi: nat, x: real)
    requires lo <= hi <= |a| && forall j :: lo <= j < hi ==> a[j] == Fin(x)
    ensures FiniteCount(a, lo, hi) == hi - lo && FiniteSum(a, lo, hi) == (hi - lo) as real * x
  {
    if lo < hi {
      SumOfConstant(a, lo, hi - 1, x);
    }
  }

  lemma MeanOfConstant(a: seq<Num>, lo: nat, hi: nat, least: nat, x: real)
    requires lo <= hi <= |a| && 0 < least <= hi - lo && forall j :: lo <= j < hi ==> a[j] == Fin(x)
    ensures Mean(a, lo, hi, least) == Fin(x)
  {
    SumOfConstant(a, lo, hi, x);
    var n := (hi - lo) as real;
    assert n * x / n == x;
  }

  // ------------------------------------- what these say of the first bars alone

  lemma {:induction false} OverAgrees(
    f: (Num, Num) -> Num, zero: Num, a: seq<Num>, b: seq<Num>, days: seq<int>, more: seq<int>, d: int, n: nat)
    requires n <= |a| == |days| && n <= |b| == |more|
    requires forall j :: 0 <= j < n ==> days[j] == more[j] && (days[j] == d ==> a[j] == b[j])
    ensures Over(f, zero, a, days, d, n) == Over(f, zero, b, more, d, n)
  {
    if n > 0 {
      OverAgrees(f, zero, a, b, days, more, d, n - 1);
    }
  }

  /** Bars of another day, or without a value, do not count. */
  lemma {:induction false} OverIgnores(
    f: (Num, Num) -> Num, zero: Num, a: seq<Num>, days: seq<int>, d: int, n: nat, m: nat)
    requires n <= m <= |a| == |days|
    requires forall j :: n <= j < m ==> days[j] == d ==> a[j].NaN?
    ensures Over(f, zero, a, days, d, m) == Over(f, zero, a, days, d, n)
  {
    if n < m {
      OverIgnores(f, zero, a, days, d, n, m - 1);
    }
  }

  lemma RunningOfPrefix(f: (Num, Num) -> Num, zero: Num, a: seq<Num>, days: seq<int>, n: nat)
    requires n <= |a| == |days|
    ensures Running(f, zero, a[..n], days[..n]) == Running(f, zero, a, days)[..n]
  {
    forall i | 0 <= i < n
      ensures Running(f, zero, a[..n], days[..n])[i] == Running(f, zero, a, days)[i]
    {
      OverAgrees(f, zero, a[..n], a, days[..n], days, days[i], i + 1);
    }
  }

  lemma {:induction false} MeanOfPrefix(a: seq<Num>, n: nat, lo: nat, hi: nat, least: nat)
    requires lo <= hi <= n <= |a| && least > 0
    ensures FiniteSum(a[..n], lo, hi) == FiniteSum(a, lo, hi) && FiniteCount(a[..n], lo, hi) == FiniteCount(a, lo, hi)
    ensures Mean(a[..n], lo, hi, least) == Mean(a, lo, hi, least)
  {
    if lo < hi {
      MeanOfPrefix(a, n, lo, hi - 1, least);
    }
  }

  lemma RollingMeanOfPrefix(a: seq<Num>, window: nat, least: nat, n: nat)
    requires window > 0 && least > 0 && n <= |a|
    ensures RollingMean(a[..n], window, least) == RollingMean(a, window, least)[..n]
  {
    forall i | 0 <= i < n
      ensures RollingMean(a[..n], window, least)[i] == RollingMean(a, window, least)[i]
    {
      MeanOfPrefix(a, n, Back(i, window), i + 1, least);
    }
  }

  lemma ColumnOfPrefix(bars: seq<Bar>, n: nat, f: Bar -> Num)
    requires n <= |bars|
    ensures Column(bars[..n], f) == Column(bars, f)[..n] && Days(bars[..n]) == Days(bars)[..n]
  {
  }

  lemma WhereAt(bars: seq<Bar>, f: Bar -> Num, from: int, until: int, j: nat)
    requires j < |bars|
    ensures Where(Column(bars, f), Session(bars, from, until))[j]
            == if from <= bars[j].minute < until then f(bars[j]) else NaN
  {
    assert Session(bars, from, until)[j] == (from <= bars[j].minute < until);
    assert Column(bars, f)[j] == f(bars[j]);
  }

  /** Volumes and their rolling mean. */
  lemma VolumesOfPrefix(bars: seq<Bar>, n: nat, window: nat)
    requires n <= |bars| && window > 0
    ensures Column(bars[..n], Volume) == Column(bars, Volume)[..n]
    ensures RollingMean(Column(bars[..n], Volume), window, window)
            == RollingMean(Column(bars, Volume), window, window)[..n]
  {
    ColumnOfPrefix(bars, n, Volume);
    RollingMeanOfPrefix(Column(bars, Volume), window, window, n);
  }

  lemma Map2OfPrefix(f: (Num, Num) -> Num, a: seq<Num>, b: seq<Num>, n: nat)
    requires n <= |a| == |b|
    ensures Map2(f, a[..n], b[..n]) == Map2(f, a, b)[..n]
  {
  }

  lemma MapOfPrefix(f: Num -> Num, a: seq<Num>, n: nat)
    requires n <= |a|
    ensures Map(f, a[..n]) == Map(f, a)[..n]
  {
  }

  /** The VWAP of a bar does not depend on later bars. */
  lemma VwapOfPrefix(bars: seq<Bar>, n: nat)
    requires n <= |bars|
    ensures Vwap(bars[..n]) == Vwap(bars)[..n]
  {
    var closes, volumes, days := Column(bars, Close), Column(bars, Volume), Days(bars);
    ColumnOfPrefix(bars, n, Close);
    ColumnOfPrefix(bars, n, Volume);
    var pv := Map2(Mul, closes, volumes);
    Map2OfPrefix(Mul, closes, volumes, n);
    RunningOfPrefix(Add, Fin(0.0), pv, days, n);
    RunningOfPrefix(Add, Fin(0.0), volumes, days, n);
    var money, shares := Running(Add, Fin(0.0), pv, days), Running(Add, Fin(0.0), volumes, days);
    MapOfPrefix(ZeroToNaN, shares, n);
    var whole := Map(ZeroToNaN, shares);
    Map2OfPrefix(Div, money, whole, n);
    Map2OfPrefix(Fill, Map2(Div, money, whole), closes, n);
  }

  /** The VWAP is a number only where the close is. */
  lemma VwapNeedsClose(bars: seq<Bar>, i: nat)
    requires i < |bars| && bars[i].close.NaN?
    ensures Vwap(bars)[i].NaN?
  {
    var closes, volumes, days := Column(bars, Close), Column(bars, Volume), Days(bars);
    var pv := Map2(Mul, closes, volumes);
    assert pv[i] == Mul(closes[i], volumes[i]);
    var money, shares := Running(Add, Fin(0.0), pv, days), Map(ZeroToNaN, Running(Add, Fin(0.0), volumes, days));
    var ratio := Map2(Div, money, shares);
    assert ratio[i] == Div(money[i], shares[i]);
    assert Vwap(bars)[i] == Fill(ratio[i], closes[i]);
  }
}
