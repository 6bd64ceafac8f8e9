/** Aggregating live ticks into completed OHLCV bars (resample_ticks_to_bars in trader/data/market_data.py). */
module TickBars {
  import opened Common

  /** One row of the tick stream; a field may have no value. `volume` is the exchange's running day total. */
  datatype Tick = Tick(
    at: int, price: Option<real>, volume: Option<real>, vwap: Option<real>,
    bid: Option<real>, ask: Option<real>, last: Option<real>, lastSize: Option<real>)

  datatype Bar = Bar(
    start: int, open: real, high: real, low: real, close: real, volume: Option<real>, vwap: Option<real>,
    bid: Option<real>, ask: Option<real>, last: Option<real>, lastSize: Option<real>, count: nat)

  const DAY := 86400

  predicate Ordered(ticks: seq<Tick>) {
    forall i, j :: 0 <= i < j < |ticks| ==> ticks[i].at <= ticks[j].at
  }

  // --------------------------------------------------------------------- windows

  /** Windows are counted from the midnight before the first tick. */
  function Midnight(at: int): int {
    at - at % DAY
  }

  function Window(origin: int, period: int, at: int): int
    requires period > 0
  {
    at - (at - origin) % period
  }

  /** What floor() gives: windows counted from the epoch. */
  function FloorTo(period: int, at: int): int
    requires period > 0
  {
    at - at % period
  }

  /** A tick and the window it falls in. */
  datatype Slot = Slot(window: int, tick: Tick)

  function Place(ticks: seq<Tick>, origin: int, period: int): (slots: seq<Slot>)
    requires period > 0
    ensures |slots| == |ticks|
    ensures forall i :: 0 <= i < |ticks| ==> slots[i] == Slot(Window(origin, period, ticks[i].at), ticks[i])
  {
    seq(|ticks|, i requires 0 <= i < |ticks| => Slot(Window(origin, period, ticks[i].at), ticks[i]))
  }

  predicate Climbing(slots: seq<Slot>) {
    forall i, j :: 0 <= i < j < |slots| ==> slots[i].window <= slots[j].window
  }

  lemma TimeOrderClimbs(ticks: seq<Tick>, origin: int, period: int)
    requires period > 0 && Ordered(ticks)
    ensures Climbing(Place(ticks, origin, period))
  {
    var slots := Place(ticks, origin, period);
    forall i, j | 0 <= i < j < |slots|
      ensures slots[i].window <= slots[j].window
    {
      Quotients(ticks[i].at - origin, ticks[j].at - origin, period);
    }
  }

  lemma Quotients(x: int, y: int, p: int)
    requires p > 0 && x <= y
    ensures x - x % p <= y - y % p
  {
    assert x == p * (x / p) + x % p && y == p * (y / p) + y % p;
    if x / p > y / p {
      AtLeast(p, x / p - y / p);
    } else {
      assert p * (x / p) <= p * (y / p);
    }
  }

  lemma AlignedWindows(origin: int, period: int, at: int)
    requires period > 0 && origin % period == 0
    ensures Window(origin, period, at) == FloorTo(period, at)
  {
    var q := origin / period;
    assert origin == period * q;
    ModShift(at, period, q);
  }

  lemma ModShift(x: int, p: int, q: int)
    requires p > 0
    ensures (x - p * q) % p == x % p
  {
    var y := x - p * q;
    assert x == p * (x / p) + x % p;
    assert y == p * (x / p - q) + x % p;
    Unique(y, p, x / p - q, x % p);
  }

  lemma Unique(y: int, p: int, q: int, r: int)
    requires p > 0 && y == p * q + r && 0 <= r < p
    ensures y % p == r
  {
    assert y == p * (y / p) + y % p;
    var d := q - y / p;
    assert p * d == y % p - r;
    if d > 0 {
      AtLeast(p, d);
    } else if d < 0 {
      AtLeast(p, -d);
    }
  }

  lemma AtLeast(p: int, d: int)
    requires p > 0 && d > 0
    ensures p * d >= p
  {
  }

  /** The ticks of one window. */
  function Group(slots: seq<Slot>, start: int): seq<Tick> {
    if slots == [] then []
    else
      var n := |slots| - 1;
      if slots[n].window == start then Group(slots[..n], start) + [slots[n].tick] else Group(slots[..n], start)
  }

  /** The windows in which some tick has a price, in time order. */
  function Starts(slots: seq<Slot>): seq<int> {
    if slots == [] then []
    else
      var n := |slots| - 1;
      var rest := Starts(slots[..n]);
      if slots[n].tick.price.None? || (rest != [] && rest[|rest| - 1] == slots[n].window) then rest
      else rest + [slots[n].window]
  }

  // ------------------------------------------------------------------- one bar

  function Values(fields: seq<Option<real>>): seq<real> {
    if fields == [] then []
    else
      var f := fields[|fields| - 1];
      if f.Some? then Values(fields[..|fields| - 1]) + [f.value] else Values(fields[..|fields| - 1])
  }

  function LastOf(fields: seq<Option<real>>): Option<real> {
    var values := Values(fields);
    if values == [] then None else Some(values[|values| - 1])
  }

  function Highest(values: seq<real>): (r: real)
    requires values != []
    ensures r in values && forall v :: v in values ==> v <= r
  {
    var n := |values| - 1;
    assert values == values[..n] + [values[n]];
    if n == 0 then values[0]
    else if Highest(values[..n]) >= values[n] then Highest(values[..n]) else values[n]
  }

  function Lowest(values: seq<real>): (r: real)
    requires values != []
    ensures r in values && forall v :: v in values ==> r <= v
  {
    var n := |values| - 1;
    assert values == values[..n] + [values[n]];
    if n == 0 then values[0]
    else if Lowest(values[..n]) <= values[n] then Lowest(values[..n]) else values[n]
  }

  function Prices(group: seq<Tick>): seq<Option<real>> {
    seq(|group|, i requires 0 <= i < |group| => group[i].price)
  }

  /** The running total at the end of each window. */
  function Totals(slots: seq<Slot>, starts: seq<int>): seq<Option<real>> {
    seq(|starts|, k requires 0 <= k < |starts| => LastQuote(Group(slots, starts[k]), Counter))
  }

  /** A bar's own volume: the rise of the running total since the bar before, or the whole total where there is
      no rise to be had, because the counter was reset or either end of it is missing. */
  function VolumeAt(totals: seq<Option<real>>, k: nat): Option<real>
    requires k < |totals|
  {
    if k > 0 && totals[k].Some? && totals[k - 1].Some? && totals[k].value - totals[k - 1].value >= 0.0
    then Some(totals[k].value - totals[k - 1].value)
    else totals[k]
  }

  /** The fields of which a bar carries the last value. */
  datatype Quote = Counter | Vwap | Bid | Ask | Last | LastSize

  function QuoteOf(tick: Tick, q: Quote): Option<real> {
    match q
    case Counter => tick.volume
    case Vwap => tick.vwap
    case Bid => tick.bid
    case Ask => tick.ask
    case Last => tick.last
    case LastSize => tick.lastSize
  }

  function LastQuote(group: seq<Tick>, q: Quote): Option<real> {
    LastOf(seq(|group|, i requires 0 <= i < |group| => QuoteOf(group[i], q)))
  }

  function MakeBar(group: seq<Tick>, start: int, volume: Option<real>): Bar
    requires Values(Prices(group)) != []
  {
    var prices := Values(Prices(group));
    Bar(start, prices[0], Highest(prices), Lowest(prices), prices[|prices| - 1], volume,
        LastQuote(group, Vwap), LastQuote(group, Bid), LastQuote(group, Ask), LastQuote(group, Last),
        LastQuote(group, LastSize),
        |prices|)
  }

  // -------------------------------------------------------------------- all bars

  /** The windows before `start`; the index is in time order, so they come first. */
  function Before(starts: seq<int>, start: int): seq<int> {
    if starts == [] then []
    else if starts[|starts| - 1] < start then starts
    else Before(starts[..|starts| - 1], start)
  }

  /** The windows that are reported: all of them, or those before the one still forming, if it is there. */
  function Reported(starts: seq<int>, forming: int, dropForming: bool): seq<int> {
    if dropForming && forming in starts then Before(starts, forming) else starts
  }

  lemma {:induction false} StartsArePriced(slots: seq<Slot>, start: int)
    requires start in Starts(slots)
    ensures Values(Prices(Group(slots, start))) != []
  {
    var n := |slots| - 1;
    var group, rest := Group(slots, start), Group(slots[..n], start);
    if start in Starts(slots[..n]) {
      StartsArePriced(slots[..n], start);
    }
    if group != rest {
      assert Prices(group)[..|group| - 1] == Prices(rest);
    }
  }

  function BarAt(slots: seq<Slot>, k: nat): Bar
    requires k < |Starts(slots)|
  {
    var starts := Starts(slots);
    StartsArePriced(slots, starts[k]);
    MakeBar(Group(slots, starts[k]), starts[k], VolumeAt(Totals(slots, starts), k))
  }

  lemma {:induction false} BeforeIsPrefix(starts: seq<int>, start: int)
    ensures Before(starts, start) <= starts
  {
    if starts != [] && starts[|starts| - 1] >= start {
      BeforeIsPrefix(starts[..|starts| - 1], start);
    }
  }

  function BarsOf(slots: seq<Slot>, forming: int, dropForming: bool): seq<Bar> {
    BeforeIsPrefix(Starts(slots), forming);
    seq(|Reported(Starts(slots), forming, dropForming)|,
        k requires 0 <= k < |Reported(Starts(slots), forming, dropForming)| => BarAt(slots, k))
  }

  function Bars(ticks: seq<Tick>, period: int, dropForming: bool): seq<Bar>
    requires period > 0
  {
    if ticks == [] then []
    else
      BarsOf(Place(ticks, Midnight(ticks[0].at), period), FloorTo(period, ticks[|ticks| - 1].at), dropForming)
  }

  // ------------------------------------------- completed bars never change later

  predicate Ascending(starts: seq<int>) {
    forall i, j :: 0 <= i < j < |starts| ==> starts[i] < starts[j]
  }

  lemma {:induction false} FrontClimbs(slots: seq<Slot>)
    requires Climbing(slots) && slots != []
    ensures var n := |slots| - 1;
            Climbing(slots[..n]) && (n > 0 ==> slots[..n][n - 1].window <= slots[n].window)
  {
  }

  lemma {:induction false} AscendsFurther(starts: seq<int>, s: int)
    requires Ascending(starts) && (starts != [] ==> starts[|starts| - 1] < s)
    ensures Ascending(starts + [s])
  {
  }

  lemma {:induction false} StartsGrow(slots: seq<Slot>)
    requires slots != []
    ensures var w, rest := slots[|slots| - 1].window, Starts(slots[..|slots| - 1]);
            Starts(slots) == rest || (Starts(slots) == rest + [w] && (rest != [] ==> rest[|rest| - 1] != w))
    ensures Starts([]) == []
  {
  }

  lemma {:induction false} StartsAscend(slots: seq<Slot>)
    requires Climbing(slots)
    ensures Ascending(Starts(slots))
    ensures slots != [] ==> forall s :: s in Starts(slots) ==> s <= slots[|slots| - 1].window
  {
    if slots == [] {
      assert Starts(slots) == [];
    } else {
      hide Climbing, Ascending, Starts;
      var n := |slots| - 1;
      FrontClimbs(slots);
      StartsAscend(slots[..n]);
      StartsGrow(slots);
      var rest := Starts(slots[..n]);
      if rest != [] {
        assert n > 0 && rest[|rest| - 1] in rest;
      }
      if Starts(slots) != rest {
        AscendsFurther(rest, slots[n].window);
      }
    }
  }

  lemma {:induction false} StartsOfPrefix(slots: seq<Slot>, n: nat)
    requires n <= |slots|
    ensures Starts(slots[..n]) <= Starts(slots)
  {
    if n < |slots| {
      var m := |slots| - 1;
      assert slots[..m][..n] == slots[..n];
      StartsOfPrefix(slots[..m], n);
    } else {
      assert slots[..n] == slots;
    }
  }

  /** A window that closed before some tick gets nothing from that tick on. */
  lemma {:induction false} ClosedWindowsAreFixed(slots: seq<Slot>, n: nat, start: int)
    requires Climbing(slots) && 0 < n <= |slots| && start < slots[n - 1].window
    ensures Group(slots[..n], start) == Group(slots, start)
  {
    if n < |slots| {
      var m := |slots| - 1;
      assert slots[..m][..n] == slots[..n];
      ClosedWindowsAreFixed(slots[..m], n, start);
    } else {
      assert slots[..n] == slots;
    }
  }

  lemma {:induction false} BeforeSplits(starts: seq<int>, start: int)
    requires Ascending(starts)
    ensures var b := Before(starts, start);
            && b <= starts
            && (forall i :: 0 <= i < |b| ==> starts[i] < start)
            && (forall i :: |b| <= i < |starts| ==> starts[i] >= start)
  {
    if starts != [] && starts[|starts| - 1] >= start {
      BeforeSplits(starts[..|starts| - 1], start);
    }
  }

  /** The windows reported are those before the last tick's own. */
  lemma {:induction false} ReportedAreClosed(slots: seq<Slot>)
    requires Climbing(slots) && slots != []
    ensures var forming := slots[|slots| - 1].window;
            Reported(Starts(slots), forming, true) == Before(Starts(slots), forming)
  {
    hide Starts, Climbing, Ascending;
    var starts, forming := Starts(slots), slots[|slots| - 1].window;
    StartsAscend(slots);
    if forming !in starts && starts != [] {
      assert starts[|starts| - 1] in starts;
    }
  }

  lemma ReportedOfPrefix(slots: seq<Slot>, n: nat)
    requires Climbing(slots) && 0 < n <= |slots|
    ensures var early := Before(Starts(slots[..n]), slots[n - 1].window);
            && early <= Before(Starts(slots), slots[|slots| - 1].window)
            && forall k :: 0 <= k < |early| ==> early[k] < slots[n - 1].window
  {
    hide Starts, Before;
    var c, d := slots[n - 1].window, slots[|slots| - 1].window;
    StartsOfPrefix(slots, n);
    StartsAscend(slots[..n]);
    StartsAscend(slots);
    BeforeSplits(Starts(slots[..n]), c);
    BeforeSplits(Starts(slots), d);
    var a, b := Before(Starts(slots[..n]), c), Before(Starts(slots), d);
    forall i | 0 <= i < |a|
      ensures Starts(slots)[i] < d
    {
      assert Starts(slots)[i] == Starts(slots[..n])[i];
    }
    if |b| < |Starts(slots)| {
      assert Starts(slots)[|b|] >= d;
    }
  }

  lemma {:induction false} BarOfPrefix(slots: seq<Slot>, n: nat, k: nat)
    requires Climbing(slots) && 0 < n <= |slots|
    requires k < |Before(Starts(slots[..n]), slots[n - 1].window)|
    ensures k < |Starts(slots[..n])| && k < |Starts(slots)| && BarAt(slots[..n], k) == BarAt(slots, k)
  {
    hide Starts, Group, LastQuote, Before, BarAt, VolumeAt, Climbing;
    StartsOfPrefix(slots, n);
    ReportedOfPrefix(slots, n);
    var early, starts := Starts(slots[..n]), Starts(slots);
    BeforeIsPrefix(early, slots[n - 1].window);
    ClosedWindowsAreFixed(slots, n, starts[k]);
    if k > 0 {
      ClosedWindowsAreFixed(slots, n, starts[k - 1]);
    }
    SameVolume(Totals(slots[..n], early), Totals(slots, starts), k);
    SameBar(slots[..n], slots, k);
  }

  lemma SameBar(a: seq<Slot>, b: seq<Slot>, k: nat)
    requires k < |Starts(a)| && k < |Starts(b)| && Starts(a)[k] == Starts(b)[k]
    requires Group(a, Starts(a)[k]) == Group(b, Starts(b)[k])
    requires VolumeAt(Totals(a, Starts(a)), k) == VolumeAt(Totals(b, Starts(b)), k)
    ensures BarAt(a, k) == BarAt(b, k)
  {
  }

  /** A bar's volume depends on its own running total and the one before. */
  lemma SameVolume(a: seq<Option<real>>, b: seq<Option<real>>, k: nat)
    requires k < |a| && k < |b| && a[k] == b[k] && (k > 0 ==> a[k - 1] == b[k - 1])
    ensures VolumeAt(a, k) == VolumeAt(b, k)
  {
  }

  lemma {:induction false} SlotBarsNeverChange(slots: seq<Slot>, n: nat)
    requires Climbing(slots) && 0 < n <= |slots|
    ensures BarsOf(slots[..n], slots[n - 1].window, true) <= BarsOf(slots, slots[|slots| - 1].window, true)
  {
    ReportedAreClosed(slots[..n]);
    ReportedAreClosed(slots);
    ReportedOfPrefix(slots, n);
    forall k | 0 <= k < |Before(Starts(slots[..n]), slots[n - 1].window)|
      ensures k < |Starts(slots[..n])| && k < |Starts(slots)| && BarAt(slots[..n], k) == BarAt(slots, k)
    {
      BarOfPrefix(slots, n, k);
    }
  }

  lemma {:induction false} PlaceOfPrefix(ticks: seq<Tick>, n: nat, origin: int, period: int)
    requires period > 0 && n <= |ticks|
    ensures Place(ticks[..n], origin, period) == Place(ticks, origin, period)[..n]
  {
  }

  lemma {:induction false} BarsOfAlignedTicks(ticks: seq<Tick>, origin: int, period: int)
    requires period > 0 && ticks != [] && origin == Midnight(ticks[0].at) && origin % period == 0
    ensures var slots := Place(ticks, origin, period);
            Bars(ticks, period, true) == BarsOf(slots, slots[|slots| - 1].window, true)
  {
    hide BarsOf, Midnight, Window, FloorTo;
    AlignedWindows(origin, period, ticks[|ticks| - 1].at);
  }

  /** The bars of the first `n` ticks are the first bars of all of them, if floor() agrees with the windows. */
  lemma {:induction false} PublishedBarsNeverChange(ticks: seq<Tick>, n: nat, period: int)
    requires period > 0 && Ordered(ticks) && n <= |ticks|
    requires ticks != [] ==> Midnight(ticks[0].at) % period == 0
    ensures Bars(ticks[..n], period, true) <= Bars(ticks, period, true)
  {
    if n > 0 {
      var origin := Midnight(ticks[0].at);
      hide BarsOf, Bars, Midnight, Window, FloorTo, Climbing, Ordered, Place;
      var slots := Place(ticks, origin, period);
      TimeOrderClimbs(ticks, origin, period);
      PlaceOfPrefix(ticks, n, origin, period);
      BarsOfAlignedTicks(ticks[..n], origin, period);
      BarsOfAlignedTicks(ticks, origin, period);
      SlotBarsNeverChange(slots, n);
    }
  }

  lemma TwoTicksOneWindow(day: int, period: int)
    requires period > 0 && day % DAY == 0 && day % period != 0
    ensures var tick := Tick(day, Some(1.0), None, None, None, None, None, None);
            var ticks := [tick, tick.(price := Some(2.0))];
            !(Bars(ticks[..1], period, true) <= Bars(ticks, period, true))
  {
    var tick := Tick(day, Some(1.0), None, None, None, None, None, None);
    var ticks := [tick, tick.(price := Some(2.0))];
    assert Midnight(day) == day && FloorTo(period, day) != day && Window(day, period, day) == day;
    var slots := Place(ticks, day, period);
    assert slots[..1] == Place(ticks[..1], day, period);
    TwoPrices(slots, ticks, day);
    hide Place, Values, Prices, BarAt, Starts;
    assert Bars(ticks[..1], period, true)[0] == BarAt(slots[..1], 0);
    assert Bars(ticks, period, true)[0] == BarAt(slots, 0);
  }

  lemma {:induction false} TwoPrices(slots: seq<Slot>, ticks: seq<Tick>, day: int)
    requires |slots| == 2 && slots[0].window == day && slots[1].window == day
    requires slots[0].tick.price == Some(1.0) && slots[1].tick.price == Some(2.0)
    requires |ticks| == 2 && ticks[0] == slots[0].tick && ticks[1] == slots[1].tick
    ensures |Starts(slots[..1])| == 1 && Starts(slots[..1])[0] == day && |Starts(slots)| == 1 && Starts(slots)[0] == day
    ensures BarAt(slots[..1], 0).close == 1.0 && BarAt(slots, 0).close == 2.0
  {
    var one := slots[..1];
    assert one[..0] == [];
    OnePrice(ticks[0], 1.0);
    assert Group(one, day) == [ticks[0]] && Group(slots, day) == ticks;
    assert Prices(ticks)[..1] == Prices([ticks[0]]);
    assert Values(Prices(ticks)) == [1.0, 2.0];
  }

  lemma OnePrice(tick: Tick, price: real)
    requires tick.price == Some(price)
    ensures Prices([tick]) == [Some(price)] && Values(Prices([tick])) == [price]
  {
    assert Prices([tick])[..0] == [];
  }

  ghost predicate StableFrom(day: int, period: int)
    requires period > 0
  {
    forall ticks: seq<Tick>, n: nat ::
      Ordered(ticks) && 0 < n <= |ticks| && Midnight(ticks[0].at) == day ==>
        Bars(ticks[..n], period, true) <= Bars(ticks, period, true)
  }

  /** Streams that begin on a given day keep their published bars exactly when that midnight is a multiple of the
      period, as it always is for a period that divides the day. Otherwise floor() misses the forming window. */
  lemma StableExactlyWhenAligned(day: int, period: int)
    requires period > 0 && day % DAY == 0
    ensures StableFrom(day, period) <==> day % period == 0
    ensures DAY % period == 0 ==> day % period == 0
  {
    if day % period == 0 {
      forall ticks: seq<Tick>, n: nat | Ordered(ticks) && 0 < n <= |ticks| && Midnight(ticks[0].at) == day
        ensures Bars(ticks[..n], period, true) <= Bars(ticks, period, true)
      {
        PublishedBarsNeverChange(ticks, n, period);
      }
    } else {
      TwoTicksOneWindow(day, period);
      var tick := Tick(day, Some(1.0), None, None, None, None, None, None);
      var ticks := [tick, tick.(price := Some(2.0))];
      assert Ordered(ticks) && Midnight(ticks[0].at) == day;
    }
    if DAY % period == 0 {
      var q, d := day / DAY, DAY / period;
      assert day == DAY * q && DAY == period * d;
      assert day == period * (d * q);
      Unique(day, period, d * q, 0);
    }
  }

  // ------------------------------------------------- what a bar says of its ticks

  /** Tick `i` has a price and falls in the window. */
  predicate Counts(slots: seq<Slot>, i: int, start: int) {
    0 <= i < |slots| && slots[i].window == start && slots[i].tick.price.Some?
  }

  ghost predicate FirstPrice(slots: seq<Slot>, start: int, p: real) {
    exists i ::
      && Counts(slots, i, start) && slots[i].tick.price.value == p
      && forall j :: 0 <= j < i ==> !Counts(slots, j, start)
  }

  ghost predicate LastPrice(slots: seq<Slot>, start: int, p: real) {
    exists i ::
      && Counts(slots, i, start) && slots[i].tick.price.value == p
      && forall j :: i < j ==> !Counts(slots, j, start)
  }

  function PricesIn(slots: seq<Slot>, start: int): seq<real> {
    Values(Prices(Group(slots, start)))
  }

  lemma PricesInGrow(slots: seq<Slot>, start: int)
    requires slots != []
    ensures var n := |slots| - 1;
            PricesIn(slots, start)
            == PricesIn(slots[..n], start) + if Counts(slots, n, start) then [slots[n].tick.price.value] else []
  {
    var n := |slots| - 1;
    var group, rest := Group(slots, start), Group(slots[..n], start);
    if slots[n].window == start {
      assert Prices(group)[..|group| - 1] == Prices(rest);
    }
  }

  lemma {:induction false} PricesInWindow(slots: seq<Slot>, start: int)
    ensures forall i :: Counts(slots, i, start) ==> slots[i].tick.price.value in PricesIn(slots, start)
    ensures forall p :: p in PricesIn(slots, start) ==>
              exists i :: Counts(slots, i, start) && slots[i].tick.price.value == p
  {
    if slots != [] {
      var n, ps := |slots| - 1, PricesIn(slots, start);
      PricesInGrow(slots, start);
      PricesInWindow(slots[..n], start);
      forall i | Counts(slots, i, start)
        ensures slots[i].tick.price.value in ps
      {
        assert i < n ==> Counts(slots[..n], i, start);
      }
      forall p | p in ps
        ensures exists i :: Counts(slots, i, start) && slots[i].tick.price.value == p
      {
        if p in PricesIn(slots[..n], start) {
          var i :| Counts(slots[..n], i, start) && slots[..n][i].tick.price.value == p;
          assert Counts(slots, i, start);
        }
      }
    }
  }

  lemma {:induction false} PricesInOrder(slots: seq<Slot>, start: int)
    requires PricesIn(slots, start) != []
    ensures FirstPrice(slots, start, PricesIn(slots, start)[0])
    ensures LastPrice(slots, start, PricesIn(slots, start)[|PricesIn(slots, start)| - 1])
  {
    assert slots != [];
    hide PricesIn;
    var n, ps := |slots| - 1, PricesIn(slots, start);
    PricesInGrow(slots, start);
    var rest := slots[..n];
    if PricesIn(rest, start) == [] {
      forall j | 0 <= j < n
        ensures !Counts(slots, j, start)
      {
        PricesInWindow(rest, start);
        assert Counts(slots, j, start) ==> Counts(rest, j, start);
      }
    } else {
      PricesInOrder(rest, start);
      var i :| Counts(rest, i, start) && rest[i].tick.price.value == ps[0]
               && forall j :: 0 <= j < i ==> !Counts(rest, j, start);
      forall j | 0 <= j < i
        ensures !Counts(slots, j, start)
      {
        assert !Counts(rest, j, start);
      }
      if !Counts(slots, n, start) {
        var l :| Counts(rest, l, start) && rest[l].tick.price.value == ps[|ps| - 1]
                 && forall j :: l < j ==> !Counts(rest, j, start);
        forall j | l < j
          ensures !Counts(slots, j, start)
        {
          assert !Counts(rest, j, start);
        }
        assert Counts(slots, l, start);
      }
      assert Counts(slots, i, start);
    }
    if Counts(slots, n, start) {
      assert slots[n].tick.price.value == ps[|ps| - 1];
    }
  }

  /** The bar opens at the first price of its window, closes at the last, and spans exactly its prices. */
  ghost predicate Coherent(slots: seq<Slot>, bar: Bar) {
    && bar.low <= bar.open <= bar.high && bar.low <= bar.close <= bar.high
    && Spans(slots, bar)
    && FirstPrice(slots, bar.start, bar.open) && LastPrice(slots, bar.start, bar.close)
  }

  ghost predicate Spans(slots: seq<Slot>, bar: Bar) {
    && (forall i :: Counts(slots, i, bar.start) ==> bar.low <= slots[i].tick.price.value <= bar.high)
    && (exists i :: Counts(slots, i, bar.start) && slots[i].tick.price.value == bar.high)
    && (exists i :: Counts(slots, i, bar.start) && slots[i].tick.price.value == bar.low)
  }

  lemma BarOfPrices(group: seq<Tick>, start: int, volume: Option<real>)
    requires Values(Prices(group)) != []
    ensures var bar, prices := MakeBar(group, start, volume), Values(Prices(group));
            && bar.start == start && bar.open == prices[0] && bar.close == prices[|prices| - 1]
            && bar.low <= bar.open <= bar.high && bar.low <= bar.close <= bar.high
            && bar.high == Highest(prices) && bar.low == Lowest(prices)
  {
    var prices := Values(Prices(group));
    assert prices[0] in prices && prices[|prices| - 1] in prices;
  }

  lemma {:induction false} BarsAreCoherent(slots: seq<Slot>, k: nat)
    requires k < |Starts(slots)|
    ensures Coherent(slots, BarAt(slots, k)) && BarAt(slots, k).start == Starts(slots)[k]
  {
    BarAtSpansPrices(slots, k);
    var bar := BarAt(slots, k);
    PricesInOrder(slots, bar.start);
    BarSpans(slots, bar);
  }

  lemma BarAtSpansPrices(slots: seq<Slot>, k: nat)
    requires k < |Starts(slots)|
    ensures PricesIn(slots, Starts(slots)[k]) != []
    ensures var bar, prices := BarAt(slots, k), PricesIn(slots, Starts(slots)[k]);
            && bar.start == Starts(slots)[k] && bar.open == prices[0] && bar.close == prices[|prices| - 1]
            && bar.low <= bar.open <= bar.high && bar.low <= bar.close <= bar.high
            && bar.high == Highest(prices) && bar.low == Lowest(prices)
  {
    var start := Starts(slots)[k];
    StartsArePriced(slots, start);
    BarOfPrices(Group(slots, start), start, VolumeAt(Totals(slots, Starts(slots)), k));
  }

  function Counted(slots: seq<Slot>, start: int): set<nat> {
    set i: nat | i < |slots| && Counts(slots, i, start)
  }

  lemma {:induction false} PricesAreCounted(slots: seq<Slot>, start: int)
    ensures |PricesIn(slots, start)| == |Counted(slots, start)|
  {
    if slots != [] {
      PricesInGrow(slots, start);
      hide PricesIn;
      var n := |slots| - 1;
      PricesAreCounted(slots[..n], start);
      var rest := Counted(slots[..n], start);
      assert n !in rest;
      assert Counted(slots, start) == if Counts(slots, n, start) then rest + {n} else rest;
    } else {
      assert Counted(slots, start) == {};
    }
  }

  /** A bar says how many priced ticks its window has. */
  lemma BarsCountTheirTicks(slots: seq<Slot>, k: nat)
    requires k < |Starts(slots)|
    ensures BarAt(slots, k).count == |set i: nat | i < |slots| && Counts(slots, i, Starts(slots)[k])|
  {
    StartsArePriced(slots, Starts(slots)[k]);
    PricesAreCounted(slots, Starts(slots)[k]);
  }

  lemma BarSpans(slots: seq<Slot>, bar: Bar)
    requires PricesIn(slots, bar.start) != []
    requires bar.high == Highest(PricesIn(slots, bar.start)) && bar.low == Lowest(PricesIn(slots, bar.start))
    ensures Spans(slots, bar)
  {
    PricesInWindow(slots, bar.start);
  }

  /** The windows with a bar are those with a priced tick, and (StartsAscend) each has one bar. */
  lemma {:induction false} EveryPriceIsInABar(slots: seq<Slot>, start: int)
    requires Climbing(slots)
    ensures start in Starts(slots) <==> exists i :: Counts(slots, i, start)
  {
    if slots != [] {
      var n, rest := |slots| - 1, Starts(slots[..|slots| - 1]);
      EveryPriceIsInABar(slots[..n], start);
      if i :| Counts(slots[..n], i, start) {
        assert Counts(slots, i, start);
      } else if Counts(slots, n, start) {
        assert start in Starts(slots);
      } else {
        forall i | Counts(slots, i, start)
          ensures false
        {
          assert Counts(slots[..n], i, start);
        }
      }
    }
  }

  /** On ticks in time order: the bars ascend, and each is coherent with the ticks of its own window. */
  lemma BarsDescribeTheirTicks(ticks: seq<Tick>, period: int, dropForming: bool)
    requires period > 0 && Ordered(ticks) && ticks != []
    ensures var bars, slots := Bars(ticks, period, dropForming), Place(ticks, Midnight(ticks[0].at), period);
            && (forall k :: 0 <= k < |bars| ==> Coherent(slots, bars[k]))
            && (forall j, k :: 0 <= j < k < |bars| ==> bars[j].start < bars[k].start)
  {
    var bars, slots := Bars(ticks, period, dropForming), Place(ticks, Midnight(ticks[0].at), period);
    TimeOrderClimbs(ticks, Midnight(ticks[0].at), period);
    StartsAscend(slots);
    BeforeIsPrefix(Starts(slots), FloorTo(period, ticks[|ticks| - 1].at));
    forall k | 0 <= k < |bars|
      ensures Coherent(slots, bars[k]) && bars[k].start == Starts(slots)[k]
    {
      BarsAreCoherent(slots, k);
    }
  }

  /** A tick's window begins no later than the tick and less than a period before, a whole number of periods from the
      midnight the windows are counted from. */
  lemma WindowHoldsItsTick(origin: int, period: int, at: int)
    requires period > 0
    ensures Window(origin, period, at) <= at < Window(origin, period, at) + period
    ensures (Window(origin, period, at) - origin) % period == 0
    ensures Midnight(at) <= at < Midnight(at) + 86400 && Midnight(at) % 86400 == 0
  {
    WholePeriods(at - origin, period);
    WholePeriods(at, DAY);
  }

  lemma WholePeriods(x: int, p: int)
    requires p > 0
    ensures (x - x % p) % p == 0 && 0 <= x % p < p
  {
    assert x - x % p == p * (x / p);
    Unique(p * (x / p), p, x / p, 0);
  }

  predicate HasBar(bars: seq<Bar>, w: int) {
    exists k :: 0 <= k < |bars| && bars[k].start == w
  }

  lemma BarStarts(slots: seq<Slot>, forming: int, dropForming: bool)
    ensures var bars, reported := BarsOf(slots, forming, dropForming), Reported(Starts(slots), forming, dropForming);
            |bars| == |reported| && forall k :: 0 <= k < |bars| ==> bars[k].start == reported[k]
  {
    BeforeIsPrefix(Starts(slots), forming);
  }

  /** Which bars there are: one for every window with a priced tick, and where the forming one is to be left out and is
      among them, for every such window before it. No other window has one, and no such window is passed over. */
  lemma {:induction false} NoWindowIsPassedOver(ticks: seq<Tick>, period: int, dropForming: bool, w: int)
    requires period > 0 && Ordered(ticks) && ticks != []
    ensures var slots, forming := Place(ticks, Midnight(ticks[0].at), period), FloorTo(period, ticks[|ticks| - 1].at);
            HasBar(Bars(ticks, period, dropForming), w) <==>
              && (exists i :: Counts(slots, i, w))
              && (!dropForming || w < forming || !exists i :: Counts(slots, i, forming))
  {
    var slots, forming := Place(ticks, Midnight(ticks[0].at), period), FloorTo(period, ticks[|ticks| - 1].at);
    hide Place, FloorTo, Midnight, Counts, BarsOf, Starts, BarAt;
    TimeOrderClimbs(ticks, Midnight(ticks[0].at), period);
    EveryPriceIsInABar(slots, w);
    EveryPriceIsInABar(slots, forming);
    BarStarts(slots, forming, dropForming);
    StartsAscend(slots);
    BeforeSplits(Starts(slots), forming);
    var starts, reported := Starts(slots), Reported(Starts(slots), forming, dropForming);
    hide Bars, Reported, Before, Ascending;
    ReportedAre(starts, forming, dropForming, w);
    var bars := BarsOf(slots, forming, dropForming);
    BarsAre(ticks, period, dropForming);
    if HasBar(bars, w) {
      var k :| 0 <= k < |bars| && bars[k].start == w;
      assert reported[k] == w;
    }
    if w in reported {
      var k :| 0 <= k < |reported| && reported[k] == w;
      assert bars[k].start == w;
    }
  }

  lemma BarsAre(ticks: seq<Tick>, period: int, dropForming: bool)
    requires period > 0 && ticks != []
    ensures Bars(ticks, period, dropForming) ==
              BarsOf(Place(ticks, Midnight(ticks[0].at), period), FloorTo(period, ticks[|ticks| - 1].at), dropForming)
  {
  }

  lemma ReportedAre(starts: seq<int>, forming: int, dropForming: bool, w: int)
    requires Ascending(starts)
    ensures w in Reported(starts, forming, dropForming) <==>
              w in starts && (!dropForming || forming !in starts || w < forming)
  {
    BeforeSplits(starts, forming);
    var b := Before(starts, forming);
    if w in starts {
      var i :| 0 <= i < |starts| && starts[i] == w;
      assert i < |b| ==> b[i] == w;
    }
  }

  predicate Quoted(slots: seq<Slot>, i: int, start: int, q: Quote) {
    0 <= i < |slots| && slots[i].window == start && QuoteOf(slots[i].tick, q).Some?
  }

  ghost predicate LastValue(slots: seq<Slot>, start: int, q: Quote, v: Option<real>) {
    if v.None? then forall i :: !Quoted(slots, i, start, q)
    else
      exists i ::
        && Quoted(slots, i, start, q) && QuoteOf(slots[i].tick, q) == v
        && forall j :: i < j ==> !Quoted(slots, j, start, q)
  }

  lemma {:induction false} LastQuoteGrows(group: seq<Tick>, tick: Tick, q: Quote)
    ensures LastQuote(group + [tick], q) == if QuoteOf(tick, q).Some? then QuoteOf(tick, q) else LastQuote(group, q)
  {
    var few := seq(|group|, i requires 0 <= i < |group| => QuoteOf(group[i], q));
    var more := group + [tick];
    var all := seq(|more|, i requires 0 <= i < |more| => QuoteOf(more[i], q));
    assert all[..|all| - 1] == few;
  }

  /** The bar of the window of the newest tick carries what that tick says: its quotes, its counter and its price, each
      if it has one. */
  lemma NewestTickIsCarried(slots: seq<Slot>, k: nat)
    requires slots != [] && k < |Starts(slots)| && slots[|slots| - 1].window == Starts(slots)[k]
    ensures var tick, bar := slots[|slots| - 1].tick, BarAt(slots, k);
            && (tick.bid.Some? ==> bar.bid == tick.bid) && (tick.ask.Some? ==> bar.ask == tick.ask)
            && (tick.last.Some? ==> bar.last == tick.last) && (tick.lastSize.Some? ==> bar.lastSize == tick.lastSize)
            && (tick.vwap.Some? ==> bar.vwap == tick.vwap)
            && (tick.volume.Some? ==> Totals(slots, Starts(slots))[k] == tick.volume)
            && (tick.price.Some? ==> bar.close == tick.price.value)
  {
    hide LastQuote, Group, Starts, VolumeAt, Highest, Lowest, Values, Prices;
    var start := Starts(slots)[k];
    forall q: Quote
      ensures QuoteOf(slots[|slots| - 1].tick, q).Some? ==>
                LastQuote(Group(slots, start), q) == QuoteOf(slots[|slots| - 1].tick, q)
    {
      NewestQuote(slots, start, q);
    }
    NewestPrice(slots, start);
    StartsArePriced(slots, start);
  }

  lemma {:induction false} NewestQuote(slots: seq<Slot>, start: int, q: Quote)
    requires slots != [] && slots[|slots| - 1].window == start
    ensures var quote := QuoteOf(slots[|slots| - 1].tick, q);
            quote.Some? ==> LastQuote(Group(slots, start), q) == quote
  {
    LastQuoteGrows(Group(slots[..|slots| - 1], start), slots[|slots| - 1].tick, q);
  }

  lemma {:induction false} NewestPrice(slots: seq<Slot>, start: int)
    requires slots != [] && slots[|slots| - 1].window == start
    ensures var price, prices := slots[|slots| - 1].tick.price, Values(Prices(Group(slots, start)));
            price.Some? ==> prices != [] && prices[|prices| - 1] == price.value
  {
    var front, tick := Group(slots[..|slots| - 1], start), slots[|slots| - 1].tick;
    assert Group(slots, start) == front + [tick];
    assert Prices(front + [tick])[..|front|] == Prices(front);
  }

  /** Each quote a bar carries, and the counter its volume is taken from, is the last one of its window. */
  lemma {:induction false} QuotesAreLast(slots: seq<Slot>, start: int, q: Quote)
    ensures LastValue(slots, start, q, LastQuote(Group(slots, start), q))
  {
    if slots != [] {
      hide LastQuote;
      var n := |slots| - 1;
      QuotesAreLast(slots[..n], start, q);
      var v := LastQuote(Group(slots[..n], start), q);
      LastQuoteGrows(Group(slots[..n], start), slots[n].tick, q);
      forall i | 0 <= i < n
        ensures Quoted(slots, i, start, q) <==> Quoted(slots[..n], i, start, q)
      {
      }
      if Quoted(slots, n, start, q) {
        assert forall j :: n < j ==> !Quoted(slots, j, start, q);
      } else if v.Some? {
        var i :| Quoted(slots[..n], i, start, q) && QuoteOf(slots[..n][i].tick, q) == v
                 && forall j :: i < j ==> !Quoted(slots[..n], j, start, q);
        assert Quoted(slots, i, start, q);
      }
    } else {
      assert LastQuote([], q).None?;
    }
  }

  lemma {:induction false} BarsCarryLastQuotes(slots: seq<Slot>, k: nat)
    requires k < |Starts(slots)|
    ensures var bar := BarAt(slots, k);
            && LastValue(slots, bar.start, Vwap, bar.vwap) && LastValue(slots, bar.start, Bid, bar.bid)
            && LastValue(slots, bar.start, Ask, bar.ask) && LastValue(slots, bar.start, Last, bar.last)
            && LastValue(slots, bar.start, LastSize, bar.lastSize)
  {
    hide LastQuote, LastValue, Group, Starts, VolumeAt, Prices, Values, Highest, Lowest;
    var start := Starts(slots)[k];
    StartsArePriced(slots, start);
    forall q
      ensures LastValue(slots, start, q, LastQuote(Group(slots, start), q))
    {
      QuotesAreLast(slots, start, q);
    }
  }

  // ------------------------------------------------------------ volume is conserved

  function Or0(v: Option<real>): real {
    if v.Some? then v.value else 0.0
  }

  function Traded(bars: seq<Bar>): real {
    if bars == [] then 0.0 else Traded(bars[..|bars| - 1]) + Or0(bars[|bars| - 1].volume)
  }

  function Volumes(totals: seq<Option<real>>): real {
    if totals == [] then 0.0 else Volumes(totals[..|totals| - 1]) + Or0(VolumeAt(totals, |totals| - 1))
  }

  /** The running total last seen. */
  function Known(totals: seq<Option<real>>): real {
    if totals == [] then 0.0
    else if totals[|totals| - 1].Some? then totals[|totals| - 1].value
    else Known(totals[..|totals| - 1])
  }

  predicate FallsAt(totals: seq<Option<real>>, j: nat) {
    j < |totals| && totals[j].Some? && totals[j].value < Known(totals[..j])
  }

  /** The counter goes on after a bar without one: the bar before it cannot be told from a reset. */
  predicate ResumesAt(totals: seq<Option<real>>, j: nat) {
    0 < j < |totals| && totals[j].Some? && totals[j - 1].None? && totals[j].value >= Known(totals[..j])
  }

  /** The sum, over the falls of the counter, of what it stood at before. */
  function Resets(totals: seq<Option<real>>): real {
    if totals == [] then 0.0
    else
      var n := |totals| - 1;
      Resets(totals[..n]) + if FallsAt(totals, n) then Known(totals[..n]) else 0.0
  }

  function CountedTwice(totals: seq<Option<real>>): real {
    if totals == [] then 0.0
    else
      var n := |totals| - 1;
      CountedTwice(totals[..n]) + if ResumesAt(totals, n) then Known(totals[..n]) else 0.0
  }

  /** For every run of the counter, with resets and gaps: what the bars add up to is where the counter stands, plus
      what it stood at before each reset, plus what is counted again after each gap. */
  lemma {:induction false} VolumesAddUp(totals: seq<Option<real>>)
    ensures Volumes(totals) == Known(totals) + Resets(totals) + CountedTwice(totals)
  {
    if totals != [] {
      var n := |totals| - 1;
      VolumesAddUp(totals[..n]);
      if n > 0 && totals[n - 1].Some? {
        assert Known(totals[..n]) == totals[n - 1].value;
      }
    }
  }

  lemma {:induction false} NothingCountedTwice(totals: seq<Option<real>>)
    requires forall j :: 0 <= j < |totals| && totals[j].Some? ==> totals[j].value >= 0.0
    ensures Known(totals) >= 0.0 && CountedTwice(totals) >= 0.0
    ensures CountedTwice(totals) == 0.0 <==> forall j: nat :: ResumesAt(totals, j) ==> Known(totals[..j]) == 0.0
    ensures forall j :: 0 <= j < |totals| ==> Or0(VolumeAt(totals, j)) >= 0.0
  {
    if totals != [] {
      var n := |totals| - 1;
      var rest := totals[..n];
      NothingCountedTwice(rest);
      forall j | 0 <= j < n
        ensures rest[..j] == totals[..j] && (ResumesAt(rest, j) <==> ResumesAt(totals, j))
      {
      }
      if CountedTwice(rest) == 0.0 && (ResumesAt(totals, n) ==> Known(rest) == 0.0) {
        forall j: nat | ResumesAt(totals, j)
          ensures Known(totals[..j]) == 0.0
        {
          assert j < n ==> ResumesAt(rest, j) && Known(rest[..j]) == 0.0;
        }
      } else if CountedTwice(rest) != 0.0 {
        var j: nat :| ResumesAt(rest, j) && Known(rest[..j]) != 0.0;
        assert ResumesAt(totals, j) && rest[..j] == totals[..j];
      }
    }
  }

  lemma {:induction false} TradedIsVolumes(bars: seq<Bar>, totals: seq<Option<real>>)
    requires |bars| == |totals|
    requires forall k :: 0 <= k < |bars| ==> bars[k].volume == VolumeAt(totals, k)
    ensures Traded(bars) == Volumes(totals)
  {
    if bars != [] {
      var n := |bars| - 1;
      TradedIsVolumes(bars[..n], totals[..n]);
    }
  }

  /** The volumes that the bars report. */
  lemma {:induction false} VolumesOfBars(slots: seq<Slot>, forming: int, dropForming: bool, n: nat)
    requires n <= |BarsOf(slots, forming, dropForming)|
    ensures n <= |Starts(slots)|
    ensures Traded(BarsOf(slots, forming, dropForming)[..n]) == Volumes(Totals(slots, Starts(slots))[..n])
  {
    BeforeIsPrefix(Starts(slots), forming);
    var totals, bars := Totals(slots, Starts(slots)), BarsOf(slots, forming, dropForming);
    forall k | 0 <= k < n
      ensures bars[..n][k].volume == VolumeAt(totals[..n], k)
    {
      SameVolume(totals, totals[..n], k);
    }
    TradedIsVolumes(bars[..n], totals[..n]);
  }

  /** Up to any bar: no volume is lost, and none is counted twice unless some bar has no running total. */
  lemma VolumeIsConserved(slots: seq<Slot>, forming: int, dropForming: bool, n: nat)
    requires n <= |BarsOf(slots, forming, dropForming)|
    ensures n <= |Starts(slots)|
    ensures var totals := Totals(slots, Starts(slots))[..n];
            && Traded(BarsOf(slots, forming, dropForming)[..n]) == Known(totals) + Resets(totals) + CountedTwice(totals)
            && ((forall k :: 0 <= k < n ==> totals[k].Some?) ==> CountedTwice(totals) == 0.0)
  {
    VolumesOfBars(slots, forming, dropForming, n);
    var totals := Totals(slots, Starts(slots))[..n];
    VolumesAddUp(totals);
    if forall k :: 0 <= k < n ==> totals[k].Some? {
      WithoutGaps(totals);
    }
  }

  lemma {:induction false} WithoutGaps(totals: seq<Option<real>>)
    requires forall k :: 0 <= k < |totals| ==> totals[k].Some?
    ensures CountedTwice(totals) == 0.0
  {
    if totals != [] {
      WithoutGaps(totals[..|totals| - 1]);
    }
  }

  /** The counter at the end of a window is one that some tick of it has. */
  lemma TotalsAreCounters(slots: seq<Slot>, starts: seq<int>, k: nat)
    requires k < |starts| && Totals(slots, starts)[k].Some?
    ensures exists i :: 0 <= i < |slots| && slots[i].tick.volume == Totals(slots, starts)[k]
  {
    hide LastQuote;
    QuotesAreLast(slots, starts[k], Counter);
    var i :| Quoted(slots, i, starts[k], Counter) && QuoteOf(slots[i].tick, Counter) == Totals(slots, starts)[k];
  }

  /** The same for the bars themselves: with counters that are not negative, the volumes of the first bars add up to
      what was traded, that is to where the counter stands and what it stood at before each reset, if and only if the
      counter never goes on from a positive value after a bar without one. Otherwise they add up to more. */
  lemma BarsCountVolumeOnceExactly(slots: seq<Slot>, forming: int, dropForming: bool, n: nat)
    requires n <= |BarsOf(slots, forming, dropForming)|
    requires forall i :: 0 <= i < |slots| && slots[i].tick.volume.Some? ==> slots[i].tick.volume.value >= 0.0
    ensures n <= |Starts(slots)|
    ensures var totals, traded := Totals(slots, Starts(slots))[..n], Traded(BarsOf(slots, forming, dropForming)[..n]);
            && traded >= Known(totals) + Resets(totals)
            && (traded == Known(totals) + Resets(totals) <==>
                  forall j: nat :: ResumesAt(totals, j) ==> Known(totals[..j]) == 0.0)
  {
    VolumeIsConserved(slots, forming, dropForming, n);
    var totals := Totals(slots, Starts(slots))[..n];
    forall j | 0 <= j < |totals| && totals[j].Some?
      ensures totals[j].value >= 0.0
    {
      TotalsAreCounters(slots, Starts(slots), j);
    }
    NothingCountedTwice(totals);
  }

  /** Three priced ticks a minute apart, with counters 100, none and 130. */
  predicate CounterDropsOut(ticks: seq<Tick>) {
    && |ticks| == 3 && ticks[0].at == 0 && ticks[1].at == 60 && ticks[2].at == 120
    && ticks[0].price.Some? && ticks[1].price.Some? && ticks[2].price.Some?
    && ticks[0].volume == Some(100.0) && ticks[1].volume == None && ticks[2].volume == Some(130.0)
  }

  /** The bars of such ticks report 100, nothing and 130, although 130 was traded in all. */
  lemma MissingCounterCountsTwice(ticks: seq<Tick>)
    requires CounterDropsOut(ticks)
    ensures Ordered(ticks) && Traded(Bars(ticks, 60, false)) == 230.0
  {
    hide Place, FloorTo, Window, Midnight, Starts, Totals, BarsOf, Volumes;
    var slots, forming := Place(ticks, Midnight(ticks[0].at), 60), FloorTo(60, ticks[|ticks| - 1].at);
    FirstMidnight(ticks[0].at);
    MinuteWindow(0, 60, ticks[0].at, 0);
    MinuteWindow(0, 60, ticks[1].at, 1);
    MinuteWindow(0, 60, ticks[2].at, 2);
    MinuteTotals(ticks, slots);
    AllBarsTrade(slots, forming);
    ThreeVolumes(Totals(slots, Starts(slots)));
  }

  lemma MinuteWindow(origin: int, period: int, at: int, k: int)
    requires origin == 0 && period > 0 && at == period * k
    ensures Window(origin, period, at) == at
  {
    Unique(at, period, k, 0);
  }

  lemma FirstMidnight(at: int)
    requires at == 0
    ensures Midnight(at) == 0
  {
    Unique(at, DAY, 0, 0);
  }

  lemma AllBarsTrade(slots: seq<Slot>, forming: int)
    ensures Traded(BarsOf(slots, forming, false)) == Volumes(Totals(slots, Starts(slots)))
  {
    var bars, n := BarsOf(slots, forming, false), |Starts(slots)|;
    VolumesOfBars(slots, forming, false, n);
    assert bars[..n] == bars && Totals(slots, Starts(slots))[..n] == Totals(slots, Starts(slots));
  }

  lemma MinuteTotals(ticks: seq<Tick>, slots: seq<Slot>)
    requires CounterDropsOut(ticks) && |slots| == 3
    requires slots[0] == Slot(0, ticks[0]) && slots[1] == Slot(60, ticks[1]) && slots[2] == Slot(120, ticks[2])
    ensures var totals := Totals(slots, Starts(slots));
            |totals| == 3 && totals[0] == Some(100.0) && totals[1] == None && totals[2] == Some(130.0)
  {
    ThreeWindows(slots);
    LoneQuote(ticks[0]);
    LoneQuote(ticks[1]);
    LoneQuote(ticks[2]);
  }

  lemma LoneQuote(tick: Tick)
    ensures LastQuote([tick], Counter) == tick.volume
  {
    assert LastQuote([], Counter).None?;
    hide LastQuote;
    LastQuoteGrows([], tick, Counter);
    assert [] + [tick] == [tick];
  }

  lemma ThreeWindows(slots: seq<Slot>)
    requires |slots| == 3 && slots[0].window < slots[1].window < slots[2].window
    requires forall i :: 0 <= i < 3 ==> slots[i].tick.price.Some?
    ensures Starts(slots) == [slots[0].window, slots[1].window, slots[2].window]
    ensures forall i :: 0 <= i < 3 ==> Group(slots, slots[i].window) == [slots[i].tick]
  {
    var one, two := slots[..1], slots[..2];
    assert one[..0] == [] && two[..1] == one;
    assert Starts(one) == [slots[0].window] && Starts(two) == [slots[0].window, slots[1].window];
    forall i | 0 <= i < 3
      ensures Group(slots, slots[i].window) == [slots[i].tick]
    {
      assert Group(one, slots[i].window) == if i == 0 then [slots[0].tick] else [];
    }
  }

  lemma ThreeVolumes(totals: seq<Option<real>>)
    requires |totals| == 3 && totals[0] == Some(100.0) && totals[1] == None && totals[2] == Some(130.0)
    ensures Volumes(totals) == 230.0
  {
    var one, two := totals[..1], totals[..2];
    assert one[..0] == [] && two[..1] == one;
    assert Volumes(one) == 100.0 && Volumes(two) == 100.0;
  }
}
