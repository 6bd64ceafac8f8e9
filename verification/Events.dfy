/** Fill annotations and per-strategy totals over the event table (trader/data/event_store.py). */
module Events {
  import opened Common
  import opened Ledger

  datatype Kind = Signal | OrderSubmitted | OrderFilled | OrderCancelled | OrderRejected | RiskGateRejected

  datatype Event = Event(id: int, kind: Kind, fill: Fill, metadata: map<string, Json>)

  const EXCLUDED := "excluded"
  const REASON := "exclude_reason"

  predicate Truthy(j: Json) {
    match j
    case JNull => false
    case JBool(b) => b
    case JNum(n) => n != 0.0
    case JStr(s) => s != ""
    case JList(items) => items != []
    case JObj(fields) => fields != map[]
  }

  predicate IsExcluded(e: Event) {
    EXCLUDED in e.metadata && Truthy(e.metadata[EXCLUDED])
  }

  predicate Counts(e: Event) {
    e.kind == OrderFilled && !IsExcluded(e)
  }

  /** The fills the ledger is computed from. */
  function Kept(events: seq<Event>): seq<Fill> {
    if events == [] then []
    else
      var e := events[|events| - 1];
      if Counts(e) then Kept(events[..|events| - 1]) + [e.fill] else Kept(events[..|events| - 1])
  }

  function Annotated(e: Event, excluded: bool, reason: string): Event {
    if excluded then e.(metadata := e.metadata[EXCLUDED := JBool(true)][REASON := JStr(reason)])
    else e.(metadata := e.metadata - {EXCLUDED, REASON})
  }

  function Marked(events: seq<Event>, ids: seq<int>, excluded: bool, reason: string): (r: seq<Event>)
    ensures |r| == |events|
    ensures forall i :: 0 <= i < |r| ==>
              r[i] == if events[i].id in ids then Annotated(events[i], excluded, reason) else events[i]
  {
    seq(|events|, i requires 0 <= i < |events| =>
      if events[i].id in ids then Annotated(events[i], excluded, reason) else events[i])
  }

  datatype Error = NoSuchEvent(id: int) | NotAFill(id: int)

  predicate Distinct(events: seq<Event>) {
    forall i, j :: 0 <= i < j < |events| ==> events[i].id != events[j].id
  }

  predicate IsFill(events: seq<Event>, id: int) {
    exists i :: 0 <= i < |events| && events[i].id == id && events[i].kind == OrderFilled
  }

  class EventStore {
    /** The table, in the order of its (timestamp, id) index. */
    var events: seq<Event>

    ghost predicate Valid()
      reads this
    {
      Distinct(events)
    }

    /** Each id is its own transaction: ids before the first bad one stay annotated when the call raises. */
    method SetFillExclusion(ids: seq<int>, excluded: bool, reason: string) returns (r: Result<nat, Error>)
      requires Valid()
      modifies this
      ensures Valid()
      ensures r.Ok? <==> forall n :: 0 <= n < |ids| ==> IsFill(old(events), ids[n])
      ensures r.Ok? ==> r.value == |ids| && events == Marked(old(events), ids, excluded, reason)
      ensures r.Err? ==>
                exists n :: 0 <= n < |ids| && ids[n] == r.error.id && !IsFill(old(events), ids[n])
                            && (forall m :: 0 <= m < n ==> IsFill(old(events), ids[m]))
                            && events == Marked(old(events), ids[..n], excluded, reason)
    {
      var updated := 0;
      for n := 0 to |ids|
        invariant updated == n
        invariant events == Marked(old(events), ids[..n], excluded, reason)
        invariant forall m :: 0 <= m < n ==> IsFill(old(events), ids[m])
      {
        var at := Find(events, ids[n]);
        if at.None? {
          assert !IsFill(old(events), ids[n]) by {
            assert forall i :: 0 <= i < |events| ==> events[i].id == old(events)[i].id;
          }
          return Err(NoSuchEvent(ids[n]));
        }
        var i := at.value;
        if events[i].kind != OrderFilled {
          assert !IsFill(old(events), ids[n]) by {
            assert forall j :: 0 <= j < |events| && old(events)[j].id == ids[n] ==> j == i;
          }
          return Err(NotAFill(ids[n]));
        }
        assert IsFill(old(events), ids[n]) by {
          assert old(events)[i].id == ids[n] && old(events)[i].kind == OrderFilled;
        }
        assert ids[..n + 1] == ids[..n] + [ids[n]];
        AnnotatingTwice(old(events)[i], excluded, reason);
        events := events[i := Annotated(events[i], excluded, reason)];
        updated := updated + 1;
        assert forall j :: 0 <= j < |events| && j != i ==> old(events)[j].id != ids[n];
        assert events == Marked(old(events), ids[..n + 1], excluded, reason);
      }
      assert ids[..|ids|] == ids;
      r := Ok(updated);
    }
  }

  /** The primary-key lookup. */
  method Find(events: seq<Event>, id: int) returns (at: Option<nat>)
    ensures at.Some? ==> at.value < |events| && events[at.value].id == id
    ensures at.None? ==> forall i :: 0 <= i < |events| ==> events[i].id != id
  {
    for i := 0 to |events|
      invariant forall j :: 0 <= j < i ==> events[j].id != id
    {
      if events[i].id == id {
        return Some(i);
      }
    }
    at := None;
  }

  lemma AnnotatingTwice(e: Event, excluded: bool, reason: string)
    ensures Annotated(Annotated(e, excluded, reason), excluded, reason) == Annotated(e, excluded, reason)
  {
    var once := Annotated(e, excluded, reason);
    assert Annotated(once, excluded, reason).metadata == once.metadata;
  }

  /** Re-including an excluded fill restores it exactly when it carried neither annotation key before. */
  lemma ReincludingRestores(e: Event, reason: string)
    ensures Annotated(Annotated(e, true, reason), false, "") == e <==> EXCLUDED !in e.metadata && REASON !in e.metadata
  {
    var back := Annotated(Annotated(e, true, reason), false, "");
    assert EXCLUDED !in back.metadata && REASON !in back.metadata;
    if EXCLUDED !in e.metadata && REASON !in e.metadata {
      assert back.metadata == e.metadata;
    }
  }

  lemma {:induction false} KeptAppend(a: seq<Event>, b: seq<Event>)
    ensures Kept(a + b) == Kept(a) + Kept(b)
  {
    if b == [] {
      assert a + b == a;
    } else {
      Split(a, b);
      KeptAppend(a, b[..|b| - 1]);
    }
  }

  /** A fill counts unless its annotation says otherwise, and nothing but fills does. */
  lemma KeptOfOne(e: Event)
    ensures e.kind != OrderFilled ==> Kept([e]) == []
    ensures e.kind == OrderFilled && "excluded" !in e.metadata ==> Kept([e]) == [e.fill]
    ensures e.kind == OrderFilled && "excluded" in e.metadata && e.metadata["excluded"].JBool? ==>
              Kept([e]) == if e.metadata["excluded"].flag then [] else [e.fill]
  {
    assert [e][..0] == [];
  }

  /** An annotation leaves everything else of the event, and every other key, as it was. */
  lemma AnnotationSays(e: Event, reason: string, key: string)
    ensures var on := Annotated(e, true, reason);
            && on == e.(metadata := on.metadata)
            && (if key == "excluded" then key in on.metadata && on.metadata[key] == JBool(true)
                else if key == "exclude_reason" then key in on.metadata && on.metadata[key] == JStr(reason)
                else (key in on.metadata <==> key in e.metadata)
                     && (key in e.metadata ==> on.metadata[key] == e.metadata[key]))
    ensures var off := Annotated(e, false, reason);
            && off == e.(metadata := off.metadata)
            && (key in off.metadata <==> key in e.metadata && key != "excluded" && key != "exclude_reason")
            && (key in off.metadata ==> off.metadata[key] == e.metadata[key])
  {
  }

  /** Within a stretch of the table, the ids pick out every live fill of one key and nothing else. */
  ghost predicate Selects(ids: seq<int>, block: seq<Event>, k: Key) {
    forall e :: e in block ==>
      && (e.id in ids ==> e.kind == OrderFilled && KeyOf(e.fill) == k)
      && (Counts(e) && KeyOf(e.fill) == k ==> e.id in ids)
  }

  ghost predicate Misses(ids: seq<int>, events: seq<Event>) {
    forall e :: e in events ==> e.id !in ids
  }

  lemma {:induction false} MarkedBlockIsWithout(block: seq<Event>, ids: seq<int>, reason: string, k: Key)
    requires Selects(ids, block, k)
    ensures Kept(Marked(block, ids, true, reason)) == Without(Kept(block), k)
  {
    if block != [] {
      var front, e := block[..|block| - 1], block[|block| - 1];
      MarkedBlockIsWithout(front, ids, reason, k);
      var marked := Marked(block, ids, true, reason);
      assert marked[..|marked| - 1] == Marked(front, ids, true, reason);
      if Counts(e) {
        var kept := Kept(block);
        assert kept[..|kept| - 1] == Kept(front) && kept[|kept| - 1] == e.fill;
      }
      assert IsExcluded(Annotated(e, true, reason));
    }
  }

  lemma MarkedAppend(a: seq<Event>, b: seq<Event>, ids: seq<int>, reason: string)
    ensures Marked(a + b, ids, true, reason) == Marked(a, ids, true, reason) + Marked(b, ids, true, reason)
  {
  }

  lemma {:induction false} ExclusionLeavesOut(
    before: seq<Event>, block: seq<Event>, after: seq<Event>, ids: seq<int>, reason: string, k: Key)
    requires Misses(ids, before) && Selects(ids, block, k) && Misses(ids, after)
    ensures Kept(before + block + after) == Kept(before) + Kept(block) + Kept(after)
    ensures Kept(Marked(before + block + after, ids, true, reason))
            == Kept(before) + Without(Kept(block), k) + Kept(after)
  {
    var marked := Marked(block, ids, true, reason);
    MarkedAppend(before, block, ids, reason);
    MarkedAppend(before + block, after, ids, reason);
    assert Marked(before, ids, true, reason) == before && Marked(after, ids, true, reason) == after;
    MarkedBlockIsWithout(block, ids, reason, k);
    KeptAppend(before, block);
    KeptAppend(before + block, after);
    KeptAppend(before, marked);
    KeptAppend(before + marked, after);
  }

  /** Excluding one key's fills in a stretch of the table that this key enters and leaves flat takes out exactly
      the trades those fills close among themselves, and leaves every other trade and every open lot. */
  lemma ExclusionRemovesOnlyTheBlock(
    before: seq<Event>, block: seq<Event>, after: seq<Event>, ids: seq<int>, reason: string, k: Key)
    requires Misses(ids, before) && Selects(ids, block, k) && Misses(ids, after)
    requires k !in LotsAfter(map[], Kept(before)) && k !in LotsAfter(map[], Kept(before) + Kept(block))
    ensures var all := Kept(before + block + after);
            var kept := Kept(Marked(before + block + after, ids, true, reason));
            var head := TradesOf(map[], Kept(before));
            var mid := TradesOf(LotsAfter(map[], Kept(before)), Kept(block));
            var tail := TradesOf(LotsAfter(map[], Kept(before) + Kept(block)), Kept(after));
            && TradesOf(map[], all) == head + mid + tail
            && TradesOf(map[], kept) == head + TradesWithout(mid, k) + tail
            && OfKey(mid, k) == TradesOf(map[], Only(Kept(block), k))
            && LotsAfter(map[], kept) == LotsAfter(map[], all)
  {
    ExclusionLeavesOut(before, block, after, ids, reason, k);
    ExcludingAFlatBlock(Kept(before), Kept(block), Kept(after), k);
  }

  // ------------------------------------------------------ totals per strategy

  datatype Bucket = Bucket(total: real, today: real, trades: nat, wins: nat, open: map<int, Lot>)

  const NO_TRADES := Bucket(0.0, 0.0, 0, 0, map[])

  const DAY := 86400

  function DayOf(at: int): int {
    at / DAY
  }

  function OfStrategy(trades: seq<Trade>, name: string): seq<Trade> {
    if trades == [] then []
    else
      var t := trades[|trades| - 1];
      if t.strategy == name then OfStrategy(trades[..|trades| - 1], name) + [t]
      else OfStrategy(trades[..|trades| - 1], name)
  }

  function OfDay(trades: seq<Trade>, day: int): seq<Trade> {
    if trades == [] then []
    else
      var t := trades[|trades| - 1];
      if DayOf(t.closedAt) == day then OfDay(trades[..|trades| - 1], day) + [t] else OfDay(trades[..|trades| - 1], day)
  }

  function Wins(trades: seq<Trade>): nat {
    if trades == [] then 0
    else Wins(trades[..|trades| - 1]) + if trades[|trades| - 1].pnl > 0.0 then 1 else 0
  }

  /** What a strategy's trades make of its bucket, said of all of them at once. */
  function Summary(trades: seq<Trade>, name: string, today: int): Bucket {
    var own := OfStrategy(trades, name);
    Bucket(TotalPnl(own), TotalPnl(OfDay(own, today)), |own|, Wins(own), map[])
  }

  /** One bucket for each strategy that closed a trade, and it sums up that strategy and no other. */
  ghost predicate Sums(strategies: map<string, Bucket>, trades: seq<Trade>, today: int) {
    && (forall name :: name in strategies <==> OfStrategy(trades, name) != [])
    && (forall name :: name in strategies ==> strategies[name] == Summary(trades, name, today))
  }

  function Booked(b: Bucket, t: Trade, today: int): Bucket {
    Bucket(b.total + t.pnl, if DayOf(t.closedAt) == today then b.today + t.pnl else b.today,
           b.trades + 1, if t.pnl > 0.0 then b.wins + 1 else b.wins, b.open)
  }

  lemma {:induction false} OfStrategyMore(trades: seq<Trade>, t: Trade, name: string)
    ensures OfStrategy(trades + [t], name)
            == if t.strategy == name then OfStrategy(trades, name) + [t] else OfStrategy(trades, name)
  {
    assert (trades + [t])[..|trades|] == trades;
  }

  /** What one more trade adds to its own strategy's bucket. */
  lemma {:induction false} SummaryMore(trades: seq<Trade>, t: Trade, today: int)
    ensures Summary(trades + [t], t.strategy, today) == Booked(Summary(trades, t.strategy, today), t, today)
    ensures OfStrategy(trades, t.strategy) == [] ==> Summary(trades, t.strategy, today) == NO_TRADES
  {
    hide OfStrategy;
    OfStrategyMore(trades, t, t.strategy);
    var own := OfStrategy(trades, t.strategy);
    assert (own + [t])[..|own|] == own;
    var day := OfDay(own, today);
    assert (day + [t])[..|day|] == day;
  }

  lemma {:induction false} SummaryOther(trades: seq<Trade>, t: Trade, name: string, today: int)
    requires t.strategy != name
    ensures Summary(trades + [t], name, today) == Summary(trades, name, today)
  {
    hide OfStrategy;
    OfStrategyMore(trades, t, name);
  }

  lemma {:induction false} OfStrategyJoin(a: seq<Trade>, b: seq<Trade>, name: string)
    ensures OfStrategy(a + b, name) == OfStrategy(a, name) + OfStrategy(b, name)
  {
    if b == [] {
      assert a + b == a;
    } else {
      var n := |b| - 1;
      assert a + b == (a + b[..n]) + [b[n]] && b == b[..n] + [b[n]];
      OfStrategyJoin(a, b[..n], name);
      OfStrategyMore(a + b[..n], b[n], name);
      OfStrategyMore(b[..n], b[n], name);
      hide OfStrategy;
    }
  }

  lemma {:induction false} TotalsJoin(a: seq<Trade>, b: seq<Trade>, today: int)
    ensures TotalPnl(a + b) == TotalPnl(a) + TotalPnl(b) && Wins(a + b) == Wins(a) + Wins(b)
    ensures TotalPnl(OfDay(a + b, today)) == TotalPnl(OfDay(a, today)) + TotalPnl(OfDay(b, today))
  {
    if b == [] {
      assert a + b == a;
    } else {
      var n := |b| - 1;
      TotalsJoin(a, b[..n], today);
      var day, more := OfDay(a + b[..n], today), OfDay(b[..n], today);
      assert (a + b)[..|a + b| - 1] == a + b[..n];
      assert (day + [b[n]])[..|day|] == day && (more + [b[n]])[..|more|] == more;
    }
  }

  /** What a strategy's bucket says of two stretches of trades is the sum of what it says of each. */
  lemma SummariesAdd(a: seq<Trade>, b: seq<Trade>, name: string, today: int)
    ensures var first, more := Summary(a, name, today), Summary(b, name, today);
            Summary(a + b, name, today) ==
              Bucket(first.total + more.total, first.today + more.today, first.trades + more.trades,
                     first.wins + more.wins, map[])
  {
    OfStrategyJoin(a, b, name);
    TotalsJoin(OfStrategy(a, name), OfStrategy(b, name), today);
  }

  /** And of a single trade: its own strategy has its profit, for today if it closed within today's 86400 seconds, and
      counts it as won if it gained; other strategies have nothing. */
  lemma SummaryOfOne(t: Trade, name: string, today: int)
    ensures Summary([t], name, today) ==
      if t.strategy != name then Bucket(0.0, 0.0, 0, 0, map[])
      else
        Bucket(t.pnl, if today * 86400 <= t.closedAt < (today + 1) * 86400 then t.pnl else 0.0, 1,
               if t.pnl > 0.0 then 1 else 0, map[])
  {
    assert [t][..0] == [];
    assert OfStrategy([t], name) == if t.strategy == name then [t] else [];
    assert OfDay([t], today) == if DayOf(t.closedAt) == today then [t] else [];
    assert TotalPnl([t]) == t.pnl && TotalPnl([]) == 0.0;
    assert Wins([t]) == (if t.pnl > 0.0 then 1 else 0) && Wins([]) == 0;
    assert OfDay([], today) == [];
    hide OfStrategy, OfDay, TotalPnl, Wins;
    assert DayOf(t.closedAt) == today <==> today * 86400 <= t.closedAt < (today + 1) * 86400;
  }

  lemma {:induction false} SumsStep(strategies: map<string, Bucket>, trades: seq<Trade>, t: Trade, today: int)
    requires Sums(strategies, trades, today)
    ensures var b := if t.strategy in strategies then strategies[t.strategy] else NO_TRADES;
            Sums(strategies[t.strategy := Booked(b, t, today)], trades + [t], today)
  {
    hide OfStrategy, Booked, Summary;
    var b := if t.strategy in strategies then strategies[t.strategy] else NO_TRADES;
    var after := strategies[t.strategy := Booked(b, t, today)];
    SummaryMore(trades, t, today);
    forall name: string
      ensures name in after <==> OfStrategy(trades + [t], name) != []
      ensures name in after ==> after[name] == Summary(trades + [t], name, today)
    {
      OfStrategyMore(trades, t, name);
      if t.strategy != name {
        SummaryOther(trades, t, name, today);
      }
    }
  }

  /** The fills in the table, excluded or not. */
  function FillCount(events: seq<Event>): nat {
    if events == [] then 0
    else FillCount(events[..|events| - 1]) + if events[|events| - 1].kind == OrderFilled then 1 else 0
  }

  method KeptFills(events: seq<Event>) returns (kept: seq<Fill>, excluded: nat)
    ensures kept == Kept(events) && |kept| + excluded == FillCount(events)
  {
    kept, excluded := [], 0;
    for n := 0 to |events|
      invariant kept == Kept(events[..n]) && |kept| + excluded == FillCount(events[..n])
    {
      assert events[..n + 1][..n] == events[..n];
      if events[n].kind == OrderFilled {
        if IsExcluded(events[n]) {
          excluded := excluded + 1;
        } else {
          kept := kept + [events[n].fill];
        }
      }
    }
    assert events[..|events|] == events;
  }

  /** The open lots of one strategy. */
  function LotsOf(open: Lots, name: string): map<int, Lot> {
    map k | k in open && k.strategy == name :: k.conid := open[k]
  }

  predicate HasLot(open: Lots, name: string) {
    exists k :: k in open && k.strategy == name
  }

  lemma LotsMore(open: Lots, k: Key, lot: Lot, name: string)
    requires k !in open
    ensures HasLot(open[k := lot], name) <==> HasLot(open, name) || name == k.strategy
    ensures LotsOf(open[k := lot], name)
            == if name == k.strategy then LotsOf(open, name)[k.conid := lot] else LotsOf(open, name)
    ensures !HasLot(open, name) ==> LotsOf(open, name) == map[]
  {
    var all := open[k := lot];
    assert k in all;
    if l :| l in open && l.strategy == name {
      assert l in all;
    }
  }

  /** One bucket for each strategy with a closed trade or an open lot, holding what its trades sum up to and its own
      lots. */
  ghost predicate Reports(strategies: map<string, Bucket>, trades: seq<Trade>, open: Lots, today: int) {
    && (forall name :: name in strategies <==> OfStrategy(trades, name) != [] || HasLot(open, name))
    && (forall name :: name in strategies ==>
          strategies[name] == Summary(trades, name, today).(open := LotsOf(open, name)))
  }

  lemma {:induction false} ReportsStep(strategies: map<string, Bucket>, trades: seq<Trade>, open: Lots, k: Key,
                                       lot: Lot, today: int)
    requires Reports(strategies, trades, open, today) && k !in open
    ensures var b := if k.strategy in strategies then strategies[k.strategy] else NO_TRADES;
            Reports(strategies[k.strategy := b.(open := b.open[k.conid := lot])], trades, open[k := lot], today)
  {
    hide OfStrategy, HasLot, LotsOf, Summary;
    var b := if k.strategy in strategies then strategies[k.strategy] else NO_TRADES;
    var after, all := strategies[k.strategy := b.(open := b.open[k.conid := lot])], open[k := lot];
    NoTradesNoSummary(trades, k.strategy, today);
    forall name: string
      ensures name in after <==> OfStrategy(trades, name) != [] || HasLot(all, name)
      ensures name in after ==> after[name] == Summary(trades, name, today).(open := LotsOf(all, name))
    {
      LotsMore(open, k, lot, name);
    }
  }

  lemma NoTradesNoSummary(trades: seq<Trade>, name: string, today: int)
    ensures OfStrategy(trades, name) == [] ==> Summary(trades, name, today) == NO_TRADES
  {
  }

  lemma NothingOpenYet(strategies: map<string, Bucket>, trades: seq<Trade>, today: int)
    requires Sums(strategies, trades, today)
    ensures Reports(strategies, trades, map[], today)
  {
    assert forall name :: LotsOf(map[], name) == map[] && !HasLot(map[], name);
  }

  lemma OneLess(open: Lots, left: set<Key>, k: Key)
    requires k in left && left <= open.Keys
    ensures k !in open - left && open - (left - {k}) == (open - left)[k := open[k]]
  {
  }

  /** The open lots, in whatever order. */
  method BookLots(booked: map<string, Bucket>, ghost trades: seq<Trade>, open: Lots, ghost today: int)
    returns (strategies: map<string, Bucket>)
    requires Sums(booked, trades, today)
    ensures Reports(strategies, trades, open, today)
  {
    hide *;
    strategies := booked;
    var left := open.Keys;
    NothingOpenYet(booked, trades, today);
    assert open - left == map[];
    while left != {}
      invariant left <= open.Keys
      invariant Reports(strategies, trades, open - left, today)
    {
      var k :| k in left;
      OneLess(open, left, k);
      ReportsStep(strategies, trades, open - left, k, open[k], today);
      var b := if k.strategy in strategies then strategies[k.strategy] else NO_TRADES;
      strategies := strategies[k.strategy := b.(open := b.open[k.conid := open[k]])];
      left := left - {k};
    }
    assert open - left == open;
  }

  method BookTrades(closed: seq<Trade>, today: int) returns (strategies: map<string, Bucket>)
    ensures Sums(strategies, closed, today)
  {
    strategies := map[];
    assert Sums(strategies, [], today);
    hide Sums, Booked;
    for n := 0 to |closed|
      invariant Sums(strategies, closed[..n], today)
    {
      var t := closed[n];
      var b := if t.strategy in strategies then strategies[t.strategy] else NO_TRADES;
      SumsStep(strategies, closed[..n], t, today);
      assert closed[..n + 1] == closed[..n] + [t];
      strategies := strategies[t.strategy := Booked(b, t, today)];
    }
    assert closed[..|closed|] == closed;
  }

  method RealizedPnlByStrategy(events: seq<Event>, today: int)
    returns (strategies: map<string, Bucket>, closed: seq<Trade>, open: Lots, unmatched: nat, excluded: nat)
    ensures closed == TradesOf(map[], Kept(events)) && open == LotsAfter(map[], Kept(events))
    ensures unmatched == UnmatchedOf(map[], Kept(events))
    ensures |Kept(events)| + excluded == FillCount(events)
    ensures Reports(strategies, closed, open, today)
  {
    hide *;
    var kept;
    kept, excluded := KeptFills(events);
    closed, open, unmatched := PairFillsLongOnly(kept);
    var booked := BookTrades(closed, today);
    strategies := BookLots(booked, closed, open, today);
  }
}
