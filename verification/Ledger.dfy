/** The realised profit ledger of trader/data/event_store.py: fills paired into round trips at average cost. */
module Ledger {
  import opened Common

  /** A DOUBLE column as the pairing reads it: NULL, something float() refuses, or a number. */
  datatype Cell = Null | NotANumber | Number(x: real)

  datatype Fill = Fill(
    strategy: string, conid: int, action: Option<string>, quantity: Cell, price: Cell, at: int)

  /** Fills pair only within one strategy and instrument. */
  datatype Key = Key(strategy: string, conid: int)

  datatype Lot = Lot(quantity: real, price: real)

  datatype Trade = Trade(
    strategy: string, conid: int, quantity: real, entry: real, exit: real, pnl: real, closedAt: int)

  type Lots = map<Key, Lot>

  const DUST: real := 0.000000001

  function KeyOf(f: Fill): Key {
    Key(f.strategy, f.conid)
  }

  function TradeKey(t: Trade): Key {
    Key(t.strategy, t.conid)
  }

  datatype Side = BuySide | SellSide | NoSide

  function SideOf(action: Option<string>): Side {
    var side := Upper(if action.Some? then action.value else "");
    if side == "BUY" then BuySide else if side == "SELL" then SellSide else NoSide
  }

  /** What one fill means for the ledger: nothing, a purchase or a sale, of a positive quantity. */
  datatype Deal = Skip | Buy(quantity: real, price: real) | Sell(quantity: real, price: real)

  function Amount(c: Cell): real {
    if c.Number? then c.x else 0.0
  }

  function DealOf(f: Fill): (d: Deal)
    ensures !d.Skip? ==> d.quantity > 0.0
  {
    if f.quantity.NotANumber? || f.price.NotANumber? || Amount(f.quantity) <= 0.0 then Skip
    else
      match SideOf(f.action)
      case BuySide => Buy(Amount(f.quantity), Amount(f.price))
      case SellSide => Sell(Amount(f.quantity), Amount(f.price))
      case NoSide => Skip
  }

  function Min(a: real, b: real): real {
    if a <= b then a else b
  }

  /** The average entry after adding to a lot. */
  function Blend(lot: Lot, quantity: real, price: real): Lot
    requires lot.quantity + quantity != 0.0
  {
    Lot(lot.quantity + quantity, (lot.quantity * lot.price + quantity * price) / (lot.quantity + quantity))
  }

  /** Closing `quantity` of a lot at the price of fill `f`. */
  function Close(f: Fill, lot: Lot, quantity: real): Trade {
    var exit := Amount(f.price);
    Trade(f.strategy, f.conid, quantity, lot.price, exit, (exit - lot.price) * quantity, f.at)
  }

  predicate Held(lots: Lots, k: Key) {
    k in lots && lots[k].quantity > 0.0
  }

  /** Every open lot holds something: the guard in the source against an empty lot never fires. */
  predicate Sane(lots: Lots) {
    forall k :: k in lots ==> lots[k].quantity > 0.0
  }

  // ------------------------------------------- one fill, and a sequence of fills

  function LotsAfterFill(lots: Lots, f: Fill): (r: Lots)
    requires Sane(lots)
    ensures Sane(r)
  {
    var k := KeyOf(f);
    match DealOf(f)
    case Skip => lots
    case Buy(q, p) => lots[k := if k in lots then Blend(lots[k], q, p) else Lot(q, p)]
    case Sell(q, _) =>
      if !Held(lots, k) then lots
      else
        var left := lots[k].quantity - Min(q, lots[k].quantity);
        if left <= DUST then lots - {k} else lots[k := lots[k].(quantity := left)]
  }

  function TradesOfFill(lots: Lots, f: Fill): seq<Trade> {
    var k := KeyOf(f);
    var d := DealOf(f);
    if !d.Sell? || !Held(lots, k) then []
    else [Close(f, lots[k], Min(d.quantity, lots[k].quantity))]
  }

  /** A sale with nothing to sell is counted, never guessed at. */
  function UnmatchedOfFill(lots: Lots, f: Fill): nat {
    if DealOf(f).Sell? && !Held(lots, KeyOf(f)) then 1 else 0
  }

  function LotsAfter(lots: Lots, fills: seq<Fill>): (r: Lots)
    requires Sane(lots)
    ensures Sane(r)
  {
    if fills == [] then lots else LotsAfterFill(LotsAfter(lots, fills[..|fills| - 1]), fills[|fills| - 1])
  }

  function TradesOf(lots: Lots, fills: seq<Fill>): seq<Trade>
    requires Sane(lots)
  {
    if fills == [] then []
    else
      var front := fills[..|fills| - 1];
      TradesOf(lots, front) + TradesOfFill(LotsAfter(lots, front), fills[|fills| - 1])
  }

  function UnmatchedOf(lots: Lots, fills: seq<Fill>): nat
    requires Sane(lots)
  {
    if fills == [] then 0
    else
      var front := fills[..|fills| - 1];
      UnmatchedOf(lots, front) + UnmatchedOfFill(LotsAfter(lots, front), fills[|fills| - 1])
  }

  lemma Unfold(lots: Lots, fills: seq<Fill>, n: nat)
    requires Sane(lots) && n < |fills|
    ensures var before := LotsAfter(lots, fills[..n]);
            && LotsAfter(lots, fills[..n + 1]) == LotsAfterFill(before, fills[n])
            && TradesOf(lots, fills[..n + 1]) == TradesOf(lots, fills[..n]) + TradesOfFill(before, fills[n])
            && UnmatchedOf(lots, fills[..n + 1]) == UnmatchedOf(lots, fills[..n]) + UnmatchedOfFill(before, fills[n])
  {
    assert fills[..n + 1][..n] == fills[..n];
  }

  /** One turn of the pairing loop. It touches the lot of the fill's own key only; the quantity and the cost that the
      key held or bought are what a trade closes, what it holds then, and dust; a trade is closed exactly by a sale
      that finds a lot, and closes the smaller of the two; a sale that finds none is counted. */
  method PairFill(lots: Lots, f: Fill) returns (after: Lots, closed: seq<Trade>, unmatched: nat)
    requires Sane(lots)
    ensures after == LotsAfterFill(lots, f) && closed == TradesOfFill(lots, f) && unmatched == UnmatchedOfFill(lots, f)
    ensures Sane(after) && SameExcept(lots, after, KeyOf(f))
    ensures Balanced(lots, f, after, closed)
    ensures closed != [] || unmatched != 0 <==> DealOf(f).Sell?
    ensures closed != [] <==> DealOf(f).Sell? && KeyOf(f) in lots
    ensures closed != [] ==> |closed| == 1 && TradeKey(closed[0]) == KeyOf(f) && WellPriced(closed[0])
                             && closed[0].entry == lots[KeyOf(f)].price
                             && closed[0].quantity == Min(DealOf(f).quantity, lots[KeyOf(f)].quantity)
    ensures unmatched <= 1
  {
    hide Balanced, SameExcept;
    OneFillConserves(lots, f);
    FillIsLocal(lots, lots, f);
    after, closed, unmatched := lots, [], 0;
    if f.quantity.NotANumber? || f.price.NotANumber? {
      return;
    }
    var qty, px := Amount(f.quantity), Amount(f.price);
    if qty <= 0.0 {
      return;
    }
    var key := KeyOf(f);
    var side := SideOf(f.action);
    if side == BuySide {
      if key in lots {
        after := lots[key := Blend(lots[key], qty, px)];
      } else {
        after := lots[key := Lot(qty, px)];
      }
    } else if side == SellSide {
      if key !in lots || lots[key].quantity <= 0.0 {
        unmatched := 1;
        return;
      }
      var held := lots[key];
      var closeQty := Min(qty, held.quantity);
      closed := [Close(f, held, closeQty)];
      var remaining := held.quantity - closeQty;
      if remaining <= DUST {
        after := lots - {key};
      } else {
        after := lots[key := held.(quantity := remaining)];
      }
    }
  }

  method PairFillsLongOnly(fills: seq<Fill>) returns (closed: seq<Trade>, open: Lots, unmatched: nat)
    ensures closed == TradesOf(map[], fills)
    ensures open == LotsAfter(map[], fills)
    ensures unmatched == UnmatchedOf(map[], fills)
  {
    open, closed, unmatched := map[], [], 0;
    for n := 0 to |fills|
      invariant open == LotsAfter(map[], fills[..n])
      invariant closed == TradesOf(map[], fills[..n])
      invariant unmatched == UnmatchedOf(map[], fills[..n])
    {
      Unfold(map[], fills, n);
      var after, trades, more := PairFill(open, fills[n]);
      open, closed, unmatched := after, closed + trades, unmatched + more;
    }
    assert fills[..|fills|] == fills;
  }

  // ------------------------------------------------ what a fill means, read off its columns

  /** A fill of a positive quantity at a price, where no price counts as zero. */
  predicate Fills(f: Fill, quantity: real, price: real) {
    && f.quantity == Number(quantity) && quantity > 0.0
    && (f.price == Number(price) || (f.price == Null && price == 0.0))
  }

  predicate Says(f: Fill, word: string) {
    f.action.Some? && Upper(f.action.value) == word
  }

  lemma WordsInAnyCase()
    ensures Upper("buy") == "BUY" && Upper("Sell") == "SELL" && Upper("BUY") == "BUY"
  {
  }

  /** A purchase adds its quantity and its cost to the lot of its key, closes nothing and touches no other lot. */
  lemma PurchaseMeans(lots: Lots, f: Fill, quantity: real, price: real)
    requires Sane(lots) && Fills(f, quantity, price) && Says(f, "BUY")
    ensures var k, after := Key(f.strategy, f.conid), LotsAfterFill(lots, f);
            && k in after && after.Keys == lots.Keys + {k}
            && (forall j :: j in lots && j != k ==> after[j] == lots[j])
            && after[k].quantity == quantity + (if k in lots then lots[k].quantity else 0.0)
            && after[k].quantity * after[k].price ==
                 quantity * price + (if k in lots then lots[k].quantity * lots[k].price else 0.0)
            && TradesOfFill(lots, f) == [] && UnmatchedOfFill(lots, f) == 0
  {
    var k := Key(f.strategy, f.conid);
    assert DealOf(f) == Buy(quantity, price);
    if k in lots {
      hide Worth, Upper;
      BlendAverages(lots[k], quantity, price);
    }
  }

  lemma BlendAverages(lot: Lot, quantity: real, price: real)
    requires lot.quantity > 0.0 && quantity > 0.0
    ensures var b := Blend(lot, quantity, price);
            b.quantity == lot.quantity + quantity
            && b.quantity * b.price == quantity * price + lot.quantity * lot.price
  {
    var total, cost := lot.quantity + quantity, lot.quantity * lot.price + quantity * price;
    assert total * (cost / total) == cost;
  }

  /** A sale against a lot closes the smaller of the two quantities at the fill's price, and leaves the rest of the lot
      at its old price unless that is dust. A sale without a lot is counted and changes nothing. */
  lemma SaleMeans(lots: Lots, f: Fill, quantity: real, price: real)
    requires Sane(lots) && Fills(f, quantity, price) && Says(f, "SELL")
    ensures var k := Key(f.strategy, f.conid);
            if k in lots then
              && UnmatchedOfFill(lots, f) == 0
              && TradesOfFill(lots, f) == [Sold(f, lots[k], quantity, price)]
              && LotsAfterFill(lots, f) == Reduced(lots, k, quantity)
            else LotsAfterFill(lots, f) == lots && TradesOfFill(lots, f) == [] && UnmatchedOfFill(lots, f) == 1
  {
    var k := Key(f.strategy, f.conid);
    assert DealOf(f) == Sell(quantity, price);
    if k in lots {
      var closed := Min(quantity, lots[k].quantity);
      assert TradesOfFill(lots, f) == [Close(f, lots[k], closed)];
      assert Close(f, lots[k], closed) == Sold(f, lots[k], quantity, price);
    }
  }

  /** The trade that closes what a lot has of `quantity`. */
  function Sold(f: Fill, lot: Lot, quantity: real, price: real): Trade {
    var closed := if quantity <= lot.quantity then quantity else lot.quantity;
    Trade(f.strategy, f.conid, closed, lot.price, price, (price - lot.price) * closed, f.at)
  }

  /** The lots with that taken out of one, which is dropped if no more than dust is left. */
  function Reduced(lots: Lots, k: Key, quantity: real): Lots
    requires k in lots
  {
    if lots[k].quantity - quantity <= 0.000000001 then lots - {k}
    else lots[k := Lot(lots[k].quantity - quantity, lots[k].price)]
  }

  /** Anything else is passed over: a quantity that is missing, not positive or no number, a price that is no number,
      and any other word for the action. */
  lemma OthersMeanNothing(lots: Lots, f: Fill)
    requires Sane(lots)
    requires (forall q, p :: !Fills(f, q, p)) || !(Says(f, "BUY") || Says(f, "SELL"))
    ensures LotsAfterFill(lots, f) == lots && TradesOfFill(lots, f) == [] && UnmatchedOfFill(lots, f) == 0
  {
    if f.quantity.Number? && f.quantity.x > 0.0 && !f.price.NotANumber? {
      assert Fills(f, f.quantity.x, Amount(f.price));
    }
  }

  // ---------------------------------------------------------------- conservation

  /** The remainder, too small to keep, that a sale drops together with its lot. */
  function DroppedByFill(lots: Lots, f: Fill): seq<Lot> {
    var k := KeyOf(f);
    var d := DealOf(f);
    if !d.Sell? || !Held(lots, k) then []
    else
      var left := lots[k].quantity - Min(d.quantity, lots[k].quantity);
      if 0.0 < left <= DUST then [Lot(left, lots[k].price)] else []
  }

  function Dropped(fills: seq<Fill>, k: Key): seq<Lot> {
    if fills == [] then []
    else
      var front := fills[..|fills| - 1];
      var f := fills[|fills| - 1];
      if KeyOf(f) != k then Dropped(front, k) else Dropped(front, k) + DroppedByFill(LotsAfter(map[], front), f)
  }

  function BoughtByFill(f: Fill): seq<Lot> {
    var d := DealOf(f);
    if d.Buy? then [Lot(d.quantity, d.price)] else []
  }

  /** Everything `k` ever bought, one lot a purchase. */
  function Bought(fills: seq<Fill>, k: Key): seq<Lot> {
    if fills == [] then []
    else
      var f := fills[|fills| - 1];
      if KeyOf(f) != k then Bought(fills[..|fills| - 1], k) else Bought(fills[..|fills| - 1], k) + BoughtByFill(f)
  }

  function Quantity(lots: seq<Lot>): real {
    if lots == [] then 0.0 else Quantity(lots[..|lots| - 1]) + lots[|lots| - 1].quantity
  }

  function Worth(lot: Lot): real {
    lot.quantity * lot.price
  }

  function Cost(lots: seq<Lot>): real {
    if lots == [] then 0.0 else Cost(lots[..|lots| - 1]) + Worth(lots[|lots| - 1])
  }

  lemma OneLot(lot: Lot)
    ensures Quantity([lot]) == lot.quantity && Cost([lot]) == Worth(lot)
  {
    hide Worth;
    assert [lot][..0] == [];
  }

  lemma WorthSplits(lot: Lot, quantity: real)
    ensures Worth(Lot(quantity, lot.price)) + Worth(Lot(lot.quantity - quantity, lot.price)) == Worth(lot)
    ensures quantity == lot.quantity ==> Worth(Lot(lot.quantity - quantity, lot.price)) == 0.0
  {
  }

  /** The lot of `k`, if it has one, as a list. */
  function Open(lots: Lots, k: Key): seq<Lot> {
    if k in lots then [lots[k]] else []
  }

  function OfKey(trades: seq<Trade>, k: Key): seq<Trade> {
    if trades == [] then []
    else
      var t := trades[|trades| - 1];
      if TradeKey(t) == k then OfKey(trades[..|trades| - 1], k) + [t] else OfKey(trades[..|trades| - 1], k)
  }

  /** What the closed trades took out of the lots, and what they brought in. */
  function Entries(trades: seq<Trade>): seq<Lot> {
    if trades == [] then []
    else Entries(trades[..|trades| - 1]) + [Lot(trades[|trades| - 1].quantity, trades[|trades| - 1].entry)]
  }

  function Exits(trades: seq<Trade>): seq<Lot> {
    if trades == [] then []
    else Exits(trades[..|trades| - 1]) + [Lot(trades[|trades| - 1].quantity, trades[|trades| - 1].exit)]
  }

  function TotalPnl(trades: seq<Trade>): real {
    if trades == [] then 0.0 else TotalPnl(trades[..|trades| - 1]) + trades[|trades| - 1].pnl
  }

  lemma {:induction false} Split<T>(a: seq<T>, b: seq<T>)
    requires b != []
    ensures (a + b)[..|a + b| - 1] == a + b[..|b| - 1] && (a + b)[|a + b| - 1] == b[|b| - 1]
  {
  }

  lemma {:induction false} SumsAppend(a: seq<Lot>, b: seq<Lot>)
    ensures Quantity(a + b) == Quantity(a) + Quantity(b)
    ensures Cost(a + b) == Cost(a) + Cost(b)
  {
    if b == [] {
      assert a + b == a;
    } else {
      Split(a, b);
      SumsAppend(a, b[..|b| - 1]);
    }
  }

  lemma {:induction false} OfKeyAppend(a: seq<Trade>, b: seq<Trade>, k: Key)
    ensures OfKey(a + b, k) == OfKey(a, k) + OfKey(b, k)
    ensures Entries(a + b) == Entries(a) + Entries(b)
    ensures Exits(a + b) == Exits(a) + Exits(b)
    ensures TotalPnl(a + b) == TotalPnl(a) + TotalPnl(b)
  {
    if b == [] {
      assert a + b == a;
    } else {
      Split(a, b);
      OfKeyAppend(a, b[..|b| - 1], k);
    }
  }

  lemma BlendKeepsCost(lot: Lot, quantity: real, price: real)
    requires lot.quantity > 0.0 && quantity > 0.0
    ensures var b := Blend(lot, quantity, price);
            b.quantity == lot.quantity + quantity && Worth(b) == Worth(lot) + Worth(Lot(quantity, price))
  {
    var total, cost := lot.quantity + quantity, lot.quantity * lot.price + quantity * price;
    assert total * (cost / total) == cost;
  }

  /** What a fill's key held and bought, in quantity and in cost, is what it closed, holds and dropped. */
  predicate Balanced(lots: Lots, f: Fill, after: Lots, closed: seq<Trade>) {
    var k, bought, dust := KeyOf(f), BoughtByFill(f), DroppedByFill(lots, f);
    && Quantity(Open(lots, k)) + Quantity(bought) ==
         Quantity(Entries(closed)) + Quantity(Open(after, k)) + Quantity(dust)
    && Cost(Open(lots, k)) + Cost(bought) == Cost(Entries(closed)) + Cost(Open(after, k)) + Cost(dust)
  }

  lemma SaleConserves(lots: Lots, f: Fill)
    requires Sane(lots) && DealOf(f).Sell? && Held(lots, KeyOf(f))
    ensures var lot := lots[KeyOf(f)];
            var closed := Entries(TradesOfFill(lots, f));
            var after := Open(LotsAfterFill(lots, f), KeyOf(f));
            var dust := DroppedByFill(lots, f);
            && lot.quantity == Quantity(closed) + Quantity(after) + Quantity(dust)
            && Worth(lot) == Cost(closed) + Cost(after) + Cost(dust)
  {
    hide Worth, DealOf;
    var lot := lots[KeyOf(f)];
    var sold := Min(DealOf(f).quantity, lot.quantity);
    WorthSplits(lot, sold);
    OneLot(Lot(sold, lot.price));
    OneLot(Lot(lot.quantity - sold, lot.price));
    assert TradesOfFill(lots, f) == [Close(f, lot, sold)];
    assert [Close(f, lot, sold)][..0] == [];
    assert Entries(TradesOfFill(lots, f)) == [Lot(sold, lot.price)];
  }

  lemma PurchaseConserves(lots: Lots, f: Fill)
    requires Sane(lots) && DealOf(f).Buy?
    ensures Quantity(Open(lots, KeyOf(f))) + DealOf(f).quantity == Quantity(Open(LotsAfterFill(lots, f), KeyOf(f)))
    ensures Cost(Open(lots, KeyOf(f))) + Worth(Lot(DealOf(f).quantity, DealOf(f).price))
            == Cost(Open(LotsAfterFill(lots, f), KeyOf(f)))
  {
    hide Worth, DealOf, Blend;
    var k, d := KeyOf(f), DealOf(f);
    if k in lots {
      BlendKeepsCost(lots[k], d.quantity, d.price);
      OneLot(lots[k]);
      OneLot(Blend(lots[k], d.quantity, d.price));
    } else {
      OneLot(Lot(d.quantity, d.price));
    }
  }

  /** One fill moves quantity and cost between purchases, closed trades, the open lot and dust; it makes none. */
  lemma OneFillConserves(lots: Lots, f: Fill)
    requires Sane(lots)
    ensures Balanced(lots, f, LotsAfterFill(lots, f), TradesOfFill(lots, f))
  {
    hide *;
    if DealOf(f).Buy? {
      PurchaseBalances(lots, f);
    } else if DealOf(f).Sell? && Held(lots, KeyOf(f)) {
      SaleBalances(lots, f);
    } else {
      NothingMoves(lots, f);
    }
  }

  lemma NoLots()
    ensures Quantity([]) == 0.0 && Cost([]) == 0.0 && Entries([]) == []
  {
  }

  lemma PurchaseBalances(lots: Lots, f: Fill)
    requires Sane(lots) && DealOf(f).Buy?
    ensures Balanced(lots, f, LotsAfterFill(lots, f), TradesOfFill(lots, f))
  {
    hide Worth, Blend, DealOf, LotsAfterFill, Quantity, Cost, Entries, Open;
    PurchaseConserves(lots, f);
    OneLot(Lot(DealOf(f).quantity, DealOf(f).price));
    NoLots();
    assert TradesOfFill(lots, f) == [] && DroppedByFill(lots, f) == [];
  }

  lemma SaleBalances(lots: Lots, f: Fill)
    requires Sane(lots) && DealOf(f).Sell? && Held(lots, KeyOf(f))
    ensures Balanced(lots, f, LotsAfterFill(lots, f), TradesOfFill(lots, f))
  {
    hide Worth, DealOf, LotsAfterFill, TradesOfFill, DroppedByFill, Quantity, Cost, Entries;
    SaleConserves(lots, f);
    OneLot(lots[KeyOf(f)]);
    NoLots();
    assert BoughtByFill(f) == [] && Open(lots, KeyOf(f)) == [lots[KeyOf(f)]];
  }

  lemma NothingMoves(lots: Lots, f: Fill)
    requires Sane(lots) && !DealOf(f).Buy? && !(DealOf(f).Sell? && Held(lots, KeyOf(f)))
    ensures Balanced(lots, f, LotsAfterFill(lots, f), TradesOfFill(lots, f))
  {
    hide Worth, DealOf, Quantity, Cost, Entries, Open;
    NoLots();
    assert LotsAfterFill(lots, f) == lots && TradesOfFill(lots, f) == [];
    assert BoughtByFill(f) == [] && DroppedByFill(lots, f) == [];
  }

  /** Quantity and cost of one key, over any fills: what it bought is what it closed, still holds, or dropped. */
  lemma {:induction false} CostBasisIsConserved(fills: seq<Fill>, k: Key)
    ensures var lots := LotsAfter(map[], fills);
            var closed := Entries(OfKey(TradesOf(map[], fills), k));
            && Quantity(Bought(fills, k)) == Quantity(closed) + Quantity(Open(lots, k)) + Quantity(Dropped(fills, k))
            && Cost(Bought(fills, k)) == Cost(closed) + Cost(Open(lots, k)) + Cost(Dropped(fills, k))
  {
    if fills != [] {
      hide LotsAfterFill, TradesOfFill, DroppedByFill, BoughtByFill, OfKey, Entries, Quantity, Cost, Sane;
      var front, f := fills[..|fills| - 1], fills[|fills| - 1];
      CostBasisIsConserved(front, k);
      var lots := LotsAfter(map[], front);
      var trades, more := TradesOf(map[], front), TradesOfFill(lots, f);
      OfKeyAppend(trades, more, k);
      TradesOfFillByKey(lots, f, k);
      if KeyOf(f) != k {
        FillIsLocal(lots, lots, f);
        assert SameAt(lots, LotsAfterFill(lots, f), k);
        assert OfKey(trades, k) + [] == OfKey(trades, k);
      } else {
        OfKeyAppend(OfKey(trades, k), more, k);
        SumsAppend(Entries(OfKey(trades, k)), Entries(more));
        SumsAppend(Bought(front, k), BoughtByFill(f));
        SumsAppend(Dropped(front, k), DroppedByFill(lots, f));
        OneFillConserves(lots, f);
      }
    }
  }

  /** Every remainder dropped is positive and at most the dust threshold. */
  lemma {:induction false} DroppedIsDust(fills: seq<Fill>, k: Key)
    ensures forall i :: 0 <= i < |Dropped(fills, k)| ==> 0.0 < Dropped(fills, k)[i].quantity <= DUST
  {
    if fills != [] {
      DroppedIsDust(fills[..|fills| - 1], k);
    }
  }

  lemma {:induction false} TradesAreOfKey(trades: seq<Trade>, k: Key)
    ensures forall t :: t in OfKey(trades, k) <==> t in trades && TradeKey(t) == k
  {
    if trades != [] {
      TradesAreOfKey(trades[..|trades| - 1], k);
      assert trades == trades[..|trades| - 1] + [trades[|trades| - 1]];
    }
  }

  predicate WellPriced(t: Trade) {
    t.quantity > 0.0 && t.pnl == (t.exit - t.entry) * t.quantity
  }

  lemma TradeOfFillIsWellPriced(lots: Lots, f: Fill)
    ensures forall t :: t in TradesOfFill(lots, f) ==> WellPriced(t)
  {
  }

  lemma {:induction false} EachTradeIsWellPriced(lots: Lots, fills: seq<Fill>)
    requires Sane(lots)
    ensures forall t :: t in TradesOf(lots, fills) ==> WellPriced(t)
  {
    if fills != [] {
      var n := |fills| - 1;
      EachTradeIsWellPriced(lots, fills[..n]);
      assert fills[..n + 1] == fills;
      Unfold(lots, fills, n);
      TradeOfFillIsWellPriced(LotsAfter(lots, fills[..n]), fills[n]);
    }
  }

  lemma {:induction false} SumOfPnl(trades: seq<Trade>)
    requires forall t :: t in trades ==> WellPriced(t)
    ensures TotalPnl(trades) == Cost(Exits(trades)) - Cost(Entries(trades))
  {
    if trades != [] {
      var front, t := trades[..|trades| - 1], trades[|trades| - 1];
      SumOfPnl(front);
      assert WellPriced(t);
      assert (t.exit - t.entry) * t.quantity == t.quantity * t.exit - t.quantity * t.entry;
      SumsAppend(Exits(front), [Lot(t.quantity, t.exit)]);
      SumsAppend(Entries(front), [Lot(t.quantity, t.entry)]);
    }
  }

  /** Total profit is what the closed trades brought in, less what they had cost. */
  lemma PnlIsProceedsLessCost(fills: seq<Fill>, k: Key)
    ensures var trades := OfKey(TradesOf(map[], fills), k);
            TotalPnl(trades) == Cost(Exits(trades)) - Cost(Entries(trades))
  {
    EachTradeIsWellPriced(map[], fills);
    TradesAreOfKey(TradesOf(map[], fills), k);
    SumOfPnl(OfKey(TradesOf(map[], fills), k));
  }

  // ------------------------------------------------- independence of the keys

  function Only(fills: seq<Fill>, k: Key): seq<Fill> {
    if fills == [] then []
    else
      var f := fills[|fills| - 1];
      if KeyOf(f) == k then Only(fills[..|fills| - 1], k) + [f] else Only(fills[..|fills| - 1], k)
  }

  function Without(fills: seq<Fill>, k: Key): seq<Fill> {
    if fills == [] then []
    else
      var f := fills[|fills| - 1];
      if KeyOf(f) == k then Without(fills[..|fills| - 1], k) else Without(fills[..|fills| - 1], k) + [f]
  }

  function TradesWithout(trades: seq<Trade>, k: Key): seq<Trade> {
    if trades == [] then []
    else
      var t := trades[|trades| - 1];
      if TradeKey(t) == k then TradesWithout(trades[..|trades| - 1], k)
      else TradesWithout(trades[..|trades| - 1], k) + [t]
  }

  predicate SameAt(a: Lots, b: Lots, k: Key) {
    (k in a <==> k in b) && (k in a ==> a[k] == b[k])
  }

  ghost predicate SameExcept(a: Lots, b: Lots, k: Key) {
    forall j :: j != k ==> SameAt(a, b, j)
  }

  /** A fill reads and writes its own key's lot and no other. */
  lemma FillIsLocal(a: Lots, b: Lots, f: Fill)
    requires Sane(a) && Sane(b)
    ensures SameExcept(a, LotsAfterFill(a, f), KeyOf(f))
    ensures SameAt(a, b, KeyOf(f)) ==>
              && SameAt(LotsAfterFill(a, f), LotsAfterFill(b, f), KeyOf(f))
              && TradesOfFill(a, f) == TradesOfFill(b, f)
              && UnmatchedOfFill(a, f) == UnmatchedOfFill(b, f)
  {
  }

  /** A fill closes trades of its own key only. */
  lemma TradesOfFillByKey(lots: Lots, f: Fill, k: Key)
    ensures OfKey(TradesOfFill(lots, f), k) == if KeyOf(f) == k then TradesOfFill(lots, f) else []
    ensures TradesWithout(TradesOfFill(lots, f), k) == if KeyOf(f) == k then [] else TradesOfFill(lots, f)
  {
    var trades := TradesOfFill(lots, f);
    if trades != [] {
      assert trades[..|trades| - 1] == [];
    }
  }

  lemma FillAlone(before: Lots, alone: Lots, f: Fill, k: Key)
    requires Sane(before) && Sane(alone) && SameAt(before, alone, k)
    ensures KeyOf(f) == k ==>
              && SameAt(LotsAfterFill(before, f), LotsAfterFill(alone, f), k)
              && OfKey(TradesOfFill(before, f), k) == TradesOfFill(alone, f)
    ensures KeyOf(f) != k ==>
              && SameAt(LotsAfterFill(before, f), alone, k)
              && OfKey(TradesOfFill(before, f), k) == []
  {
    hide LotsAfterFill, TradesOfFill, UnmatchedOfFill, OfKey, Sane;
    FillIsLocal(before, alone, f);
    TradesOfFillByKey(before, f, k);
    assert k != KeyOf(f) ==> SameAt(before, LotsAfterFill(before, f), k);
  }

  /** The fills of one key, run alone, give that key's lot and trades. */
  lemma {:induction false} KeyAlone(a: Lots, b: Lots, fills: seq<Fill>, k: Key)
    requires Sane(a) && Sane(b) && SameAt(a, b, k)
    ensures SameAt(LotsAfter(a, fills), LotsAfter(b, Only(fills, k)), k)
    ensures OfKey(TradesOf(a, fills), k) == TradesOf(b, Only(fills, k))
  {
    if fills != [] {
      hide LotsAfterFill, TradesOfFill, UnmatchedOfFill, OfKey, Sane, SameAt, LotsAfter, TradesOf, Only;
      var n := |fills| - 1;
      var front, f := fills[..n], fills[n];
      assert fills[..n + 1] == fills;
      KeyAlone(a, b, front, k);
      Unfold(a, fills, n);
      var before, only := LotsAfter(a, front), Only(front, k);
      FillAlone(before, LotsAfter(b, only), f, k);
      OfKeyAppend(TradesOf(a, front), TradesOfFill(before, f), k);
      OneMoreAlone(fills, k, b);
    }
  }

  lemma OneMoreAlone(fills: seq<Fill>, k: Key, b: Lots)
    requires fills != [] && Sane(b)
    ensures var n := |fills| - 1;
            var only, f := Only(fills[..n], k), fills[n];
            if KeyOf(f) == k then
              && LotsAfter(b, Only(fills, k)) == LotsAfterFill(LotsAfter(b, only), f)
              && TradesOf(b, Only(fills, k)) == TradesOf(b, only) + TradesOfFill(LotsAfter(b, only), f)
            else Only(fills, k) == only
  {
    hide LotsAfterFill, TradesOfFill, UnmatchedOfFill;
    var n := |fills| - 1;
    var only, f := Only(fills[..n], k), fills[n];
    if KeyOf(f) == k {
      Unfold(b, only + [f], |only|);
      assert (only + [f])[..|only|] == only && (only + [f])[..|only| + 1] == only + [f] == Only(fills, k);
    }
  }

  /** Results for one strategy and instrument depend on that key's own fills, whatever else is interleaved. */
  lemma {:induction false} KeysAreIndependent(a: seq<Fill>, b: seq<Fill>, k: Key)
    requires Only(a, k) == Only(b, k)
    ensures OfKey(TradesOf(map[], a), k) == OfKey(TradesOf(map[], b), k)
    ensures SameAt(LotsAfter(map[], a), LotsAfter(map[], b), k)
  {
    KeyAlone(map[], map[], a, k);
    KeyAlone(map[], map[], b, k);
  }

  lemma {:induction false} TradesWithoutAppend(a: seq<Trade>, b: seq<Trade>, k: Key)
    ensures TradesWithout(a + b, k) == TradesWithout(a, k) + TradesWithout(b, k)
  {
    if b == [] {
      assert a + b == a;
    } else {
      Split(a, b);
      TradesWithoutAppend(a, b[..|b| - 1], k);
    }
  }

  /** Two books that differ at most at `k` still do after a fill of `k` in one, or of another key in both. */
  lemma DifferenceStays(a: Lots, b: Lots, f: Fill, k: Key)
    requires Sane(a) && Sane(b) && SameExcept(a, b, k)
    ensures KeyOf(f) == k ==> SameExcept(LotsAfterFill(a, f), b, k)
    ensures KeyOf(f) != k ==>
              && SameExcept(LotsAfterFill(a, f), LotsAfterFill(b, f), k)
              && SameAt(b, LotsAfterFill(b, f), k)
              && TradesOfFill(a, f) == TradesOfFill(b, f)
  {
    FillIsLocal(a, b, f);
    FillIsLocal(b, a, f);
    forall j | j != k
      ensures KeyOf(f) == k ==> SameAt(LotsAfterFill(a, f), b, j)
      ensures KeyOf(f) != k ==> SameAt(LotsAfterFill(a, f), LotsAfterFill(b, f), j)
    {
      assert SameAt(a, b, j);
      if j != KeyOf(f) {
        assert SameAt(a, LotsAfterFill(a, f), j) && SameAt(b, LotsAfterFill(b, f), j);
      }
    }
  }

  /** Leaving out a key leaves the other keys' lots and trades. */
  lemma {:induction false} OthersAlone(lots: Lots, fills: seq<Fill>, k: Key)
    requires Sane(lots)
    ensures SameExcept(LotsAfter(lots, fills), LotsAfter(lots, Without(fills, k)), k)
    ensures SameAt(lots, LotsAfter(lots, Without(fills, k)), k)
    ensures TradesWithout(TradesOf(lots, fills), k) == TradesOf(lots, Without(fills, k))
  {
    if fills != [] {
      hide LotsAfterFill, TradesOfFill, UnmatchedOfFill, TradesWithout, Sane;
      var n := |fills| - 1;
      var front, f := fills[..n], fills[n];
      assert fills[..n + 1] == fills;
      OthersAlone(lots, front, k);
      Unfold(lots, fills, n);
      var before, others := LotsAfter(lots, front), LotsAfter(lots, Without(front, k));
      TradesWithoutAppend(TradesOf(lots, front), TradesOfFill(before, f), k);
      DifferenceStays(before, others, f, k);
      TradesOfFillByKey(before, f, k);
      if KeyOf(f) != k {
        var without := Without(fills, k);
        assert without == Without(front, k) + [f];
        Unfold(lots, without, |without| - 1);
        assert without[..|without| - 1] == Without(front, k) && without[..|without|] == without;
      }
    }
  }

  /** The unmatched sales are those of the key and those of the others. */
  lemma {:induction false} UnmatchedSplits(lots: Lots, fills: seq<Fill>, k: Key)
    requires Sane(lots)
    ensures UnmatchedOf(lots, fills) == UnmatchedOf(lots, Without(fills, k)) + UnmatchedOf(lots, Only(fills, k))
  {
    if fills != [] {
      var n := |fills| - 1;
      var front, f := fills[..n], fills[n];
      assert fills[..n + 1] == fills;
      UnmatchedSplits(lots, front, k);
      Unfold(lots, fills, n);
      if KeyOf(f) == k {
        var only := Only(fills, k);
        assert only[..|only| - 1] == Only(front, k);
        KeyAlone(lots, lots, front, k);
        FillIsLocal(LotsAfter(lots, front), LotsAfter(lots, Only(front, k)), f);
      } else {
        var without := Without(fills, k);
        assert without[..|without| - 1] == Without(front, k);
        OthersAlone(lots, front, k);
        assert SameAt(LotsAfter(lots, front), LotsAfter(lots, Without(front, k)), KeyOf(f));
        FillIsLocal(LotsAfter(lots, front), LotsAfter(lots, Without(front, k)), f);
      }
    }
  }

  lemma {:induction false} RunsCompose(lots: Lots, a: seq<Fill>, b: seq<Fill>)
    requires Sane(lots)
    ensures LotsAfter(lots, a + b) == LotsAfter(LotsAfter(lots, a), b)
    ensures TradesOf(lots, a + b) == TradesOf(lots, a) + TradesOf(LotsAfter(lots, a), b)
    ensures UnmatchedOf(lots, a + b) == UnmatchedOf(lots, a) + UnmatchedOf(LotsAfter(lots, a), b)
  {
    if b == [] {
      assert a + b == a;
    } else {
      Split(a, b);
      RunsCompose(lots, a, b[..|b| - 1]);
    }
  }

  /** Excluding the fills of one key from a stretch that it enters and leaves flat takes out exactly the trades
      and unmatched sales those fills make on their own. Every other trade, and every open lot, stays. */
  lemma {:induction false} ExcludingAFlatBlock(before: seq<Fill>, block: seq<Fill>, after: seq<Fill>, k: Key)
    requires k !in LotsAfter(map[], before) && k !in LotsAfter(map[], before + block)
    ensures var all, kept := before + block + after, before + Without(block, k) + after;
            var head := TradesOf(map[], before);
            var mid := TradesOf(LotsAfter(map[], before), block);
            var tail := TradesOf(LotsAfter(map[], before + block), after);
            && LotsAfter(map[], kept) == LotsAfter(map[], all)
            && TradesOf(map[], all) == head + mid + tail
            && TradesOf(map[], kept) == head + TradesWithout(mid, k) + tail
            && OfKey(mid, k) == TradesOf(map[], Only(block, k))
            && UnmatchedOf(map[], all) == UnmatchedOf(map[], kept) + UnmatchedOf(map[], Only(block, k))
  {
    var flat := LotsAfter(map[], before);
    var others := Without(block, k);
    RunsCompose(map[], before, block);
    RunsCompose(map[], before, others);
    RunsCompose(map[], before + block, after);
    RunsCompose(map[], before + others, after);
    FlatBlockLeavesLots(flat, block, k);
    OthersAlone(flat, block, k);
    KeyAlone(flat, map[], block, k);
    UnmatchedSplits(flat, block, k);
    UnmatchedAlone(flat, block, k);
  }

  lemma SameBooks(a: Lots, b: Lots, k: Key)
    requires SameExcept(b, a, k) && k !in a && k !in b
    ensures a == b
  {
    forall j: Key
      ensures (j in a <==> j in b) && (j in a ==> a[j] == b[j])
    {
      assert j != k ==> SameAt(b, a, j);
    }
  }

  lemma {:induction false} FlatBlockLeavesLots(lots: Lots, block: seq<Fill>, k: Key)
    requires Sane(lots) && k !in lots && k !in LotsAfter(lots, block)
    ensures LotsAfter(lots, Without(block, k)) == LotsAfter(lots, block)
  {
    hide LotsAfter, Without, TradesWithout, TradesOf;
    OthersAlone(lots, block, k);
    SameBooks(LotsAfter(lots, Without(block, k)), LotsAfter(lots, block), k);
  }

  /** From flat, the unmatched sales of one key's fills do not depend on the other lots. */
  lemma {:induction false} UnmatchedAlone(lots: Lots, fills: seq<Fill>, k: Key)
    requires Sane(lots) && k !in lots
    ensures UnmatchedOf(lots, Only(fills, k)) == UnmatchedOf(map[], Only(fills, k))
    ensures SameAt(LotsAfter(lots, Only(fills, k)), LotsAfter(map[], Only(fills, k)), k)
  {
    if fills != [] {
      var front, f := fills[..|fills| - 1], fills[|fills| - 1];
      UnmatchedAlone(lots, front, k);
      if KeyOf(f) == k {
        var only := Only(fills, k);
        assert only[..|only| - 1] == Only(front, k);
        FillIsLocal(LotsAfter(lots, Only(front, k)), LotsAfter(map[], Only(front, k)), f);
      }
    }
  }
}
