/** Scaling a portfolio to a value bound in whole shares (compute_resize_deltas in trader/sdk.py). */
module ResizePlan {
  import opened Common

  /** A key of a position record: not there, there but None, or a number. */
  datatype Field = Absent | Null | Num(x: real)

  datatype Position = Position(
    symbol: string, conId: int, quantity: real, price: Field, value: Field, baseValue: Field)

  datatype Action = Buy | Sell

  datatype Adjustment = Adjustment(
    symbol: string, conId: int, current: real, target: int, delta: real, action: Action,
    currentValue: real, targetValue: real, price: real)

  function Abs(x: real): (r: real)
    ensures r >= 0.0 && (r == x || r == -x)
  {
    if x < 0.0 then -x else x
  }

  function Floor(x: real): (n: int)
    ensures n as real <= x < n as real + 1.0
  {
    x.Floor
  }

  /** Python's int(): towards zero. */
  function Truncate(x: real): int {
    if x >= 0.0 then Floor(x) else -Floor(-x)
  }

  /** The whole-share size a position of `quantity` is scaled to. */
  function Target(quantity: real, scale: real): int {
    Truncate(Times(quantity, scale))
  }

  /** Multiplication by name, so that proofs can match it. */
  function Times(a: real, b: real): real {
    a * b
  }

  function Or0(f: Field): real {
    if f.Num? then f.x else 0.0
  }

  /** A value in the account's base currency wins over the raw one even when it is None. */
  function Value(p: Position): (r: real)
    ensures p.baseValue.Num? ==> r == p.baseValue.x
    ensures p.baseValue.Absent? && p.value.Num? ==> r == p.value.x
    ensures p.baseValue.Null? || (p.baseValue.Absent? && !p.value.Num?) ==> r == 0.0
  {
    if p.baseValue.Absent? then Or0(p.value) else Or0(p.baseValue)
  }

  function Total(positions: seq<Position>): (r: real)
    ensures r >= 0.0
  {
    if positions == [] then 0.0 else Total(positions[..|positions| - 1]) + Abs(Value(positions[|positions| - 1]))
  }

  function ScaleFor(total: real, maxBound: Option<real>, minBound: Option<real>): real {
    if total == 0.0 then 1.0
    else if maxBound.Some? && total > maxBound.value then maxBound.value / total
    else if minBound.Some? && total < minBound.value then minBound.value / total
    else 1.0
  }

  function Adjusted(p: Position, scale: real): Option<Adjustment> {
    var target := Target(p.quantity, scale);
    var delta := target as real - p.quantity;
    if p.quantity == 0.0 || delta == 0.0 then None
    else
      var action :=
        if p.quantity > 0.0 then (if delta > 0.0 then Buy else Sell) else (if delta < 0.0 then Sell else Buy);
      var price, value := Or0(p.price), Or0(p.value);
      Some(Adjustment(p.symbol, p.conId, p.quantity, target, delta, action, value,
                      if price != 0.0 then Times(target as real, price) else Times(value, scale), price))
  }

  function Adjustments(positions: seq<Position>, scale: real): seq<Adjustment> {
    if positions == [] then []
    else
      var rest := Adjustments(positions[..|positions| - 1], scale);
      var a := Adjusted(positions[|positions| - 1], scale);
      if a.Some? then rest + [a.value] else rest
  }

  /** One turn of the loop over the positions. There is no adjustment exactly if the position is already a whole-share
      size that the scale leaves in place; any other leads from what is held to the scaled size cut down to whole
      shares, and buys exactly to raise. */
  method Adjust(p: Position, scale: real) returns (a: Option<Adjustment>)
    ensures a == Adjusted(p, scale)
    ensures a.None? <==> IsCutTo(Times(p.quantity, scale), p.quantity)
    ensures a.Some? ==> a.value.symbol == p.symbol && a.value.conId == p.conId && a.value.current == p.quantity
    ensures a.Some? ==> IsCutTo(Times(p.quantity, scale), a.value.target as real)
    ensures a.Some? && scale >= 0.0 ==> SoundAdjustment(a.value)
    ensures a.Some? ==> Describes(a.value, p, scale)
  {
    AdjustedIsCut(p, scale);
    if Adjusted(p, scale).Some? {
      AdjustedDescribes(p, scale);
    }
    hide IsCutTo, Describes, SoundAdjustment, Times, Or0, Target;
    if p.quantity == 0.0 {
      return None;
    }
    var price, value := Or0(p.price), Or0(p.value);
    var target := Target(p.quantity, scale);
    var delta := target as real - p.quantity;
    if delta == 0.0 {
      return None;
    }
    var action;
    if p.quantity > 0.0 {
      action := if delta > 0.0 then Buy else Sell;
    } else {
      action := if delta < 0.0 then Sell else Buy;
    }
    var targetValue := if price != 0.0 then Times(target as real, price) else Times(value, scale);
    a := Some(Adjustment(p.symbol, p.conId, p.quantity, target, delta, action, value, targetValue, price));
  }

  /** The figures that go with an adjustment: the difference, its side, and what the position is and will be worth. */
  predicate Describes(a: Adjustment, p: Position, scale: real) {
    && a.delta == a.target as real - p.quantity && (a.action == Buy <==> a.delta > 0.0)
    && a.price == (if p.price.Num? then p.price.x else 0.0)
    && a.currentValue == (if p.value.Num? then p.value.x else 0.0)
    && (a.price != 0.0 ==> a.targetValue == a.target as real * a.price)
    && (a.price == 0.0 ==> a.targetValue == a.currentValue * scale)
  }

  lemma AdjustedDescribes(p: Position, scale: real)
    requires Adjusted(p, scale).Some?
    ensures Describes(Adjusted(p, scale).value, p, scale)
  {
  }

  /** `whole` is `x` without its fraction: a whole number on the same side of zero, less than one short of it. */
  predicate IsCutTo(x: real, whole: real) {
    && Floor(whole) as real == whole
    && (whole > 0.0 ==> x > 0.0) && (whole < 0.0 ==> x < 0.0)
    && Abs(whole) <= Abs(x) < Abs(whole) + 1.0
  }

  lemma OneCut(x: real, a: int, b: real)
    requires IsCutTo(x, a as real) && IsCutTo(x, b)
    ensures a as real == b
  {
    var n := Floor(b);
    assert n as real == b;
    assert -1.0 < (a - n) as real < 1.0;
  }

  lemma TruncateCuts(x: real)
    ensures IsCutTo(x, Truncate(x) as real)
  {
    var n := Truncate(x);
    assert Floor(n as real) == n by {
      var m := Floor(n as real);
      assert m as real <= n as real < (m + 1) as real;
    }
  }

  lemma AdjustedIsCut(p: Position, scale: real)
    ensures var a := Adjusted(p, scale);
            && (a.None? <==> IsCutTo(Times(p.quantity, scale), p.quantity))
            && (a.Some? ==> IsCutTo(Times(p.quantity, scale), a.value.target as real))
            && (a.Some? && scale >= 0.0 ==> SoundAdjustment(a.value))
  {
    var x := Times(p.quantity, scale);
    TruncateCuts(x);
    if IsCutTo(x, p.quantity) {
      OneCut(x, Truncate(x), p.quantity);
    }
    if p.quantity == 0.0 {
      assert x == 0.0;
    }
    if scale >= 0.0 {
      Product(p.quantity, scale);
    }
  }

  predicate Above(total: real, maxBound: Option<real>) {
    maxBound.Some? && total > maxBound.value
  }

  predicate Below(total: real, minBound: Option<real>) {
    minBound.Some? && total < minBound.value
  }

  /** The scale takes the total to the bound it violates, the maximum before the minimum. Where it violates neither, or
      there is no value at all, nothing is scaled and nothing adjusted. */
  method ComputeResizeDeltas(positions: seq<Position>, maxBound: Option<real>, minBound: Option<real>)
    returns (scale: real, adjustments: seq<Adjustment>)
    ensures scale == ScaleFor(Total(positions), maxBound, minBound)
    ensures adjustments == if scale == 1.0 then [] else Adjustments(positions, scale)
    ensures Total(positions) == 0.0 || !(Above(Total(positions), maxBound) || Below(Total(positions), minBound)) ==>
              scale == 1.0 && adjustments == []
    ensures Total(positions) != 0.0 && Above(Total(positions), maxBound) ==>
              Times(scale, Total(positions)) == maxBound.value
    ensures Total(positions) != 0.0 && !Above(Total(positions), maxBound) && Below(Total(positions), minBound) ==>
              Times(scale, Total(positions)) == minBound.value
  {
    hide Value, Adjustments, Times, Abs;
    ScaleMeetsBounds(Total(positions), maxBound, minBound);
    var total := 0.0;
    for n := 0 to |positions|
      invariant total == Total(positions[..n])
    {
      assert positions[..n + 1][..n] == positions[..n];
      total := total + Abs(Value(positions[n]));
    }
    assert positions[..|positions|] == positions;
    if total == 0.0 {
      return 1.0, [];
    }
    scale := 1.0;
    if maxBound.Some? && total > maxBound.value {
      scale := maxBound.value / total;
    } else if minBound.Some? && total < minBound.value {
      scale := minBound.value / total;
    }
    if scale == 1.0 {
      return 1.0, [];
    }
    adjustments := Collect(positions, scale);
  }

  /** The scale takes a total that violates a bound to that bound, and leaves any other as it is. */
  lemma ScaleMeetsBounds(total: real, maxBound: Option<real>, minBound: Option<real>)
    ensures var scale := ScaleFor(total, maxBound, minBound);
            && (total == 0.0 || !(Above(total, maxBound) || Below(total, minBound)) ==> scale == 1.0)
            && (total != 0.0 && Above(total, maxBound) ==> Times(scale, total) == maxBound.value)
            && (total != 0.0 && !Above(total, maxBound) && Below(total, minBound) ==>
                  Times(scale, total) == minBound.value)
  {
    if total != 0.0 && Above(total, maxBound) {
      Divided(maxBound.value, total);
    } else if total != 0.0 && Below(total, minBound) {
      Divided(minBound.value, total);
    }
  }

  lemma Divided(x: real, y: real)
    requires y != 0.0
    ensures Times(x / y, y) == x
  {
  }

  /** The total is the sum of the sizes of the values, one for each position. */
  lemma {:induction false} TotalJoins(a: seq<Position>, b: seq<Position>)
    ensures Total(a + b) == Total(a) + Total(b)
    ensures Total([]) == 0.0 && forall p :: Total([p]) == Abs(Value(p))
  {
    forall p: Position
      ensures Total([p]) == Abs(Value(p))
    {
      assert [p][..0] == [];
    }
    if b == [] {
      assert a + b == a;
    } else {
      var n := |b| - 1;
      assert (a + b)[..|a + b| - 1] == a + b[..n];
      TotalJoins(a, b[..n]);
    }
  }

  /** The adjustments are those of the positions one by one, in their order. */
  lemma {:induction false} AdjustmentsJoin(a: seq<Position>, b: seq<Position>, scale: real)
    ensures Adjustments(a + b, scale) == Adjustments(a, scale) + Adjustments(b, scale)
    ensures Adjustments([], scale) == []
    ensures forall p :: Adjustments([p], scale) == if Adjusted(p, scale).Some? then [Adjusted(p, scale).value] else []
  {
    forall p: Position
      ensures Adjustments([p], scale) == if Adjusted(p, scale).Some? then [Adjusted(p, scale).value] else []
    {
      assert [p][..0] == [];
    }
    hide Adjusted;
    if b == [] {
      assert a + b == a;
    } else {
      var n := |b| - 1;
      assert (a + b)[..|a + b| - 1] == a + b[..n];
      AdjustmentsJoin(a, b[..n], scale);
    }
  }

  method Collect(positions: seq<Position>, scale: real) returns (adjustments: seq<Adjustment>)
    ensures adjustments == Adjustments(positions, scale)
  {
    adjustments := [];
    for n := 0 to |positions|
      invariant adjustments == Adjustments(positions[..n], scale)
    {
      assert positions[..n + 1][..n] == positions[..n];
      var a := Adjust(positions[n], scale);
      if a.Some? {
        adjustments := adjustments + [a.value];
      }
    }
    assert positions[..|positions|] == positions;
  }

  // ------------------------------------------------------------ one position

  /** What a position holds once its adjustment, if it has one, is filled. */
  function Resized(p: Position, scale: real): real {
    var a := Adjusted(p, scale);
    if a.Some? then p.quantity + a.value.delta else p.quantity
  }

  function Ceiling(x: real): (n: int)
    ensures n as real - 1.0 < x <= n as real
  {
    -Floor(-x)
  }

  lemma ResizedIsTarget(p: Position, scale: real)
    ensures Resized(p, scale) == Target(p.quantity, scale) as real
  {
    if p.quantity == 0.0 {
      assert Times(p.quantity, scale) == 0.0;
      assert Target(p.quantity, scale) == 0;
    }
  }

  lemma ResizedSize(p: Position, scale: real)
    requires scale >= 0.0
    ensures Times(Abs(p.quantity), scale) >= 0.0
    ensures Abs(Resized(p, scale)) == Floor(Times(Abs(p.quantity), scale)) as real
    ensures p.quantity >= 0.0 ==> Resized(p, scale) >= 0.0
    ensures p.quantity <= 0.0 ==> Resized(p, scale) <= 0.0
  {
    ResizedIsTarget(p, scale);
    var q := p.quantity;
    Product(q, scale);
    if q >= 0.0 {
      assert Abs(q) == q;
    } else {
      assert Abs(q) == -q;
      if Times(q, scale) == 0.0 {
        assert Floor(0.0) == 0;
      }
    }
  }

  lemma Product(q: real, scale: real)
    ensures Times(-q, scale) == -Times(q, scale)
    ensures q >= 0.0 && scale >= 0.0 ==> Times(q, scale) >= 0.0
    ensures q <= 0.0 && scale >= 0.0 ==> Times(q, scale) <= 0.0
    ensures q > 0.0 && scale > 1.0 ==> Times(q, scale) > q
    ensures q >= 0.0 && 0.0 <= scale < 1.0 ==> Times(q, scale) <= q
  {
    var excess, deficit := scale - 1.0, 1.0 - scale;
    assert Times(q, scale) == q + q * excess;
    assert Times(q, scale) == q - q * deficit;
    assert q > 0.0 && excess > 0.0 ==> q * excess > 0.0;
    assert q >= 0.0 && deficit >= 0.0 ==> q * deficit >= 0.0;
  }

  /** Truncation loses less than one share and never crosses zero, for any bound that is not negative. */
  lemma ResizedIsWithinAShare(p: Position, scale: real)
    requires scale >= 0.0
    ensures Abs(Resized(p, scale)) <= Abs(p.quantity) * scale < Abs(Resized(p, scale)) + 1.0
    ensures p.quantity >= 0.0 ==> Resized(p, scale) >= 0.0
    ensures p.quantity <= 0.0 ==> Resized(p, scale) <= 0.0
  {
    ResizedSize(p, scale);
    assert Times(Abs(p.quantity), scale) == Abs(p.quantity) * scale;
  }

  /** An adjustment buys exactly when it raises the signed quantity, whatever the side of the position. */
  lemma BuysExactlyToRaise(p: Position, scale: real)
    requires Adjusted(p, scale).Some?
    ensures var a := Adjusted(p, scale).value;
            && a.delta != 0.0 && a.current + a.delta == a.target as real
            && (a.action == Buy <==> a.delta > 0.0)
  {
  }

  /** A position changes side exactly when a negative bound scales it by a whole share or more. */
  lemma FlipsOnlyOnNegativeBounds(p: Position, scale: real)
    requires p.quantity != 0.0
    ensures (Resized(p, scale) < 0.0 < p.quantity || p.quantity < 0.0 < Resized(p, scale))
            <==> Times(Abs(p.quantity), scale) <= -1.0
  {
    ResizedIsTarget(p, scale);
    Product(p.quantity, scale);
    assert Abs(p.quantity) == p.quantity || Abs(p.quantity) == -p.quantity;
  }

  /** A plan that is meant to grow shrinks a position exactly when the scaled size falls short of the next
      whole share: never for whole-share positions, but for 0.5 shares scaled by 1.5, say. */
  lemma {:induction false} GrowShrinksExactlyFractions(p: Position, scale: real)
    requires scale > 1.0 && p.quantity != 0.0
    ensures Abs(Resized(p, scale)) < Abs(p.quantity)
            <==> Times(Abs(p.quantity), scale) < Ceiling(Abs(p.quantity)) as real
    ensures Floor(p.quantity) as real == p.quantity ==> Abs(p.quantity) <= Abs(Resized(p, scale))
  {
    ResizedSize(p, scale);
    Product(Abs(p.quantity), scale);
    FloorBelow(Times(Abs(p.quantity), scale), Abs(p.quantity));
    if Floor(p.quantity) as real == p.quantity {
      FloorOfWhole(p.quantity);
    }
  }

  /** Half a share worth 50, in a portfolio that is to grow to 75: the scale is 1.5, and nothing is left. */
  lemma HalfAShareIsSold()
    ensures var p := Position("A", 1, 0.5, Num(100.0), Num(50.0), Absent);
            var scale := ScaleFor(Total([p]), None, Some(75.0));
            && scale == 1.5 && Resized(p, scale) == 0.0
            && Adjusted(p, scale).Some? && Adjusted(p, scale).value.action == Sell
  {
    var p := Position("A", 1, 0.5, Num(100.0), Num(50.0), Absent);
    assert [p][..0] == [] && Total([p]) == 50.0;
    assert Times(0.5, 1.5) == 0.75;
  }

  lemma FloorBelow(x: real, q: real)
    requires x > q >= 0.0
    ensures Floor(x) as real < q <==> x < Ceiling(q) as real
  {
    var f, c := Floor(x), Ceiling(q);
    if f as real < q {
      assert f + 1 <= c;
      assert (f + 1) as real <= c as real;
    } else {
      assert c <= f;
      assert c as real <= f as real <= x;
    }
  }

  lemma FloorOfWhole(q: real)
    requires Floor(q) as real == q
    ensures Ceiling(Abs(q)) as real == Abs(q)
  {
    var n := if q < 0.0 then -Floor(q) else Floor(q);
    assert n as real == Abs(q);
    var c := Ceiling(n as real);
    assert c - 1 < n <= c;
  }

  lemma ShrinkNeverGrows(p: Position, scale: real)
    requires 0.0 <= scale < 1.0
    ensures Abs(Resized(p, scale)) <= Abs(p.quantity)
  {
    ResizedSize(p, scale);
    Product(Abs(p.quantity), scale);
  }

  // --------------------------------------------------------------- the whole plan

  /** `units[i]` is what one share of position `i` is worth in base currency. */
  predicate Priced(positions: seq<Position>, units: seq<real>) {
    && |units| == |positions|
    && forall i :: 0 <= i < |positions| ==> PricedAt(positions[i], units[i])
  }

  predicate PricedAt(p: Position, unit: real) {
    unit >= 0.0 && Abs(Value(p)) == Times(Abs(p.quantity), unit)
  }

  function NewTotal(positions: seq<Position>, units: seq<real>, scale: real): real
    requires |units| == |positions|
  {
    if positions == [] then 0.0
    else
      var n := |positions| - 1;
      NewTotal(positions[..n], units[..n], scale) + Times(Abs(Resized(positions[n], scale)), units[n])
  }

  /** One position's part of the new total, against its part of the scaled old one. */
  lemma ScaledPart(p: Position, unit: real, scale: real)
    requires PricedAt(p, unit) && scale >= 0.0
    ensures var after, goal := Times(Abs(Resized(p, scale)), unit), Times(Abs(Value(p)), scale);
            after <= goal <= after + unit && (Abs(Value(p)) > 0.0 ==> goal < after + unit)
  {
    ResizedSize(p, scale);
    var q := Abs(p.quantity);
    Regroup(q, unit, scale);
    Slice(Abs(Resized(p, scale)), Times(q, scale), unit);
    if unit == 0.0 {
      assert Times(q, unit) == 0.0;
    }
  }

  lemma Regroup(a: real, b: real, c: real)
    ensures Times(Times(a, b), c) == Times(Times(a, c), b)
  {
  }

  lemma Slice(after: real, scaled: real, unit: real)
    requires unit >= 0.0 && after <= scaled < after + 1.0
    ensures Times(after, unit) <= Times(scaled, unit) <= Times(after, unit) + unit
    ensures unit > 0.0 ==> Times(scaled, unit) < Times(after, unit) + unit
  {
    var gap := scaled - after;
    assert Times(scaled, unit) == Times(after, unit) + gap * unit;
  }

  lemma {:induction false} ScaledTotal(positions: seq<Position>, units: seq<real>, scale: real)
    requires Priced(positions, units) && scale >= 0.0
    ensures var after, goal := NewTotal(positions, units, scale), Times(Total(positions), scale);
            after <= goal <= after + Sum(units) && (Total(positions) > 0.0 ==> goal < after + Sum(units))
  {
    if positions == [] {
      assert Times(Total(positions), scale) == 0.0;
    } else {
      var n := |positions| - 1;
      ScaledTotal(positions[..n], units[..n], scale);
      ScaledPart(positions[n], units[n], scale);
      Distribute(Total(positions[..n]), Abs(Value(positions[n])), scale);
    }
  }

  lemma Distribute(a: real, b: real, c: real)
    ensures Times(a + b, c) == Times(a, c) + Times(b, c)
  {
  }

  /** Where a bound applies, the resized portfolio is worth at most the bound, and short of it by less than one
      share of everything: for a maximum as for a minimum, whole shares or not. */
  lemma PlanMeetsItsBound(positions: seq<Position>, units: seq<real>, maxBound: Option<real>, minBound: Option<real>)
    requires Priced(positions, units) && Total(positions) > 0.0
    requires maxBound.Some? ==> maxBound.value >= 0.0
    ensures var total := Total(positions);
            var after := NewTotal(positions, units, ScaleFor(total, maxBound, minBound));
            && (maxBound.Some? && total > maxBound.value ==>
                  after <= maxBound.value < after + Sum(units))
            && (!(maxBound.Some? && total > maxBound.value) && minBound.Some? && total < minBound.value ==>
                  after <= minBound.value < after + Sum(units))
  {
    var total := Total(positions);
    var scale := ScaleFor(total, maxBound, minBound);
    if maxBound.Some? && total > maxBound.value {
      Quotient(maxBound.value, total);
      ScaledTotal(positions, units, scale);
    } else if minBound.Some? && total < minBound.value {
      Quotient(minBound.value, total);
      ScaledTotal(positions, units, scale);
    }
  }

  lemma Quotient(bound: real, total: real)
    requires bound >= 0.0 && total > 0.0
    ensures bound / total >= 0.0 && Times(total, bound / total) == bound
  {
  }

  /** What the executor may rely on in an adjustment. */
  predicate SoundAdjustment(a: Adjustment) {
    && a.current != 0.0 && a.delta != 0.0 && a.current + a.delta == a.target as real
    && (a.action == Buy <==> a.delta > 0.0)
    && (a.current > 0.0 ==> a.target >= 0)
    && (a.current < 0.0 ==> a.target <= 0)
  }

  lemma {:induction false} AdjustmentsAreSound(positions: seq<Position>, scale: real)
    requires scale >= 0.0
    ensures forall a :: a in Adjustments(positions, scale) ==> SoundAdjustment(a)
  {
    if positions != [] {
      var n := |positions| - 1;
      AdjustmentsAreSound(positions[..n], scale);
      ResizedIsWithinAShare(positions[n], scale);
    }
  }
}
