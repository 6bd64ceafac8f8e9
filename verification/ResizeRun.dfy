/** Executing a resize plan against a broker that may fail at any step (execute_resize_plan in trader/sdk.py).

    What a run asks of the broker, and what comes of it, is a sequence of events; the broker's book after any of them
    is their replay. The methods say exactly which events a run is made of and what it reports, and the lemmas are
    about every such run and every moment of it. */
module ResizeRun {
  import opened Common
  import opened ResizePlan

  datatype OrderType = Stp | StpLmt | Trail | Lmt

  datatype Order = Order(
    conId: int, action: Action, quantity: real, orderType: OrderType, auxPrice: real, limitPrice: real,
    trailingPercent: real, tif: string, orderRef: string)

  /** Orders are numbered by the broker. */
  datatype OrderId = OrderId(number: int)

  /** A protective order as the plan recorded it. */
  datatype Associated = Associated(id: OrderId, order: Order)

  datatype PlanStep = PlanStep(adj: Adjustment, associated: seq<Associated>)

  datatype Reply = Done | Refused | TimedOut | Raised

  datatype MarketOrder = MarketOrder(conId: int, action: Action, quantity: real)

  type Orders = map<OrderId, Order>

  function OfInstrument(live: Orders, conId: int): set<OrderId> {
    set id | id in live && live[id].conId == conId
  }

  // ------------------------------------------------------- the book and its events

  /** The broker's book of protective orders. A cancel that was asked for may take effect at any later time or never;
      `acked` are those whose request was acknowledged. `heirs` gives each re-created order's own replacement. */
  datatype Book = Book(
    live: Orders, nextId: int, asked: set<OrderId>, acked: set<OrderId>, heirs: map<OrderId, OrderId>)

  datatype Event =
    | Delta(market: MarketOrder, reply: Reply)
    | Cancel(id: OrderId, reply: Reply)
    | Place(of: OrderId, order: Order, held: real, reply: Reply, placed: bool)
    | Lapse(gone: set<OrderId>)

  /** The order the broker is given: of the recorded prices, those that the type of the order has. */
  function Built(o: Order): Order {
    match o.orderType
    case Stp => o.(limitPrice := 0.0, trailingPercent := 0.0)
    case Trail => o.(limitPrice := 0.0, auxPrice := if o.trailingPercent != 0.0 then 0.0 else o.auxPrice)
    case Lmt => o.(auxPrice := 0.0, trailingPercent := 0.0)
    case StpLmt => o
  }

  function After(k: Book, e: Event): Book {
    match e
    case Delta(_, _) => k
    case Cancel(id, reply) =>
      k.(asked := k.asked + {id}, acked := if reply == Done then k.acked + {id} else k.acked)
    case Place(of, order, _, _, placed) =>
      if placed then
        k.(live := k.live[OrderId(k.nextId) := Built(order)], nextId := k.nextId + 1,
           heirs := k.heirs[of := OrderId(k.nextId)])
      else k
    case Lapse(gone) => k.(live := k.live - gone * k.asked)
  }

  function Replay(k: Book, events: seq<Event>): Book {
    if events == [] then k else After(Replay(k, events[..|events| - 1]), events[|events| - 1])
  }

  lemma {:induction false} ReplayJoins(k: Book, first: seq<Event>, more: seq<Event>)
    ensures Replay(k, first + more) == Replay(Replay(k, first), more)
  {
    if more == [] {
      assert first + more == first;
    } else {
      var n := |more| - 1;
      assert (first + more)[..|first + more| - 1] == first + more[..n];
      ReplayJoins(k, first, more[..n]);
    }
  }

  lemma ReplayTwo(k: Book, e: Event, f: Event)
    ensures Replay(k, [e]) == After(k, e) && Replay(k, [e, f]) == After(After(k, e), f)
  {
    assert [e][..0] == [] && [e, f][..1] == [e];
  }

  // --------------------------------------------------------------- the broker

  predicate Between(a: real, x: real, b: real) {
    a <= x <= b || b <= x <= a
  }

  function HeldIn(position: map<int, real>, conId: int): real {
    if conId in position then position[conId] else 0.0
  }

  /** Whether the order takes away from a position of this size. */
  predicate Reduces(action: Action, held: real) {
    if action == Sell then held > 0.0 else held < 0.0
  }

  /** The tolerance of the oversize check. */
  function Slack(held: real): real {
    Times(0.000000001, if Abs(held) > 1.0 then Abs(held) else 1.0)
  }

  /** What a protective order must be to be placed at all. */
  predicate Placeable(o: Order, held: real) {
    && o.orderType != StpLmt
    && o.quantity > 0.0 && Reduces(o.action, held) && o.quantity <= Abs(held) + Slack(held)
  }

  /** The broker. Which reply a call gets, and how much of a market order has filled, is not up to the caller. */
  class Broker {
    var position: map<int, real>
    ghost var book: Book
    ghost var log: seq<Event>
    /** The answers given to those who asked for a position. */
    ghost var readings: seq<real>

    function Held(conId: int): real
      reads this`position
    {
      HeldIn(position, conId)
    }

    /** A market order towards `target` may fill a little more at any time. */
    method Drift(conId: int, target: real)
      modifies this`position
      ensures Between(old(Held(conId)), Held(conId), target)
      ensures position - {conId} == old(position) - {conId}
    {
      var x: real := *;
      if Between(Held(conId), x, target) {
        position := position[conId := x];
      }
    }

    /** Some cancels that were asked for take effect, or none. */
    method TakeEffect() returns (ghost gone: set<OrderId>)
      modifies this`book, this`log
      ensures log == old(log) + [Lapse(gone)] && book == After(old(book), Lapse(gone))
    {
      gone := *;
      book := book.(live := book.live - gone * book.asked);
      log := log + [Lapse(gone)];
    }

    /** The delta. It may fill whatever the reply says: a confirmation that came too late is a refusal too. */
    method PlaceMarketOrder(market: MarketOrder, target: real) returns (reply: Reply)
      modifies this`position, this`log
      ensures log == old(log) + [Delta(market, reply)]
      ensures Between(old(Held(market.conId)), Held(market.conId), target)
      ensures position - {market.conId} == old(position) - {market.conId}
    {
      reply := *;
      log := log + [Delta(market, reply)];
      Drift(market.conId, target);
    }

    /** A cancel only asks: the order may be gone at once, later or never, and `Done` says no more than the rest. */
    method CancelOrder(id: OrderId) returns (reply: Reply, ghost lapsed: set<OrderId>)
      modifies this`book, this`log
      ensures log == old(log) + [Lapse(lapsed), Cancel(id, reply)]
      ensures book == After(After(old(book), Lapse(lapsed)), Cancel(id, reply))
    {
      lapsed := TakeEffect();
      reply := *;
      book := book.(asked := book.asked + {id}, acked := if reply == Done then book.acked + {id} else book.acked);
      log := log + [Cancel(id, reply)];
    }

    /** A protective order in place of `of`. One that is no plain stop, trail or limit, or that does not reduce the
        position, or is larger, is refused and not placed; any other may be placed whatever the reply says. */
    method PlaceStandaloneOrder(order: Order, ghost of: OrderId) returns (reply: Reply, ghost p: Placing)
      modifies this`book, this`log
      ensures p.held == Held(order.conId) && p.reply == reply
      ensures log == old(log) + PlacingEvents(of, order, p)
      ensures book == After(After(old(book), Lapse(p.lapsed)), PlacingEvents(of, order, p)[1])
      ensures p.placed ==> Placeable(order, Held(order.conId))
      ensures !Placeable(order, Held(order.conId)) ==> reply != Done
      ensures reply == Done ==> p.placed
    {
      ghost var lapsed := TakeEffect();
      reply := *;
      var placed: bool := *;
      if !Placeable(order, Held(order.conId)) {
        placed := false;
        if reply == Done {
          reply := Refused;
        }
      } else if reply == Done {
        placed := true;
      }
      if placed {
        book := book.(live := book.live[OrderId(book.nextId) := Built(order)], nextId := book.nextId + 1,
                      heirs := book.heirs[of := OrderId(book.nextId)]);
      }
      p := Placing(lapsed, Held(order.conId), reply, placed);
      log := log + [Place(of, order, p.held, reply, placed)];
    }

    /** The signed position, or zero when it cannot be read. */
    method LivePositionQty(conId: int) returns (q: real)
      modifies this`readings
      ensures q == Held(conId) || q == 0.0
      ensures readings == old(readings) + [q]
    {
      var readable: bool := *;
      q := if conId == 0 || !readable then 0.0 else Held(conId);
      readings := readings + [q];
    }
  }

  // ------------------------------------------------------------- what a run is made of

  /** A request to place a protective order: what was held of its instrument then, and what came of it. */
  datatype Placing = Placing(lapsed: set<OrderId>, held: real, reply: Reply, placed: bool)

  /** How it went for one protective order. */
  datatype Reset = Reset(lapsed: set<OrderId>, cancel: Reply, placing: Option<Placing>)

  /** How it went for one adjustment. */
  datatype StepRun = Failed(reply: Reply) | Unresolved | Unfilled(held: real) | Reached(resets: seq<Reset>)

  /** A protective order brought to the new quantity. */
  function Remade(o: Order, a: Adjustment): Order {
    o.(quantity := Abs(a.target as real))
  }

  function DeltaOf(s: PlanStep): MarketOrder {
    MarketOrder(s.adj.conId, s.adj.action, Abs(s.adj.delta))
  }

  function PlacingEvents(of: OrderId, order: Order, p: Placing): (r: seq<Event>)
    ensures |r| == 2
  {
    [Lapse(p.lapsed), Place(of, order, p.held, p.reply, p.placed)]
  }

  function ResetEvents(info: Associated, a: Adjustment, r: Reset): seq<Event> {
    [Lapse(r.lapsed), Cancel(info.id, r.cancel)]
    + if r.placing.Some? then PlacingEvents(info.id, Remade(info.order, a), r.placing.value) else []
  }

  /** One reset for each order, in turn; any more would be for no order. */
  function ResetsEvents(s: PlanStep, resets: seq<Reset>): seq<Event> {
    if resets == [] then []
    else
      var n := |resets| - 1;
      ResetsEvents(s, resets[..n])
      + if n < |s.associated| then ResetEvents(s.associated[n], s.adj, resets[n]) else []
  }

  function StepEvents(s: PlanStep, r: StepRun): seq<Event> {
    match r
    case Failed(reply) => [Delta(DeltaOf(s), reply)]
    case Reached(resets) => [Delta(DeltaOf(s), Done)] + ResetsEvents(s, resets)
    case _ => [Delta(DeltaOf(s), Done)]
  }

  function PlanEvents(plan: seq<PlanStep>, runs: seq<StepRun>): seq<Event>
    requires |runs| <= |plan|
  {
    if runs == [] then []
    else
      var n := |runs| - 1;
      PlanEvents(plan, runs[..n]) + StepEvents(plan[n], runs[n])
  }

  /** The order fits what is held: no larger, and on the other side. */
  predicate Fits(o: Order, held: real) {
    o.quantity <= Abs(held) && (o.quantity > 0.0 ==> Reduces(o.action, held))
  }

  /** Nothing is placed unless the cancel was acknowledged, and what is asked for then fits. */
  predicate PossibleReset(info: Associated, a: Adjustment, r: Reset) {
    && (r.placing.Some? <==> r.cancel == Done)
    && (r.placing.Some? ==> PossiblePlacing(Remade(info.order, a), r.placing.value))
  }

  predicate PossiblePlacing(o: Order, p: Placing) {
    && Fits(o, p.held)
    && (p.reply == Done ==> p.placed)
    && (p.placed ==> Placeable(o, p.held))
  }

  predicate PossibleStep(s: PlanStep, contracts: map<string, int>, r: StepRun) {
    match r
    case Failed(reply) => reply != Done
    case Unresolved => s.adj.symbol !in contracts
    case Unfilled(_) => Abs(s.adj.target as real) > Abs(s.adj.current)
    case Reached(resets) =>
      && |resets| == |s.associated|
      && forall i :: 0 <= i < |resets| ==> PossibleReset(s.associated[i], s.adj, resets[i])
  }

  predicate PossibleRun(plan: seq<PlanStep>, contracts: map<string, int>, runs: seq<StepRun>)
    requires |runs| <= |plan|
  {
    forall i :: 0 <= i < |runs| ==> PossibleStep(plan[i], contracts, runs[i])
  }

  // --------------------------------------------------------------- what it reports

  /** Messages say in words what they are about; here they carry the instrument, since symbols may be shared. */
  datatype Message =
    | Traded(symbol: string, conId: int, action: Action, quantity: real)
    | Recreated(symbol: string, conId: int, id: OrderId, quantity: real)
    | DeltaFailed(symbol: string, conId: int, reply: Reply)
    | NoContract(symbol: string, conId: int)
    | NotFilled(symbol: string, conId: int, target: int, held: real)
    | CancelError(symbol: string, conId: int, id: OrderId)
    | CancelUnconfirmed(symbol: string, conId: int, id: OrderId)
    | RecreateFailed(symbol: string, conId: int, id: OrderId, reply: Reply)

  datatype Report = Report(successes: seq<Message>, failures: seq<Message>, warnings: seq<Message>)

  const SILENT: Report := Report([], [], [])

  function Join(a: Report, b: Report): Report {
    Report(a.successes + b.successes, a.failures + b.failures, a.warnings + b.warnings)
  }

  function ResetReport(info: Associated, a: Adjustment, r: Reset): Report {
    match r.cancel
    case Done =>
      if r.placing.None? then SILENT
      else if r.placing.value.reply == Done then
        SILENT.(successes := [Recreated(a.symbol, a.conId, info.id, Abs(a.target as real))])
      else SILENT.(warnings := [RecreateFailed(a.symbol, a.conId, info.id, r.placing.value.reply)])
    case Refused => SILENT.(warnings := [CancelUnconfirmed(a.symbol, a.conId, info.id)])
    case _ =>
      SILENT.(warnings := [CancelError(a.symbol, a.conId, info.id), CancelUnconfirmed(a.symbol, a.conId, info.id)])
  }

  function ResetsReport(s: PlanStep, resets: seq<Reset>): Report {
    if resets == [] then SILENT
    else
      var n := |resets| - 1;
      Join(ResetsReport(s, resets[..n]),
           if n < |s.associated| then ResetReport(s.associated[n], s.adj, resets[n]) else SILENT)
  }

  function StepReport(s: PlanStep, r: StepRun): Report {
    var a := s.adj;
    var traded := SILENT.(successes := [Traded(a.symbol, a.conId, a.action, Abs(a.delta))]);
    match r
    case Failed(reply) => SILENT.(failures := [DeltaFailed(a.symbol, a.conId, reply)])
    case Unresolved => traded.(warnings := [NoContract(a.symbol, a.conId)])
    case Unfilled(held) => traded.(warnings := [NotFilled(a.symbol, a.conId, a.target, Abs(held))])
    case Reached(resets) => Join(traded, ResetsReport(s, resets))
  }

  function PlanReport(plan: seq<PlanStep>, runs: seq<StepRun>): Report
    requires |runs| <= |plan|
  {
    if runs == [] then SILENT
    else
      var n := |runs| - 1;
      Join(PlanReport(plan, runs[..n]), StepReport(plan[n], runs[n]))
  }

  // ------------------------------------------------------------------- the methods

  /** The position has the target's size or more: a protective order of that size fits. */
  ghost predicate Covered(b: Broker, a: Adjustment)
    reads b
  {
    && Abs(a.target as real) <= Abs(b.Held(a.conId))
    && (a.current > 0.0 ==> b.Held(a.conId) >= 0.0)
    && (a.current < 0.0 ==> b.Held(a.conId) <= 0.0)
  }

  /** A protective order of the position that `a` adjusts. */
  predicate Protects(o: Order, a: Adjustment) {
    o.conId == a.conId && o.action == if a.current > 0.0 then Sell else Buy
  }

  lemma CoveredFits(b: Broker, a: Adjustment, o: Order)
    requires SoundAdjustment(a) && Covered(b, a) && Protects(o, a)
    ensures Fits(Remade(o, a), b.Held(a.conId))
  {
  }

  /** One protective order: cancel, confirm, re-create. */
  method ResetProtective(b: Broker, a: Adjustment, info: Associated)
    returns (successes: seq<Message>, warnings: seq<Message>, ghost r: Reset)
    requires SoundAdjustment(a) && Covered(b, a) && Protects(info.order, a)
    modifies b
    ensures Covered(b, a) && b.position - {a.conId} == old(b.position) - {a.conId}
    ensures PossibleReset(info, a, r)
    ensures b.log == old(b.log) + ResetEvents(info, a, r)
    ensures b.book == Replay(old(b.book), ResetEvents(info, a, r))
    ensures Report(successes, [], warnings) == ResetReport(info, a, r)
  {
    successes, warnings := [], [];
    b.Drift(a.conId, a.target as real);
    var reply, lapsed := b.CancelOrder(info.id);
    r := Reset(lapsed, reply, None);
    ghost var asked := [Lapse(lapsed), Cancel(info.id, reply)];
    ReplayTwo(old(b.book), Lapse(lapsed), Cancel(info.id, reply));
    if reply != Done {
      if reply == Raised || reply == TimedOut {
        warnings := [CancelError(a.symbol, a.conId, info.id)];
      }
      warnings := warnings + [CancelUnconfirmed(a.symbol, a.conId, info.id)];
      return;
    }
    b.Drift(a.conId, a.target as real);
    CoveredFits(b, a, info.order);
    var order := Remade(info.order, a);
    ghost var p;
    reply, p := b.PlaceStandaloneOrder(order, info.id);
    r := Reset(lapsed, Done, Some(p));
    ReplayTwo(Replay(old(b.book), asked), Lapse(p.lapsed), PlacingEvents(info.id, order, p)[1]);
    ReplayJoins(old(b.book), asked, PlacingEvents(info.id, order, p));
    if reply == Done {
      successes := [Recreated(a.symbol, a.conId, info.id, Abs(a.target as real))];
    } else {
      warnings := [RecreateFailed(a.symbol, a.conId, info.id, reply)];
    }
  }

  /** All protective orders of an adjustment, one after the other. */
  method ResetProtectives(b: Broker, s: PlanStep)
    returns (successes: seq<Message>, warnings: seq<Message>, ghost resets: seq<Reset>)
    requires SoundAdjustment(s.adj) && Covered(b, s.adj)
    requires forall i :: 0 <= i < |s.associated| ==> Protects(s.associated[i].order, s.adj)
    modifies b
    ensures b.position - {s.adj.conId} == old(b.position) - {s.adj.conId}
    ensures |resets| == |s.associated|
    ensures forall i :: 0 <= i < |resets| ==> PossibleReset(s.associated[i], s.adj, resets[i])
    ensures b.log == old(b.log) + ResetsEvents(s, resets)
    ensures b.book == Replay(old(b.book), ResetsEvents(s, resets))
    ensures Report(successes, [], warnings) == ResetsReport(s, resets)
  {
    hide Replay, ResetEvents, ResetReport, PossibleReset, ResetsEvents, ResetsReport;
    successes, warnings, resets := [], [], [];
    NoReset(b.book, s);
    ghost var start, log, position := b.book, b.log, b.position - {s.adj.conId};
    for k := 0 to |s.associated|
      invariant Covered(b, s.adj) && b.position - {s.adj.conId} == position
      invariant |resets| == k
      invariant forall i :: 0 <= i < k ==> PossibleReset(s.associated[i], s.adj, resets[i])
      invariant b.log == log + ResetsEvents(s, resets)
      invariant b.book == Replay(start, ResetsEvents(s, resets))
      invariant Report(successes, [], warnings) == ResetsReport(s, resets)
    {
      var done, warned;
      ghost var r;
      done, warned, r := ResetProtective(b, s.adj, s.associated[k]);
      OneMoreReset(start, log, s, resets, r);
      successes, warnings, resets := successes + done, warnings + warned, resets + [r];
    }
  }

  lemma NoReset(start: Book, s: PlanStep)
    ensures ResetsEvents(s, []) == [] && ResetsReport(s, []) == SILENT && Replay(start, []) == start
  {
  }

  lemma OneMoreReset(start: Book, log: seq<Event>, s: PlanStep, resets: seq<Reset>, r: Reset)
    requires |resets| < |s.associated|
    ensures var info, before, all := s.associated[|resets|], ResetsEvents(s, resets), ResetsEvents(s, resets + [r]);
            && log + all == log + before + ResetEvents(info, s.adj, r)
            && Replay(start, all) == Replay(Replay(start, before), ResetEvents(info, s.adj, r))
            && ResetsReport(s, resets + [r]) == Join(ResetsReport(s, resets), ResetReport(info, s.adj, r))
  {
    hide ResetEvents, ResetReport, Replay;
    assert (resets + [r])[..|resets|] == resets;
    ReplayJoins(start, ResetsEvents(s, resets), ResetEvents(s.associated[|resets|], s.adj, r));
  }

  /** Some readings of a position, of which only the last may have the target's size. */
  predicate Polled(readings: seq<real>, target: int, grown: bool) {
    && readings != []
    && (forall i :: 0 <= i < |readings| - 1 ==> Abs(readings[i]) < Abs(target as real))
    && (grown <==> Abs(readings[|readings| - 1]) >= Abs(target as real))
  }

  /** Wait, for at most `polls` more turns of the clock, until the position has grown to the target: the answer is yes
      exactly if the last reading reached it, and no only after every reading there was time for fell short. */
  method AwaitGrownPosition(b: Broker, a: Adjustment, polls: nat) returns (grown: bool)
    requires SoundAdjustment(a) && a.target != 0 && Between(a.current, b.Held(a.conId), a.target as real)
    modifies b`position, b`readings
    ensures b.position - {a.conId} == old(b.position) - {a.conId}
    ensures grown ==> Covered(b, a)
    ensures old(b.readings) <= b.readings && Polled(b.readings[|old(b.readings)|..], a.target, grown)
    ensures !grown ==> |b.readings| == |old(b.readings)| + polls + 1
  {
    var left := polls;
    ghost var start := b.readings;
    while true
      invariant b.position - {a.conId} == old(b.position) - {a.conId}
      invariant Between(a.current, b.Held(a.conId), a.target as real)
      invariant start <= b.readings && |b.readings| + left == |start| + polls
      invariant forall i :: |start| <= i < |b.readings| ==> Abs(b.readings[i]) < Abs(a.target as real)
      decreases left
    {
      b.Drift(a.conId, a.target as real);
      var q := b.LivePositionQty(a.conId);
      if Abs(q) >= Abs(a.target as real) {
        return true;
      }
      if left == 0 {
        return false;
      }
      left := left - 1;
    }
  }

  /** The cached contract of a symbol, or a fresh resolution, which may fail. */
  method ResolveContract(contracts: map<string, int>, a: Adjustment) returns (conId: Option<int>)
    requires a.symbol in contracts ==> contracts[a.symbol] == a.conId
    ensures conId == Some(a.conId) || (conId == None && a.symbol !in contracts)
  {
    if a.symbol in contracts {
      return Some(contracts[a.symbol]);
    }
    var resolved: bool := *;
    conId := if resolved then Some(a.conId) else None;
  }

  /** A step as the planner makes it: a sound adjustment of what is held, and orders that protect it. */
  predicate Planned(position: map<int, real>, s: PlanStep) {
    && SoundAdjustment(s.adj) && HeldIn(position, s.adj.conId) == s.adj.current
    && forall i :: 0 <= i < |s.associated| ==> Protects(s.associated[i].order, s.adj)
  }

  /** One adjustment: the delta first, then, only once it is known to have worked, the protective orders. */
  method ExecuteStep(b: Broker, s: PlanStep, contracts: map<string, int>, polls: nat)
    returns (successes: seq<Message>, failures: seq<Message>, warnings: seq<Message>, ghost r: StepRun)
    requires Planned(b.position, s)
    requires s.adj.symbol in contracts ==> contracts[s.adj.symbol] == s.adj.conId
    modifies b
    ensures b.position - {s.adj.conId} == old(b.position) - {s.adj.conId}
    ensures PossibleStep(s, contracts, r)
    ensures b.log == old(b.log) + StepEvents(s, r)
    ensures b.book == Replay(old(b.book), StepEvents(s, r))
    ensures Report(successes, failures, warnings) == StepReport(s, r)
  {
    hide Replay, ResetsEvents, ResetsReport, PossibleReset;
    var a := s.adj;
    successes, failures, warnings := [], [], [];
    var reply := b.PlaceMarketOrder(DeltaOf(s), a.target as real);
    ghost var delta := [Delta(DeltaOf(s), reply)];
    ReplayTwo(old(b.book), delta[0], delta[0]);
    if reply != Done {
      failures, r := [DeltaFailed(a.symbol, a.conId, reply)], Failed(reply);
      return;
    }
    successes := [Traded(a.symbol, a.conId, a.action, Abs(a.delta))];
    var contract := ResolveContract(contracts, a);
    if contract.None? {
      warnings, r := [NoContract(a.symbol, a.conId)], Unresolved;
      return;
    }
    if Abs(a.target as real) > Abs(a.current) {
      var grown := AwaitGrownPosition(b, a, polls);
      if !grown {
        var held := b.LivePositionQty(a.conId);
        warnings, r := [NotFilled(a.symbol, a.conId, a.target, Abs(held))], Unfilled(held);
        return;
      }
    }
    var done, warned;
    ghost var resets;
    done, warned, resets := ResetProtectives(b, s);
    ReplayJoins(old(b.book), delta, ResetsEvents(s, resets));
    successes, warnings, r := successes + done, warned, Reached(resets);
  }

  predicate Apart(plan: seq<PlanStep>) {
    forall i, j :: 0 <= i < j < |plan| ==> plan[i].adj.conId != plan[j].adj.conId
  }

  /** The whole plan, whatever the broker does: the run is one of those the lemmas below are about. */
  method ExecuteResizePlan(b: Broker, plan: seq<PlanStep>, contracts: map<string, int>, polls: nat)
    returns (successes: seq<Message>, failures: seq<Message>, warnings: seq<Message>, ghost runs: seq<StepRun>)
    requires Apart(plan) && forall i :: 0 <= i < |plan| ==> Planned(b.position, plan[i])
    requires forall i :: 0 <= i < |plan| && plan[i].adj.symbol in contracts ==>
               contracts[plan[i].adj.symbol] == plan[i].adj.conId
    modifies b
    ensures |runs| == |plan| && PossibleRun(plan, contracts, runs)
    ensures b.log == old(b.log) + PlanEvents(plan, runs)
    ensures b.book == Replay(old(b.book), PlanEvents(plan, runs))
    ensures Report(successes, failures, warnings) == PlanReport(plan, runs)
  {
    hide Replay, StepEvents, StepReport, PossibleStep, PlanEvents, PlanReport, Planned;
    successes, failures, warnings, runs := [], [], [], [];
    NoStep(b.book, plan);
    ghost var start, log := b.book, b.log;
    for k := 0 to |plan|
      invariant |runs| == k && PossibleRun(plan, contracts, runs)
      invariant forall i :: k <= i < |plan| ==> Planned(b.position, plan[i])
      invariant b.log == log + PlanEvents(plan, runs)
      invariant b.book == Replay(start, PlanEvents(plan, runs))
      invariant Report(successes, failures, warnings) == PlanReport(plan, runs)
    {
      ghost var position := b.position;
      var done, failed, warned;
      ghost var r;
      done, failed, warned, r := ExecuteStep(b, plan[k], contracts, polls);
      forall i | k < i < |plan|
        ensures Planned(b.position, plan[i])
      {
        StaysPlanned(position, b.position, plan[k].adj.conId, plan[i]);
      }
      OneMoreStep(start, log, plan, runs, r);
      successes, failures, warnings, runs := successes + done, failures + failed, warnings + warned, runs + [r];
    }
  }

  lemma OneMoreStep(start: Book, log: seq<Event>, plan: seq<PlanStep>, runs: seq<StepRun>, r: StepRun)
    requires |runs| < |plan|
    ensures var s, before, all := plan[|runs|], PlanEvents(plan, runs), PlanEvents(plan, runs + [r]);
            && log + all == log + before + StepEvents(s, r) && all == before + StepEvents(s, r)
            && Replay(start, all) == Replay(Replay(start, before), StepEvents(s, r))
            && PlanReport(plan, runs + [r]) == Join(PlanReport(plan, runs), StepReport(s, r))
  {
    hide StepEvents, StepReport, Replay;
    assert (runs + [r])[..|runs|] == runs;
    ReplayJoins(start, PlanEvents(plan, runs), StepEvents(plan[|runs|], r));
  }

  lemma NoStep(start: Book, plan: seq<PlanStep>)
    ensures PlanEvents(plan, []) == [] && PlanReport(plan, []) == SILENT && Replay(start, []) == start
  {
  }

  lemma StaysPlanned(before: map<int, real>, after: map<int, real>, moved: int, s: PlanStep)
    requires moved != s.adj.conId && before - {moved} == after - {moved} && Planned(before, s)
    ensures Planned(after, s)
  {
    var conId := s.adj.conId;
    assert conId in before <==> conId in before - {moved};
    assert conId in after <==> conId in after - {moved};
  }
}
