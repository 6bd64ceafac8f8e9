/** What a resize plan asks the broker for, field by field, and what it says about it (execute_resize_plan in
    trader/sdk.py). */
module ResizeTerms {
  import opened Common
  import opened ResizePlan
  import opened ResizeRun
  import opened ResizeLaws

  function Size(target: int): int {
    if target < 0 then -target else target
  }

  /** The order asked for has every term of the recorded one but its quantity, which is the whole new size. */
  predicate SameTerms(order: Order, recorded: Order, target: int) {
    && order.conId == recorded.conId && order.action == recorded.action && order.orderType == recorded.orderType
    && order.auxPrice == recorded.auxPrice && order.limitPrice == recorded.limitPrice
    && order.trailingPercent == recorded.trailingPercent && order.tif == recorded.tif
    && order.orderRef == recorded.orderRef && order.quantity == Size(target) as real
  }

  /** An order at the broker, with the prices that an order of its type has. */
  predicate LivesOn(order: Order, recorded: Order, target: int) {
    && order.conId == recorded.conId && order.action == recorded.action && order.orderType == recorded.orderType
    && order.tif == recorded.tif && order.orderRef == recorded.orderRef && order.quantity == Size(target) as real
    && (recorded.orderType == Lmt ==> order.limitPrice == recorded.limitPrice)
    && (recorded.orderType == Stp ==> order.auxPrice == recorded.auxPrice)
    && (recorded.orderType == Trail ==> order.trailingPercent == recorded.trailingPercent)
    && (recorded.orderType == Trail && recorded.trailingPercent == 0.0 ==> order.auxPrice == recorded.auxPrice)
  }

  predicate Recreates(e: Event, s: PlanStep) {
    e.Place? ==>
      exists j :: 0 <= j < |s.associated| && e.of == s.associated[j].id
                  && SameTerms(e.order, s.associated[j].order, s.adj.target)
  }

  lemma {:induction false} ResetsRecreate(s: PlanStep, resets: seq<Reset>)
    ensures forall e :: e in ResetsEvents(s, resets) ==> Recreates(e, s)
  {
    if resets != [] {
      var n := |resets| - 1;
      ResetsRecreate(s, resets[..n]);
      if n < |s.associated| {
        ResetRecreates(s, n, resets[n]);
      }
    }
  }

  lemma ResetRecreates(s: PlanStep, n: nat, r: Reset)
    requires n < |s.associated|
    ensures forall e :: e in ResetEvents(s.associated[n], s.adj, r) ==> Recreates(e, s)
  {
    var order := Remade(s.associated[n].order, s.adj);
    assert SameTerms(order, s.associated[n].order, s.adj.target);
  }

  predicate RecreatesOne(e: Event, plan: seq<PlanStep>) {
    exists i :: 0 <= i < |plan| && Recreates(e, plan[i])
  }

  /** Every order asked for has the terms of the listed order whose place it takes, and the step's whole new size. */
  lemma {:induction false} RequestsKeepTheirTerms(plan: seq<PlanStep>, runs: seq<StepRun>)
    requires |runs| <= |plan|
    ensures forall e :: e in PlanEvents(plan, runs) && e.Place? ==> RecreatesOne(e, plan)
  {
    if runs != [] {
      var n := |runs| - 1;
      RequestsKeepTheirTerms(plan, runs[..n]);
      hide Recreates;
      if runs[n].Reached? {
        ResetsRecreate(plan[n], runs[n].resets);
      }
      forall e | e in StepEvents(plan[n], runs[n]) && e.Place?
        ensures RecreatesOne(e, plan)
      {
        assert Recreates(e, plan[n]);
      }
    }
  }

  /** Some earlier event is the acknowledged cancel of this order. */
  predicate AckedBefore(events: seq<Event>, n: nat, id: OrderId)
    requires n <= |events|
  {
    exists m :: 0 <= m < n && events[m] == Cancel(id, Done)
  }

  lemma {:induction false} AckedMeansCancelled(start: Book, events: seq<Event>, n: nat, id: OrderId)
    requires n <= |events|
    ensures id in Replay(start, events[..n]).acked <==> id in start.acked || AckedBefore(events, n, id)
  {
    if n == 0 {
      assert events[..0] == [];
    } else {
      AckedMeansCancelled(start, events, n - 1, id);
      assert events[..n][..n - 1] == events[..n - 1];
      if events[n - 1] == Cancel(id, Done) {
        assert AckedBefore(events, n, id);
      } else if m :| 0 <= m < n && events[m] == Cancel(id, Done) {
        assert AckedBefore(events, n - 1, id);
      } else {
        assert !AckedBefore(events, n - 1, id);
      }
    }
  }

  /** Nothing is asked for in place of an order before its own cancel was acknowledged in this run. */
  lemma NothingBeforeItsCancel(start: Book, plan: seq<PlanStep>, contracts: map<string, int>, runs: seq<StepRun>,
                               n: nat)
    requires Opening(start, plan) && |runs| == |plan| && PossibleRun(plan, contracts, runs)
    requires n < |PlanEvents(plan, runs)| && PlanEvents(plan, runs)[n].Place?
    ensures AckedBefore(PlanEvents(plan, runs), n, PlanEvents(plan, runs)[n].of)
  {
    var events := PlanEvents(plan, runs);
    var id := events[n].of;
    RunIsDisciplined(start, plan, contracts, runs);
    assert Allowed(start, Replay(start, events[..n]), events[n]);
    AckedMeansCancelled(start, events, n, id);
    RequestsKeepTheirTerms(plan, runs);
    assert events[n] in events;
    var i :| 0 <= i < |plan| && Recreates(events[n], plan[i]);
    assert ListsIt(plan[i], id);
    assert OpeningStep(start, plan[i]);
    ListedOrder(start, plan[i], id);
  }

  /** The replacement that a listed order ends with has that order's terms, and the prices of its type. */
  lemma HeirsLiveOn(start: Book, plan: seq<PlanStep>, contracts: map<string, int>, runs: seq<StepRun>, i: nat, j: nat)
    requires Opening(start, plan) && |runs| == |plan| && PossibleRun(plan, contracts, runs)
    requires i < |plan| && runs[i].Reached? && j < |plan[i].associated|
    requires plan[i].associated[j].id in Replay(start, PlanEvents(plan, runs)).heirs
    ensures var k, info := Replay(start, PlanEvents(plan, runs)), plan[i].associated[j];
            k.heirs[info.id] in k.live && LivesOn(k.live[k.heirs[info.id]], info.order, plan[i].adj.target)
  {
    hide Opening, PossibleRun, PlanEvents, PlanReport, Replay, LivesOn;
    RunIsDisciplined(start, plan, contracts, runs);
    var k, w, info := Replay(start, PlanEvents(plan, runs)), PlanReport(plan, runs).warnings, plan[i].associated[j];
    assert StepSettled(k, plan[i], runs[i], w) && Accounted(k, info, plan[i].adj, w) && HasHeir(start, k, info.id);
    BuiltLivesOn(info.order, plan[i].adj);
  }

  lemma BuiltLivesOn(o: Order, a: Adjustment)
    requires o.orderType != StpLmt
    ensures LivesOn(Built(Remade(o, a)), o, a.target)
  {
  }

  // --------------------------------------------------------------------- the deltas

  /** A market order for the size of the step's change, on its side. */
  predicate IsDeltaOf(m: MarketOrder, a: Adjustment) {
    && m.conId == a.conId && m.action == a.action
    && (a.delta >= 0.0 ==> m.quantity == a.delta) && (a.delta < 0.0 ==> m.quantity == -a.delta)
  }

  lemma {:induction false} DeltasAre(plan: seq<PlanStep>)
    ensures |DeltasOf(plan)| == |plan| && forall i :: 0 <= i < |plan| ==> IsDeltaOf(DeltasOf(plan)[i], plan[i].adj)
  {
    if plan != [] {
      DeltasAre(plan[..|plan| - 1]);
    }
  }

  /** In every run the market orders sent are one for each step, in plan order, each for the whole change of its
      step. */
  lemma MarketOrdersAreTheDeltas(plan: seq<PlanStep>, contracts: map<string, int>, runs: seq<StepRun>)
    requires |runs| == |plan| && PossibleRun(plan, contracts, runs)
    ensures var sent := Deltas(PlanEvents(plan, runs));
            |sent| == |plan| && forall i :: 0 <= i < |plan| ==> IsDeltaOf(sent[i], plan[i].adj)
  {
    EachDeltaIsSentOnce(plan, contracts, runs);
    assert plan[..|runs|] == plan;
    DeltasAre(plan);
  }

  // ----------------------------------------------------------------- what is reported

  lemma {:induction false} SuccessesOfResets(s: PlanStep, resets: seq<Reset>, m: Message)
    requires |resets| <= |s.associated|
    ensures m in ResetsReport(s, resets).successes <==> SaysRecreated(s, resets, m)
  {
    if resets != [] {
      var n := |resets| - 1;
      SuccessesOfResets(s, resets[..n], m);
      var own := ResetReport(s.associated[n], s.adj, resets[n]).successes;
      assert m in own <==> WasRecreated(resets[n])
                           && m == Recreated(s.adj.symbol, s.adj.conId, s.associated[n].id, Size(s.adj.target) as real);
      if SaysRecreated(s, resets[..n], m) {
        var j :| 0 <= j < n && WasRecreated(resets[..n][j])
                 && m == Recreated(s.adj.symbol, s.adj.conId, s.associated[j].id, Size(s.adj.target) as real);
        assert resets[..n][j] == resets[j];
      }
    }
  }

  /** The cancel was acknowledged and the replacement confirmed. */
  predicate WasRecreated(r: Reset) {
    r.cancel == Done && r.placing.Some? && r.placing.value.reply == Done
  }

  /** `m` says that one of the step's orders was re-created. */
  predicate SaysRecreated(s: PlanStep, resets: seq<Reset>, m: Message)
    requires |resets| <= |s.associated|
  {
    exists j :: 0 <= j < |resets| && WasRecreated(resets[j])
                && m == Recreated(s.adj.symbol, s.adj.conId, s.associated[j].id, Size(s.adj.target) as real)
  }

  /** What the successes say of a step. */
  predicate ReportsOf(s: PlanStep, r: StepRun, m: Message)
    requires r.Reached? ==> |r.resets| <= |s.associated|
  {
    var size := if s.adj.delta < 0.0 then -s.adj.delta else s.adj.delta;
    || (!r.Failed? && m == Traded(s.adj.symbol, s.adj.conId, s.adj.action, size))
    || (r.Reached? && SaysRecreated(s, r.resets, m))
  }

  predicate Matched(plan: seq<PlanStep>, runs: seq<StepRun>)
    requires |runs| <= |plan|
  {
    forall i :: 0 <= i < |runs| && runs[i].Reached? ==> |runs[i].resets| <= |plan[i].associated|
  }

  lemma RunsMatch(plan: seq<PlanStep>, contracts: map<string, int>, runs: seq<StepRun>)
    requires |runs| <= |plan| && PossibleRun(plan, contracts, runs)
    ensures Matched(plan, runs)
  {
    forall i | 0 <= i < |runs|
      ensures runs[i].Reached? ==> |runs[i].resets| <= |plan[i].associated|
    {
      assert PossibleStep(plan[i], contracts, runs[i]);
    }
  }

  lemma OneMoreReport(s: PlanStep, r: StepRun, m: Message)
    requires r.Reached? ==> |r.resets| <= |s.associated|
    ensures m in StepReport(s, r).successes <==> ReportsOf(s, r, m)
  {
    if r.Reached? {
      SuccessesOfResets(s, r.resets, m);
      hide ResetsReport, SaysRecreated;
    }
  }

  /** What the warnings say of one order: that its cancel raised, that it was not confirmed, or that the replacement
      was not. */
  predicate WarnsOfOrder(info: Associated, a: Adjustment, r: Reset, m: Message) {
    || ((r.cancel == Raised || r.cancel == TimedOut) && m == CancelError(a.symbol, a.conId, info.id))
    || (r.cancel != Done && m == CancelUnconfirmed(a.symbol, a.conId, info.id))
    || (r.cancel == Done && r.placing.Some? && r.placing.value.reply != Done
        && m == RecreateFailed(a.symbol, a.conId, info.id, r.placing.value.reply))
  }

  predicate WarnsOfOrders(s: PlanStep, resets: seq<Reset>, m: Message)
    requires |resets| <= |s.associated|
  {
    exists j :: 0 <= j < |resets| && WarnsOfOrder(s.associated[j], s.adj, resets[j], m)
  }

  predicate WarnsOf(s: PlanStep, r: StepRun, m: Message)
    requires r.Reached? ==> |r.resets| <= |s.associated|
  {
    match r
    case Failed(_) => false
    case Unresolved => m == NoContract(s.adj.symbol, s.adj.conId)
    case Unfilled(held) => m == NotFilled(s.adj.symbol, s.adj.conId, s.adj.target, if held < 0.0 then -held else held)
    case Reached(resets) => WarnsOfOrders(s, resets, m)
  }

  predicate FailsOf(s: PlanStep, r: StepRun, m: Message) {
    r.Failed? && m == DeltaFailed(s.adj.symbol, s.adj.conId, r.reply)
  }

  lemma {:induction false} WarningsOfResets(s: PlanStep, resets: seq<Reset>, m: Message)
    requires |resets| <= |s.associated|
    ensures ResetsReport(s, resets).failures == []
    ensures m in ResetsReport(s, resets).warnings <==> WarnsOfOrders(s, resets, m)
  {
    if resets != [] {
      var n := |resets| - 1;
      WarningsOfResets(s, resets[..n], m);
      assert m in ResetReport(s.associated[n], s.adj, resets[n]).warnings <==>
             WarnsOfOrder(s.associated[n], s.adj, resets[n], m);
      hide WarnsOfOrder, ResetReport;
      if WarnsOfOrders(s, resets[..n], m) {
        var j :| 0 <= j < n && WarnsOfOrder(s.associated[j], s.adj, resets[..n][j], m);
        assert resets[..n][j] == resets[j];
      }
    }
  }

  lemma OneMoreTrouble(s: PlanStep, r: StepRun, m: Message)
    requires r.Reached? ==> |r.resets| <= |s.associated|
    ensures m in StepReport(s, r).warnings <==> WarnsOf(s, r, m)
    ensures m in StepReport(s, r).failures <==> FailsOf(s, r, m)
  {
    if r.Reached? {
      WarningsOfResets(s, r.resets, m);
      hide ResetsReport, WarnsOfOrders;
    }
  }

  datatype Part = Successes | Failures | Warnings

  function PartOf(r: Report, part: Part): seq<Message> {
    match part
    case Successes => r.successes
    case Failures => r.failures
    case Warnings => r.warnings
  }

  predicate SaysOf(s: PlanStep, r: StepRun, part: Part, m: Message)
    requires r.Reached? ==> |r.resets| <= |s.associated|
  {
    match part
    case Successes => ReportsOf(s, r, m)
    case Failures => FailsOf(s, r, m)
    case Warnings => WarnsOf(s, r, m)
  }

  predicate SomeStepSays(plan: seq<PlanStep>, runs: seq<StepRun>, part: Part, m: Message)
    requires |runs| <= |plan| && Matched(plan, runs)
  {
    exists i :: 0 <= i < |runs| && SaysOf(plan[i], runs[i], part, m)
  }

  lemma OneStepSays(s: PlanStep, r: StepRun, part: Part, m: Message)
    requires r.Reached? ==> |r.resets| <= |s.associated|
    ensures m in PartOf(StepReport(s, r), part) <==> SaysOf(s, r, part, m)
  {
    OneMoreReport(s, r, m);
    OneMoreTrouble(s, r, m);
    hide StepReport, ReportsOf, FailsOf, WarnsOf;
  }

  lemma LastStepSays(plan: seq<PlanStep>, runs: seq<StepRun>, part: Part, m: Message)
    requires 0 < |runs| <= |plan| && Matched(plan, runs)
    ensures var n := |runs| - 1;
            && Matched(plan, runs[..n])
            && (SomeStepSays(plan, runs, part, m) <==>
                  SomeStepSays(plan, runs[..n], part, m) || SaysOf(plan[n], runs[n], part, m))
  {
    var n := |runs| - 1;
    hide SaysOf;
    if SomeStepSays(plan, runs[..n], part, m) {
      var i :| 0 <= i < n && SaysOf(plan[i], runs[..n][i], part, m);
      assert runs[..n][i] == runs[i];
    }
    if i :| 0 <= i < n && SaysOf(plan[i], runs[i], part, m) {
      assert runs[..n][i] == runs[i];
    }
  }

  lemma LastReport(plan: seq<PlanStep>, runs: seq<StepRun>, part: Part, m: Message)
    requires 0 < |runs| <= |plan|
    ensures var n := |runs| - 1;
            m in PartOf(PlanReport(plan, runs), part) <==>
              m in PartOf(PlanReport(plan, runs[..n]), part) || m in PartOf(StepReport(plan[n], runs[n]), part)
  {
    hide StepReport;
  }

  /** The successes are exactly: for each step whose delta was confirmed, that it traded, and for each protective order
      confirmed to be re-created, that it was. The failures are exactly the deltas that were not confirmed, each with
      its reply; the warnings are exactly the contracts not found, the targets not reached, and the cancels and
      replacements that were not confirmed. */
  lemma {:induction false} ReportIs(plan: seq<PlanStep>, contracts: map<string, int>, runs: seq<StepRun>, part: Part,
                                    m: Message)
    requires |runs| <= |plan| && PossibleRun(plan, contracts, runs)
    ensures Matched(plan, runs)
    ensures m in PartOf(PlanReport(plan, runs), part) <==> SomeStepSays(plan, runs, part, m)
  {
    RunsMatch(plan, contracts, runs);
    if runs != [] {
      var n := |runs| - 1;
      assert PossibleRun(plan, contracts, runs[..n]);
      ReportIs(plan, contracts, runs[..n], part, m);
      LastReport(plan, runs, part, m);
      LastStepSays(plan, runs, part, m);
      OneStepSays(plan[n], runs[n], part, m);
      hide *;
    }
  }
}
