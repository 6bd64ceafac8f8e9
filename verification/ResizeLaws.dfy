/** What holds at every moment of every run of a resize plan (execute_resize_plan in trader/sdk.py). */
module ResizeLaws {
  import opened Common
  import opened ResizePlan
  import opened ResizeRun

  // --------------------------------------------------- what holds at every moment of a run

  /** An original order that `s` lists, as it is in the book, with no cancel pending. */
  predicate ListedAt(k: Book, s: PlanStep, i: nat)
    requires i < |s.associated|
  {
    var info := s.associated[i];
    info.id in k.live && info.id !in k.asked && k.live[info.id] == info.order && info.order.conId == s.adj.conId
  }

  /** Every id in the book has been given out. */
  predicate Issued(k: Book) {
    (forall id :: id in k.live ==> id.number < k.nextId) && (forall id :: id in k.asked ==> id.number < k.nextId)
  }

  /** The book a run starts from: the plan lists orders as they are there, each once. */
  ghost predicate Opening(k: Book, plan: seq<PlanStep>) {
    && Issued(k) && (forall id :: id in k.acked ==> id in k.asked) && k.heirs == map[]
    && Apart(plan)
    && (forall i :: 0 <= i < |plan| ==> OpeningStep(k, plan[i]))
  }

  predicate OpeningStep(k: Book, s: PlanStep) {
    && (forall i :: 0 <= i < |s.associated| ==> ListedAt(k, s, i))
    && (forall i, j :: 0 <= i < j < |s.associated| ==> s.associated[i].id != s.associated[j].id)
  }

  /** What an event of a run may be: cancels are of original orders, and an order is only asked for in place of one
      whose cancel was acknowledged, of the same instrument, and that has no heir yet; what is placed is placeable. */
  predicate Allowed(start: Book, k: Book, e: Event) {
    match e
    case Cancel(id, _) => id in start.live
    case Place(of, order, held, _, placed) =>
      && of in start.live && of in k.acked && of !in k.heirs && order.conId == start.live[of].conId
      && (placed ==> Placeable(order, held))
    case _ => true
  }

  predicate Disciplined(start: Book, k: Book, events: seq<Event>) {
    forall n :: 0 <= n < |events| ==> Allowed(start, Replay(k, events[..n]), events[n])
  }

  /** Every live order is an original one or the heir of one, each heir of its own, and only asked-for cancels took
      originals away. */
  predicate Traceable(start: Book, k: Book) {
    Originals(start, k) && Heirs(start, k)
  }

  predicate Originals(start: Book, k: Book) {
    && start.nextId <= k.nextId
    && (forall id :: id in k.acked ==> id in k.asked)
    && (forall id :: id in k.asked ==> id.number < start.nextId)
    && (forall id :: id in k.live ==> id.number < k.nextId)
    && (forall id :: id in k.live && id.number < start.nextId ==> id in start.live && k.live[id] == start.live[id])
    && (forall id :: id in start.live && id !in k.live ==> id in k.asked)
  }

  predicate Heirs(start: Book, k: Book) {
    && (forall id :: id in k.heirs ==> HasHeir(start, k, id))
    && (forall x, y :: x in k.heirs && y in k.heirs && k.heirs[x] == k.heirs[y] ==> x == y)
    && (forall id :: id in k.live && id.number >= start.nextId ==> IsHeir(k, id))
  }

  predicate IsHeir(k: Book, id: OrderId) {
    exists of :: of in k.heirs && k.heirs[of] == id
  }

  predicate HasHeir(start: Book, k: Book, id: OrderId)
    requires id in k.heirs
  {
    var heir := k.heirs[id];
    && id in start.live && id in k.acked && start.nextId <= heir.number < k.nextId
    && heir in k.live && k.live[heir].conId == start.live[id].conId && k.live[heir].orderType != StpLmt
  }

  lemma EventKeepsTraceable(start: Book, k: Book, e: Event)
    requires Issued(start) && Traceable(start, k) && Allowed(start, k, e)
    ensures Traceable(start, After(k, e))
  {
    if e.Place? && e.placed {
      PlacingKeepsTraceable(start, k, e);
    } else {
      EarlierKeepsTraceable(start, k, e);
    }
  }

  lemma EarlierKeepsTraceable(start: Book, k: Book, e: Event)
    requires Issued(start) && Traceable(start, k) && Allowed(start, k, e) && !(e.Place? && e.placed)
    ensures Traceable(start, After(k, e))
  {
    var after := After(k, e);
    assert after.heirs == k.heirs && after.nextId == k.nextId;
    forall id | id in after.heirs
      ensures HasHeir(start, after, id)
    {
      assert HasHeir(start, k, id);
    }
    forall id | id in after.live && id.number >= start.nextId
      ensures IsHeir(after, id)
    {
      assert IsHeir(k, id);
    }
  }

  lemma PlacingKeepsTraceable(start: Book, k: Book, e: Event)
    requires Issued(start) && Traceable(start, k) && Allowed(start, k, e) && e.Place? && e.placed
    ensures Traceable(start, After(k, e))
  {
    hide Originals, Heirs, Allowed;
    PlacingKeepsHeirs(start, k, e);
    PlacingKeepsOriginals(start, k, e);
  }

  lemma PlacingKeepsOriginals(start: Book, k: Book, e: Event)
    requires Issued(start) && Originals(start, k) && e.Place? && e.placed
    ensures Originals(start, After(k, e))
  {
    var after, heir := After(k, e), OrderId(k.nextId);
    assert after.live.Keys == k.live.Keys + {heir};
    forall id | id in after.live
      ensures id.number < after.nextId
      ensures id.number < start.nextId ==> id in start.live && after.live[id] == start.live[id]
    {
      if id != heir {
        assert id in k.live && after.live[id] == k.live[id];
      }
    }
    forall id | id in start.live && id !in after.live
      ensures id in after.asked
    {
      assert id !in k.live;
    }
  }

  lemma PlacingKeepsHeirs(start: Book, k: Book, e: Event)
    requires Originals(start, k) && Heirs(start, k) && Allowed(start, k, e) && e.Place? && e.placed
    ensures Heirs(start, After(k, e))
  {
    var after := After(k, e);
    forall id | id in after.heirs
      ensures HasHeir(start, after, id) && (id != e.of ==> id in k.heirs && after.heirs[id].number < k.nextId)
    {
      assert id in k.heirs ==> HasHeir(start, k, id);
    }
    forall id | id in after.live && id.number >= start.nextId
      ensures IsHeir(after, id)
    {
      if id in k.live && id.number < k.nextId {
        assert IsHeir(k, id);
        var of :| of in k.heirs && k.heirs[of] == id;
        assert of in after.heirs && after.heirs[of] == id;
      } else {
        assert after.heirs[e.of] == id;
      }
    }
  }

  lemma {:induction false} TraceableAlways(start: Book, k: Book, events: seq<Event>)
    requires Issued(start)
    requires Traceable(start, k) && Disciplined(start, k, events)
    ensures Traceable(start, Replay(k, events))
  {
    if events != [] {
      var n := |events| - 1;
      assert forall i :: 0 <= i < n ==> events[..n][..i] == events[..i] && events[..n][i] == events[i];
      TraceableAlways(start, k, events[..n]);
      EventKeepsTraceable(start, Replay(k, events[..n]), events[n]);
    }
  }

  lemma DisciplineJoins(start: Book, k: Book, first: seq<Event>, more: seq<Event>)
    requires Disciplined(start, k, first) && Disciplined(start, Replay(k, first), more)
    ensures Disciplined(start, k, first + more)
  {
    forall n | 0 <= n < |first + more|
      ensures Allowed(start, Replay(k, (first + more)[..n]), (first + more)[n])
    {
      if n < |first| {
        assert (first + more)[..n] == first[..n];
      } else {
        assert (first + more)[..n] == first + more[..n - |first|];
        ReplayJoins(k, first, more[..n - |first|]);
      }
    }
  }

  /** One order's events are disciplined, ask for its cancel only, and leave it its heir if one was placed. */
  lemma ResetIsDisciplined(start: Book, k: Book, info: Associated, a: Adjustment, r: Reset)
    requires PossibleReset(info, a, r) && info.id !in k.heirs
    requires info.id in start.live && start.live[info.id].conId == info.order.conId
    ensures Disciplined(start, k, ResetEvents(info, a, r))
    ensures var after := Replay(k, ResetEvents(info, a, r));
            && (forall id :: id in after.asked ==> id in k.asked || id == info.id)
            && (forall id :: id in after.heirs ==> id in k.heirs || id == info.id)
            && (info.id in after.heirs <==> r.placing.Some? && r.placing.value.placed)
            && (info.id in after.heirs ==>
                  && after.heirs[info.id] in after.live
                  && after.live[after.heirs[info.id]] == Built(Remade(info.order, a)))
  {
    var asking := [Lapse(r.lapsed), Cancel(info.id, r.cancel)];
    var asked := Replay(k, asking);
    ReplayTwo(k, asking[0], asking[1]);
    TwoAreDisciplined(start, k, asking[0], asking[1]);
    if r.placing.Some? {
      var placing := PlacingEvents(info.id, Remade(info.order, a), r.placing.value);
      ReplayTwo(asked, placing[0], placing[1]);
      TwoAreDisciplined(start, asked, placing[0], placing[1]);
      DisciplineJoins(start, k, asking, placing);
      ReplayJoins(k, asking, placing);
      assert placing == [placing[0], placing[1]];
      assert ResetEvents(info, a, r) == asking + placing;
    } else {
      assert ResetEvents(info, a, r) == asking;
    }
  }

  lemma TwoAreDisciplined(start: Book, k: Book, e: Event, f: Event)
    requires Allowed(start, k, e) && Allowed(start, After(k, e), f)
    ensures Disciplined(start, k, [e, f])
  {
    ReplayTwo(k, e, f);
    assert [e, f][..0] == [] && [e, f][..1] == [e];
  }

  /** What a book has kept of an earlier one: every heir, live and unchanged, and every cancel asked for. */
  predicate Keeps(k: Book, after: Book) {
    forall id :: id in k.heirs ==>
         && id in after.heirs && after.heirs[id] == k.heirs[id]
         && (k.heirs[id] in k.live ==>
               k.heirs[id] in after.live && after.live[k.heirs[id]] == k.live[k.heirs[id]])
  }

  lemma EventKeeps(start: Book, k: Book, e: Event)
    requires Issued(start)
    requires Traceable(start, k) && Allowed(start, k, e)
    ensures Keeps(k, After(k, e))
  {
    forall id | id in k.heirs
      ensures k.heirs[id] in k.live ==>
                k.heirs[id] in After(k, e).live && After(k, e).live[k.heirs[id]] == k.live[k.heirs[id]]
    {
      assert HasHeir(start, k, id);
    }
  }

  lemma {:induction false} HeirsStay(start: Book, k: Book, events: seq<Event>)
    requires Issued(start)
    requires Traceable(start, k) && Disciplined(start, k, events)
    ensures Keeps(k, Replay(k, events)) && Traceable(start, Replay(k, events))
  {
    TraceableAlways(start, k, events);
    hide Traceable;
    if events != [] {
      var n := |events| - 1;
      var before := Replay(k, events[..n]);
      assert Allowed(start, before, events[n]);
      PrefixIsDisciplined(start, k, events, n);
      hide Disciplined, Keeps, Allowed;
      HeirsStay(start, k, events[..n]);
      EventKeeps(start, before, events[n]);
      KeepsOn(k, before, Replay(k, events));
    }
  }

  lemma KeepsOn(a: Book, b: Book, c: Book)
    requires Keeps(a, b) && Keeps(b, c)
    ensures Keeps(a, c)
  {
  }

  /** `id` is one of the step's first `n` orders. */
  predicate ListsUpTo(s: PlanStep, n: nat, id: OrderId)
    requires n <= |s.associated|
  {
    exists j :: 0 <= j < n && s.associated[j].id == id
  }

  predicate ListsIt(s: PlanStep, id: OrderId) {
    ListsUpTo(s, |s.associated|, id)
  }

  /** None of the step's orders is in `ids`. */
  predicate NoneIn(s: PlanStep, ids: set<OrderId>) {
    forall j :: 0 <= j < |s.associated| ==> s.associated[j].id !in ids
  }

  /** How an original order ends: with its own heir at the new quantity, or under a warning that names it. */
  ghost predicate Accounted(k: Book, info: Associated, a: Adjustment, warnings: seq<Message>) {
    && (info.id in k.heirs ==>
          k.heirs[info.id] in k.live && k.live[k.heirs[info.id]] == Built(Remade(info.order, a)))
    && (info.id !in k.heirs ==> exists m :: m in warnings && Names(m, info.id))
  }

  predicate Names(m: Message, id: OrderId) {
    match m
    case CancelError(_, _, i) => i == id
    case CancelUnconfirmed(_, _, i) => i == id
    case RecreateFailed(_, _, i, _) => i == id
    case _ => false
  }

  lemma ResetAccounts(start: Book, k: Book, info: Associated, a: Adjustment, r: Reset)
    requires PossibleReset(info, a, r) && info.id !in k.heirs
    requires info.id in start.live && start.live[info.id].conId == info.order.conId
    ensures Accounted(Replay(k, ResetEvents(info, a, r)), info, a, ResetReport(info, a, r).warnings)
  {
    ResetIsDisciplined(start, k, info, a, r);
    var w := ResetReport(info, a, r).warnings;
    if w != [] {
      assert Names(w[|w| - 1], info.id);
    }
  }

  lemma AccountedStays(k: Book, after: Book, info: Associated, a: Adjustment,
                       warnings: seq<Message>, more: seq<Message>)
    requires Accounted(k, info, a, warnings) && (k == after || Keeps(k, after))
    requires info.id in after.heirs ==> info.id in k.heirs
    requires forall m :: m in warnings ==> m in more
    ensures Accounted(after, info, a, more)
  {
    if info.id !in k.heirs {
      var m :| m in warnings && Names(m, info.id);
      assert m in more;
    }
  }

  /** What a step's first resets leave of a book `k`: only their orders asked for or replaced, each accounted for. */
  ghost predicate Swapped(start: Book, k: Book, s: PlanStep, n: nat, after: Book, warnings: seq<Message>)
    requires n <= |s.associated|
  {
    && Traceable(start, after) && Keeps(k, after)
    && (forall id :: id in after.asked ==> id in k.asked || ListsUpTo(s, n, id))
    && (forall id :: id in after.heirs ==> id in k.heirs || ListsUpTo(s, n, id))
    && (forall i :: 0 <= i < n ==> Accounted(after, s.associated[i], s.adj, warnings))
  }

  lemma OneMoreSwapped(start: Book, k: Book, s: PlanStep, n: nat, before: Book, warnings: seq<Message>, r: Reset)
    requires Issued(start) && n < |s.associated| && OpeningStep(start, s)
    requires Swapped(start, k, s, n, before, warnings) && NoneIn(s, k.heirs.Keys)
    requires PossibleReset(s.associated[n], s.adj, r)
    ensures var events, own := ResetEvents(s.associated[n], s.adj, r), ResetReport(s.associated[n], s.adj, r).warnings;
            && Disciplined(start, before, events)
            && Swapped(start, k, s, n + 1, Replay(before, events), warnings + own)
  {
    var info := s.associated[n];
    var events, own := ResetEvents(info, s.adj, r), ResetReport(info, s.adj, r).warnings;
    hide Traceable, PossibleReset, Disciplined, Accounted, ResetEvents, ResetReport, Issued, Keeps;
    assert ListedAt(start, s, n) && info.id !in before.heirs;
    ResetIsDisciplined(start, before, info, s.adj, r);
    ResetAccounts(start, before, info, s.adj, r);
    HeirsStay(start, before, events);
    KeepsOn(k, before, Replay(before, events));
    SwapsJoin(start, k, s, n, before, warnings, Replay(before, events), own);
  }

  lemma SwapsJoin(start: Book, k: Book, s: PlanStep, n: nat, before: Book, warnings: seq<Message>,
                  after: Book, own: seq<Message>)
    requires n < |s.associated| && OpeningStep(start, s) && Swapped(start, k, s, n, before, warnings)
    requires Traceable(start, after) && Keeps(k, after) && Keeps(before, after)
    requires forall id :: id in after.asked ==> id in before.asked || id == s.associated[n].id
    requires forall id :: id in after.heirs ==> id in before.heirs || id == s.associated[n].id
    requires Accounted(after, s.associated[n], s.adj, own)
    ensures Swapped(start, k, s, n + 1, after, warnings + own)
  {
    var info := s.associated[n];
    hide Traceable, Accounted, Keeps;
    forall i | 0 <= i < n
      ensures Accounted(after, s.associated[i], s.adj, warnings + own)
    {
      AccountedStays(before, after, s.associated[i], s.adj, warnings, warnings + own);
    }
    AccountedStays(after, after, info, s.adj, own, warnings + own);
    OneMoreListed(s, n);
    hide ListsUpTo;
  }

  lemma OneMoreListed(s: PlanStep, n: nat)
    requires n < |s.associated|
    ensures forall id :: ListsUpTo(s, n, id) || id == s.associated[n].id ==> ListsUpTo(s, n + 1, id)
  {
    forall id | ListsUpTo(s, n, id) || id == s.associated[n].id
      ensures ListsUpTo(s, n + 1, id)
    {
      assert s.associated[n].id == id || ListsUpTo(s, n, id);
    }
  }

  /** All orders of a step. */
  lemma {:induction false} ResetsAreDisciplined(start: Book, k: Book, s: PlanStep, resets: seq<Reset>)
    requires Issued(start) && Traceable(start, k) && OpeningStep(start, s) && |resets| <= |s.associated|
    requires forall i :: 0 <= i < |resets| ==> PossibleReset(s.associated[i], s.adj, resets[i])
    requires NoneIn(s, k.heirs.Keys)
    ensures Disciplined(start, k, ResetsEvents(s, resets))
    ensures Swapped(start, k, s, |resets|, Replay(k, ResetsEvents(s, resets)), ResetsReport(s, resets).warnings)
  {
    if resets != [] {
      hide OpeningStep, Traceable, Disciplined, PossibleReset, NoneIn, Swapped;
      var n := |resets| - 1;
      ResetsAreDisciplined(start, k, s, resets[..n]);
      var first, more := ResetsEvents(s, resets[..n]), ResetEvents(s.associated[n], s.adj, resets[n]);
      OneMoreSwapped(start, k, s, n, Replay(k, first), ResetsReport(s, resets[..n]).warnings, resets[n]);
      DisciplineJoins(start, k, first, more);
      ReplayJoins(k, first, more);
    }
  }

  /** How far a step's run went: to all its orders, or to none. */
  function Reach(s: PlanStep, r: StepRun): nat {
    if r.Reached? then |s.associated| else 0
  }

  lemma DeltaIsDisciplined(start: Book, k: Book, s: PlanStep, delta: seq<Event>)
    requires Traceable(start, k) && |delta| == 1 && delta[0].Delta?
    ensures Disciplined(start, k, delta) && Replay(k, delta) == k && Swapped(start, k, s, 0, k, [])
  {
    assert delta == [delta[0]];
    ReplayTwo(k, delta[0], delta[0]);
  }

  lemma StepIsDeltaAndResets(s: PlanStep, contracts: map<string, int>, r: StepRun)
    requires PossibleStep(s, contracts, r)
    ensures var delta := [Delta(DeltaOf(s), if r.Failed? then r.reply else Done)];
            && (!r.Reached? ==> StepEvents(s, r) == delta && |StepReport(s, r).warnings| <= 1)
            && (r.Reached? ==>
                  && StepEvents(s, r) == delta + ResetsEvents(s, r.resets)
                  && StepReport(s, r).warnings == ResetsReport(s, r.resets).warnings)
  {
  }

  lemma StepIsDisciplined(start: Book, k: Book, s: PlanStep, contracts: map<string, int>, r: StepRun)
    requires Issued(start) && Traceable(start, k) && OpeningStep(start, s) && PossibleStep(s, contracts, r)
    requires NoneIn(s, k.heirs.Keys)
    ensures Disciplined(start, k, StepEvents(s, r))
    ensures Swapped(start, k, s, Reach(s, r), Replay(k, StepEvents(s, r)), StepReport(s, r).warnings)
  {
    hide Disciplined, Traceable, OpeningStep, NoneIn, PossibleReset, Issued, ResetsEvents, ResetsReport, Replay,
         StepEvents, StepReport, Accounted, Keeps;
    var delta := [Delta(DeltaOf(s), if r.Failed? then r.reply else Done)];
    DeltaIsDisciplined(start, k, s, delta);
    StepIsDeltaAndResets(s, contracts, r);
    if r.Reached? {
      hide Swapped;
      ResetsAreDisciplined(start, k, s, r.resets);
      DisciplineJoins(start, k, delta, ResetsEvents(s, r.resets));
      ReplayJoins(k, delta, ResetsEvents(s, r.resets));
    }
  }

  /** The orders that the first steps of a plan list. */
  predicate Lists(plan: seq<PlanStep>, n: nat, id: OrderId)
    requires n <= |plan|
  {
    exists i :: 0 <= i < n && ListsIt(plan[i], id)
  }

  lemma StepsListApart(start: Book, plan: seq<PlanStep>, i: nat, j: nat, id: OrderId)
    requires Opening(start, plan) && i < |plan| && j < |plan| && ListsIt(plan[i], id)
    ensures id in start.live && id !in start.asked
    ensures ListsIt(plan[j], id) ==> i == j
  {
    ListedOrder(start, plan[i], id);
    if ListsIt(plan[j], id) {
      ListedOrder(start, plan[j], id);
    }
  }

  lemma ListedOrder(start: Book, s: PlanStep, id: OrderId)
    requires OpeningStep(start, s) && ListsIt(s, id)
    ensures id in start.live && id !in start.asked && start.live[id].conId == s.adj.conId
  {
    var j :| 0 <= j < |s.associated| && s.associated[j].id == id;
    assert ListedAt(start, s, j);
  }

  /** Step `i` ended as it may: every order of it accounted for if it went that far, and none asked for otherwise. */
  ghost predicate StepSettled(k: Book, s: PlanStep, r: StepRun, warnings: seq<Message>) {
    if r.Reached? then forall j :: 0 <= j < |s.associated| ==> Accounted(k, s.associated[j], s.adj, warnings)
    else NoneIn(s, k.asked)
  }

  /** The book `k` after the first steps of a plan: what has an heir or was asked for, and how the steps ended. */
  ghost predicate Ran(start: Book, plan: seq<PlanStep>, runs: seq<StepRun>, k: Book, warnings: seq<Message>)
    requires |runs| <= |plan|
  {
    && Traceable(start, k)
    && (forall id :: id in k.heirs ==> Lists(plan, |runs|, id))
    && (forall id :: id in k.asked ==> id in start.asked || Lists(plan, |runs|, id))
    && (forall i :: 0 <= i < |runs| ==> StepSettled(k, plan[i], runs[i], warnings))
  }

  /** Nothing has happened yet to the orders of the steps to come. */
  lemma LaterStepsAreFresh(start: Book, plan: seq<PlanStep>, runs: seq<StepRun>, k: Book, warnings: seq<Message>)
    requires Opening(start, plan) && |runs| < |plan| && Ran(start, plan, runs, k, warnings)
    ensures OpeningStep(start, plan[|runs|])
    ensures NoneIn(plan[|runs|], k.heirs.Keys) && NoneIn(plan[|runs|], k.asked)
  {
    var n := |runs|;
    forall j | 0 <= j < |plan[n].associated|
      ensures plan[n].associated[j].id !in k.heirs && plan[n].associated[j].id !in k.asked
    {
      var id := plan[n].associated[j].id;
      assert ListsIt(plan[n], id);
      StepsListApart(start, plan, n, n, id);
      if i :| 0 <= i < n && ListsIt(plan[i], id) {
        StepsListApart(start, plan, n, i, id);
      }
    }
  }

  lemma SettledStays(start: Book, plan: seq<PlanStep>, i: nat, n: nat, before: Book, after: Book, reach: nat,
                     r: StepRun, warnings: seq<Message>, own: seq<Message>)
    requires Opening(start, plan) && i < n < |plan| && reach <= |plan[n].associated|
    requires Swapped(start, before, plan[n], reach, after, own) && StepSettled(before, plan[i], r, warnings)
    ensures StepSettled(after, plan[i], r, warnings + own)
  {
    forall j | 0 <= j < |plan[i].associated|
      ensures var id := plan[i].associated[j].id;
              (id in after.heirs ==> id in before.heirs) && (id in after.asked ==> id in before.asked)
    {
      var id := plan[i].associated[j].id;
      assert ListsIt(plan[i], id);
      if ListsUpTo(plan[n], reach, id) {
        assert ListsIt(plan[n], id);
        StepsListApart(start, plan, i, n, id);
      }
    }
    hide Opening, Traceable;
    if r.Reached? {
      forall j | 0 <= j < |plan[i].associated|
        ensures Accounted(after, plan[i].associated[j], plan[i].adj, warnings + own)
      {
        AccountedStays(before, after, plan[i].associated[j], plan[i].adj, warnings, warnings + own);
      }
    }
  }

  lemma OwnStepSettles(start: Book, before: Book, s: PlanStep, r: StepRun, after: Book,
                       warnings: seq<Message>, own: seq<Message>)
    requires Swapped(start, before, s, Reach(s, r), after, own) && NoneIn(s, before.asked)
    ensures StepSettled(after, s, r, warnings + own)
  {
    hide Traceable;
    if r.Reached? {
      forall j | 0 <= j < |s.associated|
        ensures Accounted(after, s.associated[j], s.adj, warnings + own)
      {
        AccountedStays(after, after, s.associated[j], s.adj, own, warnings + own);
      }
    }
  }

  lemma StepRuns(start: Book, plan: seq<PlanStep>, contracts: map<string, int>, runs: seq<StepRun>,
                 before: Book, warnings: seq<Message>)
    requires Opening(start, plan) && 0 < |runs| <= |plan| && PossibleRun(plan, contracts, runs)
    requires var n := |runs| - 1; Ran(start, plan, runs[..n], before, warnings)
    ensures var n := |runs| - 1;
            var more := StepEvents(plan[n], runs[n]);
            && Disciplined(start, before, more)
            && Ran(start, plan, runs, Replay(before, more), warnings + StepReport(plan[n], runs[n]).warnings)
  {
    var n := |runs| - 1;
    var s, r := plan[n], runs[n];
    LaterStepsAreFresh(start, plan, runs[..n], before, warnings);
    assert Issued(start);
    hide Opening, Traceable, Disciplined, OpeningStep, NoneIn, StepReport, StepEvents, StepSettled;
    StepIsDisciplined(start, before, s, contracts, r);
    var after, own := Replay(before, StepEvents(s, r)), StepReport(s, r).warnings;
    OwnStepSettles(start, before, s, r, after, warnings, own);
    EarlierStaySettled(start, plan, runs, before, warnings, after, own);
    OneMoreStepLists(plan, n, Reach(s, r));
    hide Lists, ListsUpTo;
  }

  lemma EarlierStaySettled(start: Book, plan: seq<PlanStep>, runs: seq<StepRun>, before: Book, warnings: seq<Message>,
                           after: Book, own: seq<Message>)
    requires Opening(start, plan) && 0 < |runs| <= |plan|
    requires var n := |runs| - 1; var s, r := plan[n], runs[n];
             (r.Reached? ==> |r.resets| <= |s.associated|)
             && Ran(start, plan, runs[..n], before, warnings) && Swapped(start, before, s, Reach(s, r), after, own)
    ensures forall i :: 0 <= i < |runs| - 1 ==> StepSettled(after, plan[i], runs[i], warnings + own)
  {
    hide Opening, Swapped, StepSettled, Traceable;
    var n := |runs| - 1;
    forall i | 0 <= i < n
      ensures StepSettled(after, plan[i], runs[i], warnings + own)
    {
      assert StepSettled(before, plan[i], runs[..n][i], warnings);
      SettledStays(start, plan, i, n, before, after, Reach(plan[n], runs[n]), runs[i], warnings, own);
    }
  }

  lemma OneMoreStepLists(plan: seq<PlanStep>, n: nat, k: nat)
    requires n < |plan| && k <= |plan[n].associated|
    ensures forall id :: Lists(plan, n, id) || ListsUpTo(plan[n], k, id) ==> Lists(plan, n + 1, id)
  {
    forall id | ListsUpTo(plan[n], k, id)
      ensures Lists(plan, n + 1, id)
    {
      assert ListsIt(plan[n], id);
    }
  }

  lemma NothingRanYet(start: Book, plan: seq<PlanStep>)
    requires Opening(start, plan)
    ensures Ran(start, plan, [], start, [])
  {
  }

  lemma {:induction false} RunIsDisciplined(start: Book, plan: seq<PlanStep>, contracts: map<string, int>,
                                            runs: seq<StepRun>)
    requires Opening(start, plan) && |runs| <= |plan| && PossibleRun(plan, contracts, runs)
    ensures Disciplined(start, start, PlanEvents(plan, runs))
    ensures Ran(start, plan, runs, Replay(start, PlanEvents(plan, runs)), PlanReport(plan, runs).warnings)
  {
    if runs == [] {
      NothingRanYet(start, plan);
    } else {
      var front, r := runs[..|runs| - 1], runs[|runs| - 1];
      RunIsDisciplined(start, plan, contracts, front);
      assert runs == front + [r];
      hide Opening, Ran, Disciplined, PlanEvents, PlanReport, Replay, StepEvents, StepReport;
      OneMoreStep(start, [], plan, front, r);
      StepRuns(start, plan, contracts, runs, Replay(start, PlanEvents(plan, front)), PlanReport(plan, front).warnings);
      DisciplineJoins(start, start, PlanEvents(plan, front), StepEvents(plan[|front|], r));
    }
  }

  // ------------------------------------------- how many protective orders are live, and which

  lemma MomentIsTraceable(start: Book, plan: seq<PlanStep>, contracts: map<string, int>, runs: seq<StepRun>, n: nat)
    requires Opening(start, plan) && |runs| == |plan| && PossibleRun(plan, contracts, runs)
    requires n <= |PlanEvents(plan, runs)|
    ensures Issued(start) && Disciplined(start, start, PlanEvents(plan, runs))
    ensures Traceable(start, Replay(start, PlanEvents(plan, runs)[..n]))
  {
    assert Issued(start) && Traceable(start, start);
    hide Opening, Traceable, Disciplined, PossibleRun, Ran;
    RunIsDisciplined(start, plan, contracts, runs);
    var events := PlanEvents(plan, runs);
    PrefixIsDisciplined(start, start, events, n);
    TraceableAlways(start, start, events[..n]);
  }

  lemma PrefixIsDisciplined(start: Book, k: Book, events: seq<Event>, n: nat)
    requires Disciplined(start, k, events) && n <= |events|
    ensures Disciplined(start, k, events[..n])
  {
    assert forall i :: 0 <= i < n ==> events[..n][..i] == events[..i] && events[..n][i] == events[i];
  }

  /** Orders that are gone and have no heir. */
  function Bare(start: Book, k: Book, c: int): set<OrderId> {
    OfInstrument(start.live, c) - k.live.Keys - k.heirs.Keys
  }

  /** Orders that are live beside their own heir. */
  function Doubled(start: Book, k: Book, c: int): set<OrderId> {
    OfInstrument(start.live, c) * k.live.Keys * k.heirs.Keys
  }

  /** Orders that are live although their cancel was acknowledged. */
  function Lingering(k: Book, c: int): set<OrderId> {
    OfInstrument(k.live, c) * k.acked
  }

  /** The original orders still live, and those with an heir. */
  function Remaining(start: Book, k: Book, c: int): set<OrderId> {
    OfInstrument(start.live, c) * k.live.Keys
  }

  function Replaced(start: Book, k: Book, c: int): set<OrderId> {
    OfInstrument(start.live, c) * k.heirs.Keys
  }

  lemma CountIsExact(start: Book, k: Book, c: int)
    requires Traceable(start, k) && Issued(start)
    ensures |OfInstrument(k.live, c)| + |Bare(start, k, c)| == |OfInstrument(start.live, c)| + |Doubled(start, k, c)|
    ensures Doubled(start, k, c) <= Lingering(k, c)
  {
    RemainingAndReplaced(start, k, c);
    Inclusion(OfInstrument(start.live, c), k.live.Keys, k.heirs.Keys);
  }

  lemma RemainingAndReplaced(start: Book, k: Book, c: int)
    requires Traceable(start, k) && Issued(start)
    ensures |OfInstrument(k.live, c)| == |Remaining(start, k, c)| + |Replaced(start, k, c)|
    ensures Doubled(start, k, c) <= Lingering(k, c)
  {
    HeirsAreTheRest(start, k, c);
    hide Traceable, Doubled, Lingering, OfInstrument, Remaining, Replaced;
    Subset(Remaining(start, k, c), OfInstrument(k.live, c));
    Subset(Doubled(start, k, c), Lingering(k, c));
    SameSize(Replaced(start, k, c), OfInstrument(k.live, c) - Remaining(start, k, c), k.heirs);
    Complement(OfInstrument(k.live, c), Remaining(start, k, c));
  }

  lemma Subset<T>(a: set<T>, b: set<T>)
    requires forall x :: x in a ==> x in b
    ensures a <= b
  {
  }

  lemma Complement<T>(all: set<T>, a: set<T>)
    requires a <= all
    ensures |a| + |all - a| == |all|
  {
  }

  lemma Inclusion<T>(all: set<T>, a: set<T>, b: set<T>)
    ensures |all * a| + |all * b| + |all - a - b| == |all| + |all * a * b|
  {
    var x, y := all * a, all * b;
    assert |x + y| + |x * y| == |x| + |y|;
    assert all == (x + y) + (all - a - b);
    assert x * y == all * a * b;
  }

  predicate IsImage(s: set<OrderId>, m: map<OrderId, OrderId>, y: OrderId) {
    exists x :: x in s && x in m && m[x] == y
  }

  lemma {:induction false} SameSize(s: set<OrderId>, t: set<OrderId>, m: map<OrderId, OrderId>)
    requires forall x :: x in s ==> x in m && m[x] in t
    requires forall y :: y in t ==> IsImage(s, m, y)
    requires forall x, y :: x in s && y in s && m[x] == m[y] ==> x == y
    ensures |s| == |t|
  {
    if s != {} {
      var x := Member(s);
      forall y | y in t - {m[x]}
        ensures IsImage(s - {x}, m, y)
      {
        assert IsImage(s, m, y);
      }
      SameSize(s - {x}, t - {m[x]}, m);
    } else if t != {} {
      var y := Member(t);
      assert false;
    }
  }

  lemma Member<T>(s: set<T>) returns (x: T)
    requires s != {}
    ensures x in s
  {
    x :| x in s;
  }

  /** The live orders of an instrument are the original ones still there and the heirs. */
  lemma HeirsAreTheRest(start: Book, k: Book, c: int)
    requires Traceable(start, k) && Issued(start)
    ensures forall id :: id in Remaining(start, k, c) ==> id in OfInstrument(k.live, c)
    ensures forall id :: id in Replaced(start, k, c) ==>
              id in k.heirs && k.heirs[id] in OfInstrument(k.live, c) - Remaining(start, k, c)
    ensures forall id :: id in OfInstrument(k.live, c) - Remaining(start, k, c) ==>
              IsImage(Replaced(start, k, c), k.heirs, id)
    ensures forall x, y :: x in k.heirs && y in k.heirs && k.heirs[x] == k.heirs[y] ==> x == y
    ensures forall id :: id in Doubled(start, k, c) ==> id in Lingering(k, c)
  {
    forall id | id in k.heirs
      ensures HasHeir(start, k, id)
    {
    }
    forall id | id in OfInstrument(k.live, c) && id !in Remaining(start, k, c)
      ensures IsImage(Replaced(start, k, c), k.heirs, id)
    {
      assert IsHeir(k, id);
      var of :| of in k.heirs && k.heirs[of] == id;
      assert HasHeir(start, k, of) && of in Replaced(start, k, c);
    }
  }

  /** At every moment of every run, and for every instrument: the live protective orders are the original ones, less
      those gone without an heir, plus those that an heir has joined; so never more than the original ones and the
      acknowledged cancels still live together, and no more than the original ones exactly when the doubled orders do
      not outnumber the lost ones. Each heir is one order's own. */
  lemma CountAtEveryMoment(start: Book, plan: seq<PlanStep>, contracts: map<string, int>, runs: seq<StepRun>,
                           n: nat, c: int)
    requires Opening(start, plan) && |runs| == |plan| && PossibleRun(plan, contracts, runs)
    requires n <= |PlanEvents(plan, runs)|
    ensures var k := Replay(start, PlanEvents(plan, runs)[..n]);
            && |OfInstrument(k.live, c)| + |Bare(start, k, c)| == |OfInstrument(start.live, c)| + |Doubled(start, k, c)|
            && |OfInstrument(k.live, c)| <= |OfInstrument(start.live, c)| + |Lingering(k, c)|
            && (|OfInstrument(k.live, c)| <= |OfInstrument(start.live, c)| <==>
                  |Doubled(start, k, c)| <= |Bare(start, k, c)|)
            && forall x, y :: x in k.heirs && y in k.heirs && k.heirs[x] == k.heirs[y] ==> x == y
  {
    MomentIsTraceable(start, plan, contracts, runs, n);
    var k := Replay(start, PlanEvents(plan, runs)[..n]);
    assert forall x, y :: x in k.heirs && y in k.heirs && k.heirs[x] == k.heirs[y] ==> x == y;
    hide Opening, PossibleRun, Traceable, Disciplined, PlanEvents, Replay, Bare, Doubled, Lingering, OfInstrument;
    CountIsExact(start, k, c);
    NoLarger(Doubled(start, k, c), Lingering(k, c));
  }

  lemma {:induction false} NoLarger(a: set<OrderId>, b: set<OrderId>)
    requires a <= b
    ensures |a| <= |b|
  {
    assert b == a + (b - a);
  }

  /** An order is placed while the one it replaces is still live, its cancel only acknowledged. */
  predicate OverlapAt(start: Book, events: seq<Event>, n: nat)
    requires n < |events|
  {
    events[n].Place? && events[n].placed && events[n].of in Replay(start, events[..n]).live
  }

  predicate NoOverlap(start: Book, events: seq<Event>) {
    forall n :: 0 <= n < |events| ==> !OverlapAt(start, events, n)
  }

  /** At no moment is an original order live beside its own heir. */
  ghost predicate OneOfEach(start: Book, events: seq<Event>) {
    forall n :: 0 <= n <= |events| ==> NoneDoubled(start, Replay(start, events[..n]))
  }

  predicate NoneDoubled(start: Book, k: Book) {
    forall id :: id in start.live ==> !(id in k.live && id in k.heirs)
  }

  lemma {:induction false} DoublingNeedsOverlap(start: Book, events: seq<Event>, n: nat)
    requires Issued(start)
    requires start.heirs == map[] && Traceable(start, start) && Disciplined(start, start, events)
    requires NoOverlap(start, events) && n <= |events|
    ensures NoneDoubled(start, Replay(start, events[..n]))
  {
    if n > 0 {
      DoublingNeedsOverlap(start, events, n - 1);
      PrefixIsDisciplined(start, start, events, n - 1);
      TraceableAlways(start, start, events[..n - 1]);
      assert events[..n][..n - 1] == events[..n - 1] && !OverlapAt(start, events, n - 1);
    }
  }

  lemma OneOfEachExactly(start: Book, events: seq<Event>)
    requires Issued(start)
    requires start.heirs == map[] && Traceable(start, start) && Disciplined(start, start, events)
    ensures OneOfEach(start, events) <==> NoOverlap(start, events)
  {
    if NoOverlap(start, events) {
      forall n | 0 <= n <= |events|
        ensures NoneDoubled(start, Replay(start, events[..n]))
      {
        DoublingNeedsOverlap(start, events, n);
      }
    } else {
      var n :| 0 <= n < |events| && OverlapAt(start, events, n);
      var k, of := Replay(start, events[..n]), events[n].of;
      PrefixIsDisciplined(start, start, events, n);
      TraceableAlways(start, start, events[..n]);
      assert events[..n + 1][..n] == events[..n] && Allowed(start, k, events[n]);
      var after := Replay(start, events[..n + 1]);
      assert of in start.live && of in after.live && of in after.heirs;
      assert !NoneDoubled(start, after);
    }
  }

  /** No instrument ever has more live protective orders than at the start. */
  ghost predicate NeverMore(start: Book, events: seq<Event>) {
    forall n, c :: 0 <= n <= |events| ==>
      |OfInstrument(Replay(start, events[..n]).live, c)| <= |OfInstrument(start.live, c)|
  }

  /** An order and its replacement are never live together if and only if nothing is placed while an acknowledged
      cancel of the order it replaces is still to take effect. Then no instrument ever has more live orders than at
      the start; and where every instrument began with one at most, this too holds only then. */
  lemma BoundHoldsExactlyWithoutOverlap(start: Book, plan: seq<PlanStep>, contracts: map<string, int>,
                                        runs: seq<StepRun>)
    requires Opening(start, plan) && |runs| == |plan| && PossibleRun(plan, contracts, runs)
    ensures var events := PlanEvents(plan, runs);
            && (OneOfEach(start, events) <==> NoOverlap(start, events))
            && (NoOverlap(start, events) ==> NeverMore(start, events))
            && ((forall c :: |OfInstrument(start.live, c)| <= 1) ==>
                  (NeverMore(start, events) <==> NoOverlap(start, events)))
  {
    var events := PlanEvents(plan, runs);
    assert Issued(start) && start.heirs == map[] && Traceable(start, start);
    hide Opening, PossibleRun, Traceable, Disciplined, Ran, NeverMore, OneOfEach, NoOverlap, PlanEvents;
    RunIsDisciplined(start, plan, contracts, runs);
    OneOfEachExactly(start, events);
    if OneOfEach(start, events) {
      NoneDoubledNeverMore(start, plan, contracts, runs);
    } else if forall c :: |OfInstrument(start.live, c)| <= 1 {
      DoubledIsMore(start, plan, contracts, runs);
    }
  }

  lemma NoneDoubledNeverMore(start: Book, plan: seq<PlanStep>, contracts: map<string, int>, runs: seq<StepRun>)
    requires Opening(start, plan) && |runs| == |plan| && PossibleRun(plan, contracts, runs)
    requires OneOfEach(start, PlanEvents(plan, runs))
    ensures NeverMore(start, PlanEvents(plan, runs))
  {
    var events := PlanEvents(plan, runs);
    hide Opening, PossibleRun, PlanEvents, Bare, OfInstrument, Replay;
    forall n, c | 0 <= n <= |events|
      ensures |OfInstrument(Replay(start, events[..n]).live, c)| <= |OfInstrument(start.live, c)|
    {
      CountAtEveryMoment(start, plan, contracts, runs, n, c);
      assert NoneDoubled(start, Replay(start, events[..n]));
      NothingDoubled(start, Replay(start, events[..n]), c);
    }
  }

  lemma NothingDoubled(start: Book, k: Book, c: int)
    requires NoneDoubled(start, k)
    ensures Doubled(start, k, c) == {}
  {
    if Doubled(start, k, c) != {} {
      var id := Member(Doubled(start, k, c));
      assert false;
    }
  }

  lemma DoubledIsMore(start: Book, plan: seq<PlanStep>, contracts: map<string, int>, runs: seq<StepRun>)
    requires Opening(start, plan) && |runs| == |plan| && PossibleRun(plan, contracts, runs)
    requires !OneOfEach(start, PlanEvents(plan, runs)) && forall c :: |OfInstrument(start.live, c)| <= 1
    ensures !NeverMore(start, PlanEvents(plan, runs))
  {
    var events := PlanEvents(plan, runs);
    hide Opening, PossibleRun, PlanEvents, Replay;
    var n :| 0 <= n <= |events| && !NoneDoubled(start, Replay(start, events[..n]));
    var k := Replay(start, events[..n]);
    var id :| id in start.live && id in k.live && id in k.heirs;
    var c := start.live[id].conId;
    OnlyOne(OfInstrument(start.live, c), id);
    CountAtEveryMoment(start, plan, contracts, runs, n, c);
    NothingBare(start, k, c, id);
    assert |OfInstrument(k.live, c)| > |OfInstrument(start.live, c)|;
  }

  lemma NothingBare(start: Book, k: Book, c: int, id: OrderId)
    requires OfInstrument(start.live, c) == {id} && id in k.live && id in k.heirs
    ensures |Bare(start, k, c)| == 0 && |Doubled(start, k, c)| > 0
  {
    assert id in Doubled(start, k, c);
    assert Bare(start, k, c) == {};
  }

  lemma OnlyOne(s: set<OrderId>, x: OrderId)
    requires |s| <= 1 && x in s
    ensures s == {x}
  {
    assert s == (s - {x}) + {x};
  }

  // ------------------------------------------------------------- how every step ends

  predicate Skips(m: Message, s: PlanStep) {
    match m
    case DeltaFailed(_, conId, _) => conId == s.adj.conId
    case NoContract(_, conId) => conId == s.adj.conId
    case NotFilled(_, conId, _, _) => conId == s.adj.conId
    case _ => false
  }

  lemma {:induction false} OnlySkippedStepsSaySo(s: PlanStep, resets: seq<Reset>, other: PlanStep)
    ensures var w := ResetsReport(s, resets);
            w.failures == [] && forall m :: m in w.warnings ==> !Skips(m, other)
  {
    if resets != [] {
      OnlySkippedStepsSaySo(s, resets[..|resets| - 1], other);
    }
  }

  /** The report of a plan says of a step that it was skipped exactly if it was. */
  lemma {:induction false} ReportNamesSkippedSteps(plan: seq<PlanStep>, runs: seq<StepRun>, i: nat)
    requires |runs| <= |plan| && Apart(plan) && i < |plan|
    ensures var r := PlanReport(plan, runs);
            (exists m :: m in r.failures + r.warnings && Skips(m, plan[i])) <==> i < |runs| && !runs[i].Reached?
  {
    if runs != [] {
      var n := |runs| - 1;
      ReportNamesSkippedSteps(plan, runs[..n], i);
      var s, before, own := plan[n], PlanReport(plan, runs[..n]), StepReport(plan[n], runs[n]);
      if runs[n].Reached? {
        OnlySkippedStepsSaySo(s, runs[n].resets, plan[i]);
      } else {
        var said := own.failures + own.warnings;
        assert |said| == 1 && Skips(said[0], s) && said[0] in said;
        assert forall m :: m in said ==> m == said[0];
        assert s.adj.conId == plan[i].adj.conId <==> i == n;
      }
      var all := PlanReport(plan, runs);
      assert forall m :: m in all.failures + all.warnings <==>
               m in before.failures + before.warnings || m in own.failures + own.warnings;
    }
  }

  /** How a step ends, in every run. If the report does not say that it was skipped, each of its orders ends with an
      heir of its own at the new quantity, or is named in a warning. If it does, no cancel was asked for, and at every
      moment of the run each of its orders is live as it was, without an heir. */
  lemma EveryStepSettles(start: Book, plan: seq<PlanStep>, contracts: map<string, int>, runs: seq<StepRun>, i: nat)
    requires Opening(start, plan) && |runs| == |plan| && PossibleRun(plan, contracts, runs) && i < |plan|
    ensures var events, report := PlanEvents(plan, runs), PlanReport(plan, runs);
            if exists m :: m in report.failures + report.warnings && Skips(m, plan[i]) then
              forall n :: 0 <= n <= |events| ==> Untouched(start, Replay(start, events[..n]), plan[i])
            else
              var k := Replay(start, events);
              && (forall j :: 0 <= j < |plan[i].associated| ==>
                    Accounted(k, plan[i].associated[j], plan[i].adj, report.warnings))
              && (forall x, y :: x in k.heirs && y in k.heirs && k.heirs[x] == k.heirs[y] ==> x == y)
  {
    assert Issued(start) && Traceable(start, start) && OpeningStep(start, plan[i]);
    RunIsDisciplined(start, plan, contracts, runs);
    ReportNamesSkippedSteps(plan, runs, i);
    var events := PlanEvents(plan, runs);
    assert StepSettled(Replay(start, events), plan[i], runs[i], PlanReport(plan, runs).warnings);
    hide Opening, PossibleRun, PlanEvents, PlanReport, Replay, Untouched, OpeningStep, Disciplined, Originals, Issued;
    if !runs[i].Reached? {
      forall n | 0 <= n <= |events|
        ensures Untouched(start, Replay(start, events[..n]), plan[i])
      {
        StaysUntouched(start, events, plan[i], n);
      }
    }
  }

  /** The orders of a step are live as they were, no cancel of them was asked for, and none has an heir. */
  predicate Untouched(start: Book, k: Book, s: PlanStep) {
    forall j :: 0 <= j < |s.associated| ==> ListedAt(k, s, j) && s.associated[j].id !in k.heirs
  }

  lemma StaysUntouched(start: Book, events: seq<Event>, s: PlanStep, n: nat)
    requires Issued(start) && Traceable(start, start) && Disciplined(start, start, events) && n <= |events|
    requires OpeningStep(start, s) && NoneIn(s, Replay(start, events).asked)
    ensures Untouched(start, Replay(start, events[..n]), s)
  {
    var k := Replay(start, events[..n]);
    PrefixIsDisciplined(start, start, events, n);
    hide Replay, Disciplined, Traceable, Issued, ListedAt;
    TraceableAlways(start, start, events[..n]);
    AskedBefore(start, events, n);
    forall j | 0 <= j < |s.associated|
      ensures ListedAt(k, s, j) && s.associated[j].id !in k.heirs
    {
      UntouchedIfNotAsked(start, k, s, j);
    }
  }

  lemma AskedBefore(start: Book, events: seq<Event>, n: nat)
    requires n <= |events|
    ensures forall id :: id in Replay(start, events[..n]).asked ==> id in Replay(start, events).asked
  {
    assert events == events[..n] + events[n..];
    ReplayJoins(start, events[..n], events[n..]);
    AskedGrows(Replay(start, events[..n]), events[n..]);
  }

  lemma UntouchedIfNotAsked(start: Book, k: Book, s: PlanStep, j: nat)
    requires Issued(start) && Traceable(start, k) && j < |s.associated| && ListedAt(start, s, j)
    requires s.associated[j].id !in k.asked
    ensures ListedAt(k, s, j) && s.associated[j].id !in k.heirs
  {
    var id := s.associated[j].id;
    assert id in k.heirs ==> HasHeir(start, k, id);
  }

  lemma {:induction false} AskedGrows(k: Book, events: seq<Event>)
    ensures forall id :: id in k.asked ==> id in Replay(k, events).asked
  {
    if events != [] {
      AskedGrows(k, events[..|events| - 1]);
    }
  }

  // ------------------------------------------------------------- what is asked for

  /** Every order asked for re-creates one that the step lists, and fits what is held when it is asked for. */
  predicate Sensible(e: Event, s: PlanStep) {
    e.Place? ==>
      && Fits(e.order, e.held)
      && exists j ::
           0 <= j < |s.associated| && e.of == s.associated[j].id && e.order == Remade(s.associated[j].order, s.adj)
  }

  lemma {:induction false} ResetsAreSensible(s: PlanStep, resets: seq<Reset>)
    requires |resets| <= |s.associated|
    requires forall i :: 0 <= i < |resets| ==> PossibleReset(s.associated[i], s.adj, resets[i])
    ensures forall e :: e in ResetsEvents(s, resets) ==> Sensible(e, s) && !e.Delta?
  {
    if resets != [] {
      var n := |resets| - 1;
      ResetsAreSensible(s, resets[..n]);
      assert forall e :: e in ResetEvents(s.associated[n], s.adj, resets[n]) ==> Sensible(e, s) && !e.Delta?;
    }
  }

  lemma {:induction false} EveryRequestFits(plan: seq<PlanStep>, contracts: map<string, int>, runs: seq<StepRun>)
    requires |runs| <= |plan| && PossibleRun(plan, contracts, runs)
    ensures forall e :: e in PlanEvents(plan, runs) ==> exists i :: 0 <= i < |plan| && Sensible(e, plan[i])
    ensures forall e :: e in PlanEvents(plan, runs) && e.Place? ==>
              && e.order.quantity <= Abs(e.held)
              && (e.order.quantity > 0.0 ==> if e.order.action == Sell then e.held > 0.0 else e.held < 0.0)
  {
    if runs != [] {
      var n := |runs| - 1;
      EveryRequestFits(plan, contracts, runs[..n]);
      if runs[n].Reached? {
        ResetsAreSensible(plan[n], runs[n].resets);
      }
      assert forall e :: e in StepEvents(plan[n], runs[n]) ==> Sensible(e, plan[n]);
    }
  }

  /** The broker's own check on what it places, without regard to what the position should be. */
  predicate Checked(s: PlanStep, r: StepRun) {
    r.Reached? ==>
      forall j :: 0 <= j < |r.resets| && j < |s.associated| && r.resets[j].placing.Some? ==>
        var p := r.resets[j].placing.value;
        p.placed ==> Placeable(Remade(s.associated[j].order, s.adj), p.held)
  }

  predicate PlacedFits(e: Event) {
    e.Place? && e.placed ==>
      && e.order.orderType != StpLmt && (if e.order.action == Sell then e.held > 0.0 else e.held < 0.0)
      && 0.0 < e.order.quantity
      && e.order.quantity <= Abs(e.held) + 0.000000001 * if Abs(e.held) > 1.0 then Abs(e.held) else 1.0
  }

  lemma {:induction false} ResetsPlaceFitting(s: PlanStep, resets: seq<Reset>)
    requires Checked(s, Reached(resets))
    ensures forall e :: e in ResetsEvents(s, resets) ==> PlacedFits(e)
  {
    if resets != [] {
      var n := |resets| - 1;
      var front := resets[..n];
      assert Checked(s, Reached(front)) by {
        forall j | 0 <= j < |front| && j < |s.associated| && front[j].placing.Some? && front[j].placing.value.placed
          ensures Placeable(Remade(s.associated[j].order, s.adj), front[j].placing.value.held)
        {
          assert front[j] == resets[j];
        }
      }
      ResetsPlaceFitting(s, front);
    }
  }

  /** What is placed is of a supported type, reduces what is held at that moment, and exceeds it by no more than the
      tolerance of the broker's check. This needs no assumption about the position: it holds too when a stop fires or
      somebody else trades during the run. */
  lemma {:induction false} EveryPlacedOrderFits(plan: seq<PlanStep>, runs: seq<StepRun>)
    requires |runs| <= |plan| && forall i :: 0 <= i < |runs| ==> Checked(plan[i], runs[i])
    ensures forall e :: e in PlanEvents(plan, runs) ==> PlacedFits(e)
  {
    if runs != [] {
      var n := |runs| - 1;
      EveryPlacedOrderFits(plan, runs[..n]);
      hide PlacedFits, Checked;
      if runs[n].Reached? {
        ResetsPlaceFitting(plan[n], runs[n].resets);
      }
      NoPlacing(plan[n], runs[n]);
    }
  }

  lemma NoPlacing(s: PlanStep, r: StepRun)
    ensures forall e :: e in StepEvents(s, r) ==>
              PlacedFits(e) || (r.Reached? && e in ResetsEvents(s, r.resets))
  {
  }

  lemma PossibleRunsAreChecked(plan: seq<PlanStep>, contracts: map<string, int>, runs: seq<StepRun>)
    requires |runs| <= |plan| && PossibleRun(plan, contracts, runs)
    ensures forall i :: 0 <= i < |runs| ==> Checked(plan[i], runs[i])
  {
    forall i | 0 <= i < |runs|
      ensures Checked(plan[i], runs[i])
    {
      assert PossibleStep(plan[i], contracts, runs[i]);
    }
  }

  /** The market orders among some events. */
  function Deltas(events: seq<Event>): seq<MarketOrder> {
    if events == [] then []
    else
      var n := |events| - 1;
      Deltas(events[..n]) + if events[n].Delta? then [events[n].market] else []
  }

  function DeltasOf(plan: seq<PlanStep>): seq<MarketOrder> {
    if plan == [] then [] else DeltasOf(plan[..|plan| - 1]) + [DeltaOf(plan[|plan| - 1])]
  }

  lemma {:induction false} DeltasJoin(first: seq<Event>, more: seq<Event>)
    ensures Deltas(first + more) == Deltas(first) + Deltas(more)
  {
    if more == [] {
      assert first + more == first;
    } else {
      var n := |more| - 1;
      assert (first + more)[..|first + more| - 1] == first + more[..n];
      DeltasJoin(first, more[..n]);
    }
  }

  lemma {:induction false} NoDeltas(events: seq<Event>)
    requires forall e :: e in events ==> !e.Delta?
    ensures Deltas(events) == []
  {
    if events != [] {
      NoDeltas(events[..|events| - 1]);
    }
  }

  lemma StepHasOneDelta(s: PlanStep, contracts: map<string, int>, r: StepRun)
    requires PossibleStep(s, contracts, r)
    ensures Deltas(StepEvents(s, r)) == [DeltaOf(s)]
  {
    var delta := [Delta(DeltaOf(s), if r.Failed? then r.reply else Done)];
    assert delta[..0] == [] && Deltas(delta) == [DeltaOf(s)];
    if r.Reached? {
      ResetsAreSensible(s, r.resets);
      DeltasJoin(delta, ResetsEvents(s, r.resets));
      NoDeltas(ResetsEvents(s, r.resets));
    } else {
      assert StepEvents(s, r) == delta;
    }
  }

  /** Whatever the broker does, each delta is sent exactly once, in plan order. */
  lemma {:induction false} EachDeltaIsSentOnce(plan: seq<PlanStep>, contracts: map<string, int>, runs: seq<StepRun>)
    requires |runs| <= |plan| && PossibleRun(plan, contracts, runs)
    ensures Deltas(PlanEvents(plan, runs)) == DeltasOf(plan[..|runs|])
  {
    if runs != [] {
      hide Deltas, DeltasOf, PlanEvents, StepEvents, PossibleStep, DeltaOf;
      var n := |runs| - 1;
      assert PossibleStep(plan[n], contracts, runs[n]) && PossibleRun(plan, contracts, runs[..n]);
      EachDeltaIsSentOnce(plan, contracts, runs[..n]);
      StepHasOneDelta(plan[n], contracts, runs[n]);
      LastStepEvents(plan, runs);
      DeltasJoin(PlanEvents(plan, runs[..n]), StepEvents(plan[n], runs[n]));
      LastDelta(plan, n);
    } else {
      assert plan[..0] == [];
    }
  }

  lemma LastStepEvents(plan: seq<PlanStep>, runs: seq<StepRun>)
    requires 0 < |runs| <= |plan|
    ensures var n := |runs| - 1; PlanEvents(plan, runs) == PlanEvents(plan, runs[..n]) + StepEvents(plan[n], runs[n])
  {
  }

  lemma LastDelta(plan: seq<PlanStep>, n: nat)
    requires n < |plan|
    ensures DeltasOf(plan[..n + 1]) == DeltasOf(plan[..n]) + [DeltaOf(plan[n])]
  {
    assert plan[..n + 1][..n] == plan[..n];
  }

  // -------------------------------------------------------------------- runs that go wrong

  const SEVEN: OrderId := OrderId(7)
  const EIGHT: OrderId := OrderId(8)
  const NINE: OrderId := OrderId(9)

  const STOP: Order := Order(1, Sell, 100.0, Stp, 90.0, 0.0, 0.0, "GTC", "")
  const TRIM: Adjustment := Adjustment("A", 1, 100.0, 50, -50.0, Sell, 10000.0, 5000.0, 100.0)

  /** One stop of 100 on 100 shares, which are trimmed to 50. Its cancel is acknowledged and takes its time, the new
      stop is accepted, and there are two, for 150 shares in all; the report has no complaint. */
  lemma TwoLiveStops() returns (start: Book, plan: seq<PlanStep>, runs: seq<StepRun>)
    ensures Opening(start, plan) && |runs| == |plan| && PossibleRun(plan, map[], runs)
    ensures start.live == map[SEVEN := STOP] && SoundAdjustment(TRIM) && |plan| == 1 && plan[0].adj == TRIM
    ensures Replay(start, PlanEvents(plan, runs)).live == map[SEVEN := STOP, EIGHT := STOP.(quantity := 50.0)]
    ensures PlanReport(plan, runs).failures == [] && PlanReport(plan, runs).warnings == []
  {
    start, plan, runs := ONE_STOP, [PlanStep(TRIM, [Associated(SEVEN, STOP)])], [Reached([DOUBLED])];
    assert ListedAt(start, plan[0], 0) && PossibleReset(Associated(SEVEN, STOP), TRIM, DOUBLED);
    OneStopDoubled(plan[0]);
  }

  const ONE_STOP: Book := Book(map[SEVEN := STOP], 8, {}, {}, map[])

  lemma OneStopDoubled(s: PlanStep)
    requires s == PlanStep(TRIM, [Associated(SEVEN, STOP)])
    ensures Replay(ONE_STOP, PlanEvents([s], [Reached([DOUBLED])])).live ==
              map[SEVEN := STOP, EIGHT := STOP.(quantity := 50.0)]
    ensures var report := PlanReport([s], [Reached([DOUBLED])]); report.failures == [] && report.warnings == []
  {
    hide ResetsEvents, ResetsReport, PlanEvents, PlanReport, Replay;
    SingleRun(ONE_STOP, s, [DOUBLED]);
    OneReset(s, DOUBLED);
    ReplayReset(ONE_STOP, Associated(SEVEN, STOP), TRIM, DOUBLED);
  }

  lemma OneReset(s: PlanStep, r: Reset)
    requires |s.associated| >= 1
    ensures ResetsEvents(s, [r]) == ResetEvents(s.associated[0], s.adj, r)
    ensures ResetsReport(s, [r]) == ResetReport(s.associated[0], s.adj, r)
  {
    assert [r][..0] == [];
  }

  /** Two stops. The first is cancelled and not replaced; the second is replaced while it is still live. In the end
      there are two, as at the start: counting alone does not tell that an order and its replacement were live
      together. */
  lemma LossHidesOverlap() returns (start: Book, plan: seq<PlanStep>, runs: seq<StepRun>)
    ensures Opening(start, plan) && |runs| == |plan| && PossibleRun(plan, map[], runs)
    ensures start.live == map[SEVEN := STOP, EIGHT := STOP] && |plan| == 1 && plan[0].adj == TRIM
    ensures var k := Replay(start, PlanEvents(plan, runs));
            k.live == map[EIGHT := STOP, NINE := STOP.(quantity := 50.0)] && k.heirs == map[EIGHT := NINE]
  {
    start, plan, runs := TWO_STOPS, [PlanStep(TRIM, TWO)], [Reached([LOST, DOUBLED])];
    TwoStopsOpen(plan[0]);
    hide Opening, PossibleRun, PossibleStep;
    SingleRun(start, plan[0], [LOST, DOUBLED]);
    TwoResets(start, plan[0], LOST, DOUBLED);
    LostThenDoubled();
  }

  const TWO_STOPS: Book := Book(map[SEVEN := STOP, EIGHT := STOP], 9, {}, {}, map[])
  const TWO: seq<Associated> := [Associated(SEVEN, STOP), Associated(EIGHT, STOP)]

  lemma TwoStopsOpen(s: PlanStep)
    requires s == PlanStep(TRIM, TWO)
    ensures Opening(TWO_STOPS, [s]) && PossibleRun([s], map[], [Reached([LOST, DOUBLED])])
  {
    assert ListedAt(TWO_STOPS, s, 0) && ListedAt(TWO_STOPS, s, 1);
    assert PossibleReset(TWO[0], TRIM, LOST) && PossibleReset(TWO[1], TRIM, DOUBLED);
  }

  const LOST: Reset := Reset({}, Done, Some(Placing({SEVEN}, 50.0, Refused, false)))
  const DOUBLED: Reset := Reset({}, Done, Some(Placing({}, 50.0, Done, true)))

  lemma LostThenDoubled()
    ensures var lost := Replay(Book(map[SEVEN := STOP, EIGHT := STOP], 9, {}, {}, map[]),
                               ResetEvents(Associated(SEVEN, STOP), TRIM, LOST));
            && lost == Book(map[EIGHT := STOP], 9, {SEVEN}, {SEVEN}, map[])
            && Replay(lost, ResetEvents(Associated(EIGHT, STOP), TRIM, DOUBLED)) ==
                 Book(map[EIGHT := STOP, NINE := STOP.(quantity := 50.0)], 10, {SEVEN, EIGHT}, {SEVEN, EIGHT},
                      map[EIGHT := NINE])
  {
    ReplayReset(Book(map[SEVEN := STOP, EIGHT := STOP], 9, {}, {}, map[]), Associated(SEVEN, STOP), TRIM, LOST);
    ReplayReset(Book(map[EIGHT := STOP], 9, {SEVEN}, {SEVEN}, map[]), Associated(EIGHT, STOP), TRIM, DOUBLED);
  }

  lemma TwoResets(k: Book, s: PlanStep, r: Reset, q: Reset)
    requires |s.associated| == 2
    ensures Replay(k, ResetsEvents(s, [r, q])) ==
              Replay(Replay(k, ResetEvents(s.associated[0], s.adj, r)), ResetEvents(s.associated[1], s.adj, q))
  {
    var first := ResetEvents(s.associated[0], s.adj, r);
    assert [r, q][..1] == [r];
    OneReset(s, r);
    ReplayJoins(k, first, ResetEvents(s.associated[1], s.adj, q));
  }

  lemma ReplayReset(k: Book, info: Associated, a: Adjustment, r: Reset)
    requires r.placing.Some?
    ensures var p := r.placing.value;
            Replay(k, ResetEvents(info, a, r)) ==
              After(After(After(After(k, Lapse(r.lapsed)), Cancel(info.id, r.cancel)), Lapse(p.lapsed)),
                    Place(info.id, Remade(info.order, a), p.held, p.reply, p.placed))
  {
    var asking, placing := [Lapse(r.lapsed), Cancel(info.id, r.cancel)],
                           PlacingEvents(info.id, Remade(info.order, a), r.placing.value);
    ReplayJoins(k, asking, placing);
    ReplayTwo(k, asking[0], asking[1]);
    ReplayTwo(Replay(k, asking), placing[0], placing[1]);
  }

  lemma SingleRun(k: Book, s: PlanStep, resets: seq<Reset>)
    requires |resets| == |s.associated|
    ensures Replay(k, PlanEvents([s], [Reached(resets)])) == Replay(k, ResetsEvents(s, resets))
    ensures PlanReport([s], [Reached(resets)]).failures == ResetsReport(s, resets).failures
    ensures PlanReport([s], [Reached(resets)]).warnings == ResetsReport(s, resets).warnings
  {
    assert [Reached(resets)][..0] == [];
    var delta := Delta(DeltaOf(s), Done);
    assert PlanEvents([s], [Reached(resets)]) == [delta] + ResetsEvents(s, resets);
    ReplayTwo(k, delta, delta);
    ReplayJoins(k, [delta], ResetsEvents(s, resets));
  }
}
