/** How much the re-created orders of a resize plan cover together (execute_resize_plan in trader/sdk.py). */
module ResizeCover {
  import opened Common
  import opened ResizePlan
  import opened ResizeRun
  import opened ResizeLaws

  /** How many of a step's first orders have an heir, and what those heirs cover together. */
  function HeirCount(k: Book, s: PlanStep, n: nat): nat
    requires n <= |s.associated|
  {
    if n == 0 then 0 else HeirCount(k, s, n - 1) + if s.associated[n - 1].id in k.heirs then 1 else 0
  }

  function HeirCover(k: Book, s: PlanStep, n: nat): real
    requires n <= |s.associated|
  {
    if n == 0 then 0.0 else HeirCover(k, s, n - 1) + HeirQuantity(k, s.associated[n - 1].id)
  }

  function HeirQuantity(k: Book, id: OrderId): real {
    if id in k.heirs && k.heirs[id] in k.live then k.live[k.heirs[id]].quantity else 0.0
  }

  lemma {:induction false} CoverIsCounted(k: Book, s: PlanStep, n: nat, warnings: seq<Message>)
    requires n <= |s.associated|
    requires forall j :: 0 <= j < |s.associated| ==> Accounted(k, s.associated[j], s.adj, warnings)
    ensures HeirCover(k, s, n) == Times(HeirCount(k, s, n) as real, Abs(s.adj.target as real))
  {
    if n == 0 {
      OneMore(0, Abs(s.adj.target as real));
    } else {
      CoverIsCounted(k, s, n - 1, warnings);
      assert Accounted(k, s.associated[n - 1], s.adj, warnings);
      hide Times;
      OneMore(HeirCount(k, s, n - 1), Abs(s.adj.target as real));
    }
  }

  lemma OneMore(n: nat, t: real)
    ensures Times(0 as real, t) == 0.0 && Times((n + 1) as real, t) == Times(n as real, t) + t
  {
  }

  lemma AtMostOnce(n: nat, t: real)
    requires t > 0.0
    ensures Times(n as real, t) <= t <==> n <= 1
  {
    if n > 1 {
      var more := (n - 2) as real;
      assert more * t >= 0.0;
      assert Times(n as real, t) == t + t + more * t;
    }
  }

  /** Each replacement has the whole new size, so together they cover it once for each. */
  lemma EachReplacementCoversAll(start: Book, plan: seq<PlanStep>, contracts: map<string, int>,
                                 runs: seq<StepRun>, i: nat)
    requires Opening(start, plan) && |runs| == |plan| && PossibleRun(plan, contracts, runs)
    requires i < |plan| && runs[i].Reached?
    ensures var k, s := Replay(start, PlanEvents(plan, runs)), plan[i];
            HeirCover(k, s, |s.associated|) ==
              Times(HeirCount(k, s, |s.associated|) as real, Abs(s.adj.target as real))
  {
    RunIsDisciplined(start, plan, contracts, runs);
    var k, s, w := Replay(start, PlanEvents(plan, runs)), plan[i], PlanReport(plan, runs).warnings;
    assert StepSettled(k, s, runs[i], w);
    CoverIsCounted(k, s, |s.associated|, w);
  }

  // --------------------------------------------------------------- what the plan says about it

  /** How many of a step's first orders the broker can re-create: all but stop-limits. */
  function Renewable(s: PlanStep, n: nat): nat
    requires n <= |s.associated|
  {
    if n == 0 then 0 else Renewable(s, n - 1) + if s.associated[n - 1].order.orderType == StpLmt then 0 else 1
  }

  lemma {:induction false} FewHeirs(k: Book, s: PlanStep, n: nat)
    requires n <= |s.associated|
    requires forall j :: 0 <= j < n && s.associated[j].id in k.heirs ==> s.associated[j].order.orderType != StpLmt
    ensures HeirCount(k, s, n) <= Renewable(s, n)
  {
    if n > 0 {
      FewHeirs(k, s, n - 1);
    }
  }

  lemma {:induction false} ManyHeirs(k: Book, s: PlanStep, n: nat)
    requires n <= |s.associated|
    requires forall j :: 0 <= j < n && s.associated[j].order.orderType != StpLmt ==> s.associated[j].id in k.heirs
    ensures HeirCount(k, s, n) >= Renewable(s, n)
  {
    if n > 0 {
      ManyHeirs(k, s, n - 1);
    }
  }

  /** A stop-limit never gets an heir, in any run. */
  lemma OnlyRenewableGetHeirs(start: Book, plan: seq<PlanStep>, contracts: map<string, int>, runs: seq<StepRun>,
                              i: nat, j: nat)
    requires Opening(start, plan) && |runs| == |plan| && PossibleRun(plan, contracts, runs)
    requires i < |plan| && runs[i].Reached? && j < |plan[i].associated|
    requires plan[i].associated[j].id in Replay(start, PlanEvents(plan, runs)).heirs
    ensures plan[i].associated[j].order.orderType != StpLmt
  {
    RunIsDisciplined(start, plan, contracts, runs);
    var k, info := Replay(start, PlanEvents(plan, runs)), plan[i].associated[j];
    assert StepSettled(k, plan[i], runs[i], PlanReport(plan, runs).warnings);
    assert Accounted(k, info, plan[i].adj, PlanReport(plan, runs).warnings);
    assert HasHeir(start, k, info.id);
  }

  // ------------------------------------------------------------------ a run that goes well

  /** Every cancel is acknowledged and takes effect at once, and every order that can be re-created is. */
  function GoodReset(info: Associated, a: Adjustment): Reset {
    var renewable := info.order.orderType != StpLmt;
    Reset({}, Done, Some(Placing({info.id}, a.target as real, if renewable then Done else Refused, renewable)))
  }

  function GoodResets(s: PlanStep): (r: seq<Reset>)
    ensures |r| == |s.associated|
    ensures forall j :: 0 <= j < |r| ==> r[j] == GoodReset(s.associated[j], s.adj)
  {
    seq(|s.associated|, j requires 0 <= j < |s.associated| => GoodReset(s.associated[j], s.adj))
  }

  /** Step `i` goes well, and the delta of every other is refused. */
  function GoodRun(plan: seq<PlanStep>, i: nat): (r: seq<StepRun>)
    requires i < |plan|
    ensures |r| == |plan| && r[i] == Reached(GoodResets(plan[i]))
    ensures forall j :: 0 <= j < |r| && j != i ==> r[j] == Failed(Refused)
  {
    seq(|plan|, j requires 0 <= j < |plan| => if j == i then Reached(GoodResets(plan[i])) else Failed(Refused))
  }

  lemma GoodResetIsPossible(info: Associated, a: Adjustment)
    requires SoundAdjustment(a) && a.target != 0 && Protects(info.order, a)
    ensures PossibleReset(info, a, GoodReset(info, a))
  {
    var held := a.target as real;
    assert Slack(held) >= 0.0 by {
      assert Times(0.000000001, if Abs(held) > 1.0 then Abs(held) else 1.0) >= 0.0;
    }
  }

  lemma GoodRunIsPossible(plan: seq<PlanStep>, contracts: map<string, int>, i: nat)
    requires i < |plan| && Protected(plan[i]) && plan[i].adj.target != 0
    ensures PossibleRun(plan, contracts, GoodRun(plan, i))
  {
    var s, runs := plan[i], GoodRun(plan, i);
    forall j | 0 <= j < |s.associated|
      ensures PossibleReset(s.associated[j], s.adj, GoodResets(s)[j])
    {
      GoodResetIsPossible(s.associated[j], s.adj);
    }
    assert PossibleStep(s, contracts, runs[i]);
  }

  /** It warns of no order that can be re-created. */
  lemma {:induction false} GoodWarnings(start: Book, s: PlanStep, resets: seq<Reset>, j: nat)
    requires OpeningStep(start, s) && resets <= GoodResets(s)
    requires j < |s.associated| && s.associated[j].order.orderType != StpLmt
    ensures Silent(ResetsReport(s, resets).warnings, s.associated[j].id)
  {
    if resets != [] {
      var n := |resets| - 1;
      assert resets[n] == GoodReset(s.associated[n], s.adj);
      GoodWarnings(start, s, resets[..n], j);
    }
  }

  /** No message names the order. */
  predicate Silent(warnings: seq<Message>, id: OrderId) {
    forall m :: m in warnings ==> !Names(m, id)
  }

  lemma {:induction false} WarningsOfGoodRun(plan: seq<PlanStep>, i: nat, n: nat)
    requires i < |plan| && n <= |plan|
    ensures forall m :: m in PlanReport(plan, GoodRun(plan, i)[..n]).warnings ==>
              m in ResetsReport(plan[i], GoodResets(plan[i])).warnings
  {
    if n > 0 {
      WarningsOfGoodRun(plan, i, n - 1);
      assert GoodRun(plan, i)[..n][..n - 1] == GoodRun(plan, i)[..n - 1];
    }
  }

  lemma GoodRunNamesNoRenewable(start: Book, plan: seq<PlanStep>, i: nat, j: nat)
    requires i < |plan| && OpeningStep(start, plan[i]) && j < |plan[i].associated|
    requires plan[i].associated[j].order.orderType != StpLmt
    ensures Silent(PlanReport(plan, GoodRun(plan, i)).warnings, plan[i].associated[j].id)
  {
    hide OpeningStep, GoodResets, ResetsReport, PlanReport, Names;
    GoodWarnings(start, plan[i], GoodResets(plan[i]), j);
    WarningsOfGoodRun(plan, i, |plan|);
    assert GoodRun(plan, i)[..|plan|] == GoodRun(plan, i);
  }

  /** All that can be re-created is. */
  lemma GoodRunRenewsAll(start: Book, plan: seq<PlanStep>, contracts: map<string, int>, i: nat, j: nat)
    requires Opening(start, plan) && i < |plan| && PossibleRun(plan, contracts, GoodRun(plan, i))
    requires j < |plan[i].associated| && plan[i].associated[j].order.orderType != StpLmt
    ensures plan[i].associated[j].id in Replay(start, PlanEvents(plan, GoodRun(plan, i))).heirs
  {
    var s, runs := plan[i], GoodRun(plan, i);
    assert OpeningStep(start, s);
    hide Opening, PossibleRun, PlanEvents, PlanReport, Replay, GoodResets, OpeningStep, Traceable, Names;
    var k, w, id := Replay(start, PlanEvents(plan, runs)), PlanReport(plan, runs).warnings, s.associated[j].id;
    RunIsDisciplined(start, plan, contracts, runs);
    assert StepSettled(k, s, runs[i], w) && Accounted(k, s.associated[j], s.adj, w);
    GoodRunNamesNoRenewable(start, plan, i, j);
  }

  // --------------------------------------------------------------------------- and so

  /** A step as the planner makes it, whatever is held. */
  predicate Protected(s: PlanStep) {
    SoundAdjustment(s.adj) && forall j :: 0 <= j < |s.associated| ==> Protects(s.associated[j].order, s.adj)
  }

  ghost predicate CoversOnce(start: Book, plan: seq<PlanStep>, contracts: map<string, int>, i: nat)
    requires i < |plan|
  {
    forall runs: seq<StepRun> :: |runs| == |plan| && PossibleRun(plan, contracts, runs) && runs[i].Reached? ==>
      HeirCover(Replay(start, PlanEvents(plan, runs)), plan[i], |plan[i].associated|)
        <= Abs(plan[i].adj.target as real)
  }

  /** In every run of the plan the replacements of step `i` together cover no more than its new position, if and only
      if the plan lists at most one order for it that can be re-created, or sells all of it. So two stops that each
      protected a part of a position are not safe to hand to the executor. */
  lemma ReplacementsCoverOnceExactly(start: Book, plan: seq<PlanStep>, contracts: map<string, int>, i: nat)
    requires Opening(start, plan) && i < |plan| && Protected(plan[i])
    ensures CoversOnce(start, plan, contracts, i) <==>
              Renewable(plan[i], |plan[i].associated|) <= 1 || plan[i].adj.target == 0
  {
    var s := plan[i];
    var n, size := |s.associated|, Abs(s.adj.target as real);
    hide Opening, PossibleRun, PlanEvents, Replay, HeirCover, HeirCount, Renewable, SoundAdjustment;
    if Renewable(s, n) <= 1 || s.adj.target == 0 {
      forall runs: seq<StepRun> | |runs| == |plan| && PossibleRun(plan, contracts, runs) && runs[i].Reached?
        ensures HeirCover(Replay(start, PlanEvents(plan, runs)), s, n) <= size
      {
        RunCoversOnce(start, plan, contracts, runs, i);
      }
    } else {
      GoodRunIsPossible(plan, contracts, i);
      GoodRunCoversTwice(start, plan, contracts, i);
    }
  }

  lemma RunCoversOnce(start: Book, plan: seq<PlanStep>, contracts: map<string, int>, runs: seq<StepRun>, i: nat)
    requires Opening(start, plan) && |runs| == |plan| && PossibleRun(plan, contracts, runs)
    requires i < |plan| && runs[i].Reached?
    requires Renewable(plan[i], |plan[i].associated|) <= 1 || plan[i].adj.target == 0
    ensures HeirCover(Replay(start, PlanEvents(plan, runs)), plan[i], |plan[i].associated|)
            <= Abs(plan[i].adj.target as real)
  {
    hide Opening, PossibleRun, PlanEvents, Replay, HeirCover, HeirCount;
    var k, s, n := Replay(start, PlanEvents(plan, runs)), plan[i], |plan[i].associated|;
    var count, size := HeirCount(k, s, n), Abs(s.adj.target as real);
    EachReplacementCoversAll(start, plan, contracts, runs, i);
    forall j | 0 <= j < n && s.associated[j].id in k.heirs
      ensures s.associated[j].order.orderType != StpLmt
    {
      OnlyRenewableGetHeirs(start, plan, contracts, runs, i, j);
    }
    FewHeirs(k, s, n);
    if size > 0.0 {
      AtMostOnce(count, size);
    } else {
      assert Times(count as real, size) == 0.0;
    }
  }

  lemma GoodRunCoversTwice(start: Book, plan: seq<PlanStep>, contracts: map<string, int>, i: nat)
    requires Opening(start, plan) && i < |plan| && PossibleRun(plan, contracts, GoodRun(plan, i))
    requires Renewable(plan[i], |plan[i].associated|) > 1 && plan[i].adj.target != 0
    ensures HeirCover(Replay(start, PlanEvents(plan, GoodRun(plan, i))), plan[i], |plan[i].associated|)
            > Abs(plan[i].adj.target as real)
  {
    var runs, s, n := GoodRun(plan, i), plan[i], |plan[i].associated|;
    var k := Replay(start, PlanEvents(plan, runs));
    EachReplacementCoversAll(start, plan, contracts, runs, i);
    forall j | 0 <= j < n && s.associated[j].order.orderType != StpLmt
      ensures s.associated[j].id in k.heirs
    {
      GoodRunRenewsAll(start, plan, contracts, i, j);
    }
    ManyHeirs(k, s, n);
    AtMostOnce(HeirCount(k, s, n), Abs(s.adj.target as real));
  }

  // --------------------------------------------------------------------- two stops in point

  const TEN: OrderId := OrderId(10)

  const PARTS: seq<Associated> :=
    [Associated(SEVEN, STOP.(quantity := 60.0)), Associated(EIGHT, STOP.(quantity := 40.0))]
  const PARTED: Book := Book(map[SEVEN := PARTS[0].order, EIGHT := PARTS[1].order], 9, {}, {}, map[])

  const PART_PLAN: PlanStep := PlanStep(TRIM, PARTS)

  /** Both cancels take effect at once, and both new stops are accepted. */
  const BOTH: seq<Reset> := [GoodReset(PARTS[0], TRIM), GoodReset(PARTS[1], TRIM)]

  /** Stops of 60 and 40 on 100 shares, which are trimmed to 50. All goes well and nothing is complained of, and the
      two new stops sell 100. */
  lemma TwoStopsCoverTwice()
    ensures var plan, runs := [PART_PLAN], [Reached(BOTH)];
            var k, report := Replay(PARTED, PlanEvents(plan, runs)), PlanReport(plan, runs);
            && Opening(PARTED, plan) && PossibleRun(plan, map[], runs) && TRIM.target == 50
            && report.failures == [] && report.warnings == []
            && k.live == map[NINE := STOP.(quantity := 50.0), TEN := STOP.(quantity := 50.0)]
            && HeirCover(k, PART_PLAN, 2) == 100.0
  {
    PartsOpen();
    SingleRun(PARTED, PART_PLAN, BOTH);
    hide Opening, PossibleRun, PlanEvents, PlanReport, GoodReset;
    TwoResets(PARTED, PART_PLAN, BOTH[0], BOTH[1]);
    PartsRenewed();
    PartsReport();
  }

  lemma PartsOpen()
    ensures Opening(PARTED, [PART_PLAN]) && PossibleRun([PART_PLAN], map[], [Reached(BOTH)])
  {
    assert ListedAt(PARTED, PART_PLAN, 0) && ListedAt(PARTED, PART_PLAN, 1);
    GoodResetIsPossible(PARTS[0], TRIM);
    GoodResetIsPossible(PARTS[1], TRIM);
    hide GoodReset;
    assert PossibleStep(PART_PLAN, map[], Reached(BOTH));
  }

  lemma PartsReport()
    ensures ResetsReport(PART_PLAN, BOTH).failures == [] && ResetsReport(PART_PLAN, BOTH).warnings == []
  {
    assert BOTH[..1] == [BOTH[0]];
    OneReset(PART_PLAN, BOTH[0]);
  }

  const HALF_WAY: Book :=
    Book(map[EIGHT := PARTS[1].order, NINE := STOP.(quantity := 50.0)], 10, {SEVEN}, {SEVEN}, map[SEVEN := NINE])

  lemma PartsRenewed()
    ensures var one := Replay(PARTED, ResetEvents(PARTS[0], TRIM, GoodReset(PARTS[0], TRIM)));
            var k := Replay(one, ResetEvents(PARTS[1], TRIM, GoodReset(PARTS[1], TRIM)));
            && k.live == map[NINE := STOP.(quantity := 50.0), TEN := STOP.(quantity := 50.0)]
            && HeirCover(k, PART_PLAN, 2) == 100.0
  {
    FirstRenewed();
    SecondRenewed();
    var k := Replay(HALF_WAY, ResetEvents(PARTS[1], TRIM, GoodReset(PARTS[1], TRIM)));
    TwoFifties(k);
  }

  lemma FirstRenewed()
    ensures Replay(PARTED, ResetEvents(PARTS[0], TRIM, GoodReset(PARTS[0], TRIM))) == HALF_WAY
  {
    ReplayReset(PARTED, PARTS[0], TRIM, GoodReset(PARTS[0], TRIM));
  }

  lemma SecondRenewed()
    ensures var k := Replay(HALF_WAY, ResetEvents(PARTS[1], TRIM, GoodReset(PARTS[1], TRIM)));
            && k.live == map[NINE := STOP.(quantity := 50.0), TEN := STOP.(quantity := 50.0)]
            && k.heirs == map[SEVEN := NINE, EIGHT := TEN]
  {
    ReplayReset(HALF_WAY, PARTS[1], TRIM, GoodReset(PARTS[1], TRIM));
  }

  lemma TwoFifties(k: Book)
    requires k.live == map[NINE := STOP.(quantity := 50.0), TEN := STOP.(quantity := 50.0)]
    requires k.heirs == map[SEVEN := NINE, EIGHT := TEN]
    ensures HeirCover(k, PART_PLAN, 2) == 100.0
  {
    assert HeirQuantity(k, PARTS[0].id) == 50.0 && HeirQuantity(k, PARTS[1].id) == 50.0;
    assert HeirCover(k, PART_PLAN, 1) == HeirCover(k, PART_PLAN, 0) + HeirQuantity(k, PARTS[0].id);
  }
}
