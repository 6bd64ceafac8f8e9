/** Approvers and rejecters racing on the proposal table (approve and reject in trader/sdk.py).

    Each database call is one step, and an order RPC is two: the request leaves, later a reply comes back.
    Any number of actors take steps in any order, while other callers add, annotate and delete rows. */
module Approvals {
  import opened Common
  import opened Proposals

  /** What became of an order at the broker, whatever the approver is told about it. */
  datatype Fate = NeverLeft | TurnedDown | Live(ids: seq<int>)

  /** What the order RPC hands back; `Unexpected` is an exception of any kind not named. */
  datatype Reply = Success(ids: seq<int>) | Refusal | Timeout | NoConnection | Unexpected

  /** A success is true. No other reply says anything about the order's fate: the service also answers "fail" when
      it placed one half of a split order, or when an exception follows the placement, and hands exceptions of its
      own, connection errors among them, to the client. */
  predicate Truthful(fate: Fate, reply: Reply) {
    reply.Success? ==> fate == Live(reply.ids)
  }

  /** The replies after which approve writes FAILED. */
  predicate Condemns(reply: Reply) {
    reply.Refusal? || reply.NoConnection? || reply.Unexpected?
  }

  /** One use of the order RPC. */
  datatype Order = Order(
    sender: nat, pid: int, terms: Terms, quantity: real, fate: Fate, reply: Option<Reply>)

  datatype Verdict = Missing | NotPending | LostTheRace | Failure | Unknown | Placed(ids: seq<int>)

  datatype Phase =
    | Reading
    | Claiming(terms: Terms)
    | Sizing(terms: Terms)
    | Condemning
    | Submitting(terms: Terms, quantity: real)
    | Waiting(order: nat)
    | Settling(order: nat)
    | Failing
    | Done(verdict: Verdict)

  datatype Actor =
    | Approver(pid: int, phase: Phase)
    | Looker(pid: int)
    | Rejecter(pid: int)
    | Finished(pid: int, rejected: bool)

  /** The table, the actors, every order RPC so far, and who won each row. */
  datatype System = System(
    table: Table, actors: map<nat, Actor>, orders: seq<Order>, winners: map<int, nat>, rejections: set<int>)

  /** What pricing the order yields when the proposal names an amount and no quantity. */
  datatype Quote = Unpriced | Unsizable | Shares(count: int)

  datatype Sized = Ready(quantity: real) | NoPrice | BadNotional | NoQuantity

  function Size(terms: Terms, quote: Quote): Sized {
    if terms.quantity.None? && terms.amount.Some? then
      match quote
      case Unpriced => NoPrice
      case Unsizable => BadNotional
      case Shares(n) => if n <= 0 then NoQuantity else Ready(n as real)
    else if terms.quantity.None? || terms.quantity.value <= 0.0 then NoQuantity
    else Ready(terms.quantity.value)
  }

  datatype Step =
    | Read(a: nat)
    | Claim(a: nat, now: int)
    | Prepare(a: nat, resolved: bool, quote: Quote)
    | Condemn(a: nat, now: int)
    | Submit(a: nat, fate: Fate)
    | Receive(a: nat, reply: Reply)
    | Settle(a: nat, now: int)
    | Fail(a: nat, now: int)
    | Look(a: nat)
    | Reject(a: nat, reason: string, now: int)
    | Elsewhere(call: Call)

  /** What callers other than approvers and rejecters may do to the table. */
  predicate Harmless(call: Call) {
    call.CallAdd? || call.CallMetadata? || call.CallDelete?
  }

  predicate Approving(s: System, a: nat) {
    a in s.actors && s.actors[a].Approver?
  }

  function To(s: System, a: nat, phase: Phase): System
    requires a in s.actors
  {
    s.(actors := s.actors[a := Approver(s.actors[a].pid, phase)])
  }

  function AfterRead(s: System, a: nat): System
    requires Approving(s, a)
  {
    var pid := s.actors[a].pid;
    if pid !in s.table.rows then To(s, a, Done(Missing))
    else if s.table.rows[pid].status != Pending then To(s, a, Done(NotPending))
    else To(s, a, Claiming(s.table.rows[pid].terms))
  }

  function AfterClaim(s: System, a: nat, terms: Terms, now: int): System
    requires Approving(s, a)
  {
    var pid := s.actors[a].pid;
    var (table, won) := CompareAndSwap(s.table, pid, Pending, Approved, NO_CHANGES, now);
    if won == Ok(true) then To(s, a, Sizing(terms)).(table := table, winners := s.winners[pid := a])
    else To(s, a, Done(LostTheRace))
  }

  function AfterPrepare(s: System, a: nat, terms: Terms, resolved: bool, quote: Quote): System
    requires Approving(s, a)
  {
    if !resolved then To(s, a, Failing)
    else
      match Size(terms, quote)
      case Ready(q) => To(s, a, Submitting(terms, q))
      case NoPrice => To(s, a, Condemning)
      case BadNotional => To(s, a, Failing)
      case NoQuantity => To(s, a, Condemning)
  }

  function AfterCondemn(s: System, a: nat, now: int): System
    requires Approving(s, a)
  {
    var (table, r) := SetStatus(s.table, s.actors[a].pid, Failed, NO_CHANGES, now);
    if r.Ok? then To(s, a, Done(Failure)).(table := table) else To(s, a, Failing)
  }

  function AfterSubmit(s: System, a: nat, terms: Terms, quantity: real, fate: Fate): System
    requires Approving(s, a)
  {
    To(s, a, Waiting(|s.orders|)).(orders := s.orders + [Order(a, s.actors[a].pid, terms, quantity, fate, None)])
  }

  function AfterReceive(s: System, a: nat, i: nat, reply: Reply): System
    requires Approving(s, a) && i < |s.orders|
  {
    var phase :=
      match reply
      case Success(_) => Settling(i)
      case Timeout => Done(Unknown)
      case _ => Failing;
    To(s, a, phase).(orders := s.orders[i := s.orders[i].(reply := Some(reply))])
  }

  function AfterSettle(s: System, a: nat, i: nat, now: int): System
    requires Approving(s, a) && i < |s.orders| && s.orders[i].reply.Some? && s.orders[i].reply.value.Success?
  {
    var ids := s.orders[i].reply.value.ids;
    var (table, _) :=
      CompareAndSwap(s.table, s.actors[a].pid, Approved, Executed, Changes(Some(ids), None), now);
    To(s, a, Done(Placed(ids))).(table := table)
  }

  function AfterFail(s: System, a: nat, now: int): System
    requires Approving(s, a)
  {
    var (table, _) := CompareAndSwap(s.table, s.actors[a].pid, Approved, Failed, NO_CHANGES, now);
    To(s, a, Done(Failure)).(table := table)
  }

  function AfterLook(s: System, a: nat): System
    requires a in s.actors
  {
    var pid := s.actors[a].pid;
    s.(actors := s.actors[a := if pid in s.table.rows then Rejecter(pid) else Finished(pid, false)])
  }

  function AfterReject(s: System, a: nat, reason: string, now: int): System
    requires a in s.actors
  {
    var pid := s.actors[a].pid;
    var (table, won) := CompareAndSwap(s.table, pid, Pending, Rejected, Changes(None, Some(reason)), now);
    s.(table := table,
       actors := s.actors[a := Finished(pid, won == Ok(true))],
       rejections := if won == Ok(true) then s.rejections + {pid} else s.rejections)
  }

  /** One step of the system; a step that is not enabled changes nothing. */
  function Next(s: System, step: Step): System {
    match step
    case Elsewhere(call) => if Harmless(call) then s.(table := Apply(s.table, call)) else s
    case Look(a) => if a in s.actors && s.actors[a].Looker? then AfterLook(s, a) else s
    case Reject(a, reason, now) => if a in s.actors && s.actors[a].Rejecter? then AfterReject(s, a, reason, now) else s
    case _ => if Approving(s, step.a) then NextOfApprover(s, step, s.actors[step.a].phase) else s
  }

  function NextOfApprover(s: System, step: Step, phase: Phase): System
    requires !step.Elsewhere? && Approving(s, step.a)
  {
    match (phase, step)
    case (Reading, Read(a)) => AfterRead(s, a)
    case (Claiming(terms), Claim(a, now)) => AfterClaim(s, a, terms, now)
    case (Sizing(terms), Prepare(a, resolved, quote)) => AfterPrepare(s, a, terms, resolved, quote)
    case (Condemning, Condemn(a, now)) => AfterCondemn(s, a, now)
    case (Submitting(terms, q), Submit(a, fate)) => AfterSubmit(s, a, terms, q, fate)
    case (Waiting(i), Receive(a, reply)) =>
      if i < |s.orders| && Truthful(s.orders[i].fate, reply) then AfterReceive(s, a, i, reply) else s
    case (Settling(i), Settle(a, now)) =>
      if i < |s.orders| && s.orders[i].reply.Some? && s.orders[i].reply.value.Success? then AfterSettle(s, a, i, now)
      else s
    case (Failing, Fail(a, now)) => AfterFail(s, a, now)
    case _ => s
  }

  /** Actors that have not started, on an empty table. */
  predicate Fresh(actors: map<nat, Actor>) {
    forall a :: a in actors ==> actors[a].Looker? || (actors[a].Approver? && actors[a].phase == Reading)
  }

  function Start(actors: map<nat, Actor>): System {
    System(EMPTY, actors, [], map[], {})
  }

  function Run(s: System, steps: seq<Step>): System {
    if steps == [] then s else Next(Run(s, steps[..|steps| - 1]), steps[|steps| - 1])
  }

  /** The states some interleaving of some actors leads to. */
  ghost predicate Reachable(s: System) {
    exists actors, steps :: Fresh(actors) && s == Run(Start(actors), steps)
  }

  // ------------------------------------------------------------------ invariant

  /** Won the claim and not yet returned. */
  predicate Holding(phase: Phase) {
    phase.Sizing? || phase.Condemning? || phase.Submitting? || phase.Waiting? || phase.Settling? || phase.Failing?
  }

  /** Returned after it had won the claim. */
  predicate Returned(phase: Phase) {
    phase.Done? && (phase.verdict.Unknown? || phase.verdict.Placed? || phase.verdict.Failure?)
  }

  predicate PhaseIs(s: System, a: nat, phase: Phase) {
    Approving(s, a) && s.actors[a].phase == phase
  }

  predicate PhaseIsDone(s: System, a: nat) {
    Approving(s, a) && s.actors[a].phase.Done?
  }

  predicate StatusIs(s: System, pid: int, status: Status) {
    pid in s.table.rows ==> s.table.rows[pid].status == status
  }

  /** What was read of `pid` is still what its row says, and no later row can take its id. */
  predicate TermsAre(s: System, pid: int, terms: Terms) {
    pid < s.table.nextId && (pid in s.table.rows ==> s.table.rows[pid].terms == terms)
  }

  /** A quantity an order may carry: positive, and the proposal's own where it names one. */
  predicate Sound(terms: Terms, quantity: real) {
    quantity > 0.0 && (terms.quantity.Some? ==> quantity == terms.quantity.value)
  }

  /** The winner of `pid` is an approver of `pid`, and while it works the row stays APPROVED. */
  predicate WinnerOk(s: System, pid: int)
    requires pid in s.winners
  {
    var a := s.winners[pid];
    && pid < s.table.nextId
    && pid !in s.rejections
    && Approving(s, a) && s.actors[a].pid == pid
    && (Holding(s.actors[a].phase) || s.actors[a].phase.Done?)
    && (Holding(s.actors[a].phase) ==> StatusIs(s, pid, Approved))
  }

  predicate ActorOk(s: System, a: nat)
    requires a in s.actors
  {
    match s.actors[a]
    case Approver(pid, phase) =>
      && (Holding(phase) || Returned(phase) ==> pid in s.winners && s.winners[pid] == a)
      && (phase.Sizing? || phase.Condemning? || phase.Submitting? ==> Unsent(s, pid))
      && (phase.Claiming? || phase.Sizing? || phase.Submitting? ==> TermsAre(s, pid, phase.terms))
      && (phase.Submitting? ==> Sound(phase.terms, phase.quantity))
      && (phase.Waiting? ==> phase.order < |s.orders| && s.orders[phase.order].pid == pid
                             && s.orders[phase.order].reply == None)
      && (phase.Settling? ==> phase.order < |s.orders| && s.orders[phase.order].pid == pid
                              && s.orders[phase.order].reply.Some? && s.orders[phase.order].reply.value.Success?)
      && (phase == Done(Unknown) ==> StatusIs(s, pid, Approved))
      && (phase == Done(Failure) ==> StatusIs(s, pid, Failed))
      && (phase.Done? && phase.verdict.Placed? ==>
            StatusIs(s, pid, Executed) && (pid in s.table.rows ==> s.table.rows[pid].orderIds == phase.verdict.ids))
    case Finished(pid, rejected) => rejected ==> pid in s.rejections
    case _ => true
  }

  predicate Unsent(s: System, pid: int) {
    forall i :: 0 <= i < |s.orders| ==> s.orders[i].pid != pid
  }

  predicate OrderOk(s: System, i: nat)
    requires i < |s.orders|
  {
    var o := s.orders[i];
    && TermsAre(s, o.pid, o.terms) && Sound(o.terms, o.quantity)
    && o.pid in s.winners && s.winners[o.pid] == o.sender
    && Approving(s, o.sender)
    && var phase := s.actors[o.sender].phase;
      match o.reply
      case None => phase == Waiting(i)
      case Some(reply) =>
        && Truthful(o.fate, reply)
        && match reply
           case Success(ids) => phase == Settling(i) || phase == Done(Placed(ids))
           case Timeout => phase == Done(Unknown)
           case _ => phase == Failing || (phase == Done(Failure) && StatusIs(s, o.pid, Failed))
  }

  /** Some order for `pid` was answered with success and these ids. */
  predicate Confirmed(s: System, pid: int, ids: seq<int>) {
    exists i :: 0 <= i < |s.orders| && s.orders[i].pid == pid && s.orders[i].reply == Some(Success(ids))
  }

  predicate RowOk(s: System, pid: int)
    requires pid in s.table.rows
  {
    var row := s.table.rows[pid];
    match row.status
    case Pending => pid !in s.winners && pid !in s.rejections
    case Approved => pid in s.winners
    case Executed => Confirmed(s, pid, row.orderIds)
    case Failed => pid in s.winners && PhaseIs(s, s.winners[pid], Done(Failure))
    case Rejected => pid in s.rejections
    case _ => false
  }

  ghost predicate Inv(s: System) {
    && WellFormed(s.table)
    && (forall pid :: pid in s.winners ==> WinnerOk(s, pid))
    && (forall a :: a in s.actors ==> ActorOk(s, a))
    && (forall i :: 0 <= i < |s.orders| ==> OrderOk(s, i))
    && (forall i, j :: 0 <= i < j < |s.orders| ==> s.orders[i].pid != s.orders[j].pid)
    && (forall pid :: pid in s.table.rows ==> RowOk(s, pid))
    && (forall pid :: pid in s.rejections ==> pid < s.table.nextId && StatusIs(s, pid, Rejected))
  }

  lemma ElsewhereKeepsInv(s: System, call: Call)
    requires Inv(s) && Harmless(call)
    ensures Inv(s.(table := Apply(s.table, call)))
  {
    var s' := s.(table := Apply(s.table, call));
    assert forall pid :: pid in s.winners ==> WinnerOk(s, pid);
    forall pid | pid in s'.table.rows
      ensures RowOk(s', pid)
    {
      if pid in s.table.rows {
        assert RowOk(s, pid);
      }
    }
    forall a | a in s'.actors
      ensures ActorOk(s', a)
    {
      assert ActorOk(s, a);
    }
    forall i | 0 <= i < |s'.orders|
      ensures OrderOk(s', i)
    {
      assert OrderOk(s, i);
    }
  }

  /** A step of one approver that leaves the table, the orders and the winners alone. */
  lemma MovingKeepsInv(s: System, a: nat, phase: Phase)
    requires Inv(s) && Approving(s, a)
    requires forall i :: 0 <= i < |s.orders| ==> s.orders[i].sender != a
    requires Holding(phase) ==> Holding(s.actors[a].phase)
    requires Holding(s.actors[a].phase) ==> Holding(phase)
    requires !phase.Waiting? && !phase.Settling? && !Returned(phase)
    requires phase.Claiming? || phase.Sizing? || phase.Submitting? ==> TermsAre(s, s.actors[a].pid, phase.terms)
    requires phase.Submitting? ==> Sound(phase.terms, phase.quantity)
    requires !s.actors[a].phase.Done?
    ensures Inv(To(s, a, phase))
  {
    var s' := To(s, a, phase);
    var pid := s.actors[a].pid;
    assert ActorOk(s, a);
    forall q | q in s'.table.rows
      ensures RowOk(s', q)
    {
      assert RowOk(s, q);
    }
    forall b | b in s'.actors
      ensures ActorOk(s', b)
    {
      if b != a {
        assert ActorOk(s, b);
      } else if phase.Sizing? || phase.Condemning? || phase.Submitting? {
        forall i | 0 <= i < |s.orders|
          ensures s.orders[i].pid != pid
        {
          assert OrderOk(s, i);
        }
      }
    }
    forall i | 0 <= i < |s'.orders|
      ensures OrderOk(s', i)
    {
      assert OrderOk(s, i);
    }
    forall q | q in s'.winners
      ensures WinnerOk(s', q)
    {
      assert WinnerOk(s, q);
    }
  }

  lemma ClaimKeepsInv(s: System, a: nat, terms: Terms, now: int)
    requires Inv(s) && PhaseIs(s, a, Claiming(terms))
    ensures Inv(AfterClaim(s, a, terms, now))
  {
    var s' := AfterClaim(s, a, terms, now);
    var pid := s.actors[a].pid;
    forall i | 0 <= i < |s.orders|
      ensures s.orders[i].sender != a && OrderOk(s', i)
    {
      assert OrderOk(s, i) && WinnerOk(s, s.orders[i].pid);
    }
    if pid in s.table.rows && s.table.rows[pid].status == Pending {
      assert RowOk(s, pid);
      forall q | q in s'.table.rows
        ensures RowOk(s', q)
      {
        assert RowOk(s, q);
      }
      forall b | b in s'.actors
        ensures ActorOk(s', b)
      {
        assert ActorOk(s, b);
        if b == a {
          forall i | 0 <= i < |s.orders|
            ensures s.orders[i].pid != pid
          {
            assert OrderOk(s, i);
          }
        }
      }
      forall q | q in s'.winners
        ensures WinnerOk(s', q)
      {
        assert q != pid ==> WinnerOk(s, q);
      }
    } else {
      MovingKeepsInv(s, a, Done(LostTheRace));
    }
  }

  /** All that a holder's step must check: its own row, its own order, and nobody else's. */
  lemma HolderKeepsInv(s: System, s': System, a: nat)
    requires Inv(s) && Approving(s, a) && Holding(s.actors[a].phase)
    requires var pid := s.actors[a].pid;
             && WellFormed(s'.table) && s'.table.nextId == s.table.nextId
             && s'.winners == s.winners && s'.rejections == s.rejections
             && s'.actors.Keys == s.actors.Keys && (forall b :: b in s.actors && b != a ==> s'.actors[b] == s.actors[b])
             && Approving(s', a) && s'.actors[a].pid == pid
             && s'.table.rows.Keys == s.table.rows.Keys
             && (forall q :: q in s.table.rows ==> s'.table.rows[q].terms == s.table.rows[q].terms)
             && (forall q :: q in s.table.rows && q != pid ==> s'.table.rows[q] == s.table.rows[q])
             && |s'.orders| >= |s.orders|
             && (forall i :: 0 <= i < |s.orders| && s.orders[i].pid != pid ==> s'.orders[i] == s.orders[i])
             && (forall i :: 0 <= i < |s.orders| ==> s'.orders[i].pid == s.orders[i].pid)
             && (forall i :: |s.orders| <= i < |s'.orders| ==>
                   s'.orders[i].pid == pid && i == |s.orders| && Unsent(s, pid))
    requires ActorOk(s', a) && WinnerOk(s', s.actors[a].pid)
    requires s.actors[a].pid in s.table.rows ==> RowOk(s', s.actors[a].pid)
    requires forall i :: 0 <= i < |s'.orders| && s'.orders[i].pid == s.actors[a].pid ==> OrderOk(s', i)
    ensures Inv(s')
  {
    var pid := s.actors[a].pid;
    assert ActorOk(s, a);
    assert s.winners[pid] == a;
    forall q | q in s'.winners
      ensures WinnerOk(s', q)
    {
      assert WinnerOk(s, q);
    }
    forall q | q in s'.table.rows
      ensures RowOk(s', q)
    {
      assert RowOk(s, q);
      if q != pid && s.table.rows[q].status == Executed {
        var i :| 0 <= i < |s.orders| && s.orders[i].pid == q
                 && s.orders[i].reply == Some(Success(s.table.rows[q].orderIds));
        assert s'.orders[i] == s.orders[i];
      }
      if q in s.winners {
        assert WinnerOk(s, q);
      }
    }
    forall b | b in s'.actors
      ensures ActorOk(s', b)
    {
      assert ActorOk(s, b);
    }
    forall i | 0 <= i < |s'.orders|
      ensures OrderOk(s', i)
    {
      if i < |s.orders| {
        assert OrderOk(s, i);
        if s.orders[i].pid in s.winners && s.orders[i].pid != pid {
          assert WinnerOk(s, s.orders[i].pid);
        }
      }
    }
    assert WinnerOk(s, pid);
  }

  lemma CondemnKeepsInv(s: System, a: nat, now: int)
    requires Inv(s) && PhaseIs(s, a, Condemning)
    ensures Inv(AfterCondemn(s, a, now))
  {
    var s' := AfterCondemn(s, a, now);
    var pid := s.actors[a].pid;
    assert ActorOk(s, a) && WinnerOk(s, pid);
    HolderKeepsInv(s, s', a);
  }

  lemma SubmitKeepsInv(s: System, a: nat, terms: Terms, quantity: real, fate: Fate)
    requires Inv(s) && PhaseIs(s, a, Submitting(terms, quantity))
    ensures Inv(AfterSubmit(s, a, terms, quantity, fate))
  {
    var s' := AfterSubmit(s, a, terms, quantity, fate);
    var pid := s.actors[a].pid;
    assert ActorOk(s, a) && WinnerOk(s, pid);
    if pid in s.table.rows {
      assert RowOk(s, pid);
    }
    HolderKeepsInv(s, s', a);
  }

  lemma ReceiveKeepsInv(s: System, a: nat, i: nat, reply: Reply)
    requires Inv(s) && PhaseIs(s, a, Waiting(i)) && i < |s.orders| && Truthful(s.orders[i].fate, reply)
    ensures Inv(AfterReceive(s, a, i, reply))
  {
    var s' := AfterReceive(s, a, i, reply);
    var pid := s.actors[a].pid;
    assert ActorOk(s, a) && WinnerOk(s, pid) && OrderOk(s, i);
    if pid in s.table.rows {
      assert RowOk(s, pid);
    }
    forall j | 0 <= j < |s'.orders| && s'.orders[j].pid == pid
      ensures j == i
    {
      assert s.orders[j].pid == pid;
    }
    HolderKeepsInv(s, s', a);
  }

  lemma SettleKeepsInv(s: System, a: nat, i: nat, now: int)
    requires Inv(s) && PhaseIs(s, a, Settling(i))
    requires i < |s.orders| && s.orders[i].reply.Some? && s.orders[i].reply.value.Success?
    ensures Inv(AfterSettle(s, a, i, now))
  {
    var s' := AfterSettle(s, a, i, now);
    var pid := s.actors[a].pid;
    assert ActorOk(s, a) && WinnerOk(s, pid) && OrderOk(s, i);
    assert Confirmed(s', pid, s.orders[i].reply.value.ids);
    forall j | 0 <= j < |s'.orders| && s'.orders[j].pid == pid
      ensures j == i
    {
      assert s.orders[j].pid == pid;
    }
    HolderKeepsInv(s, s', a);
  }

  lemma FailKeepsInv(s: System, a: nat, now: int)
    requires Inv(s) && PhaseIs(s, a, Failing)
    ensures Inv(AfterFail(s, a, now))
  {
    var s' := AfterFail(s, a, now);
    var pid := s.actors[a].pid;
    assert ActorOk(s, a) && WinnerOk(s, pid);
    forall j | 0 <= j < |s'.orders| && s'.orders[j].pid == pid
      ensures OrderOk(s', j)
    {
      assert OrderOk(s, j);
    }
    HolderKeepsInv(s, s', a);
  }

  lemma PrepareKeepsInv(s: System, a: nat, terms: Terms, resolved: bool, quote: Quote)
    requires Inv(s) && PhaseIs(s, a, Sizing(terms))
    ensures Inv(AfterPrepare(s, a, terms, resolved, quote))
  {
    assert ActorOk(s, a);
    forall i | 0 <= i < |s.orders|
      ensures s.orders[i].sender != a
    {
      assert OrderOk(s, i);
    }
    if !resolved {
      MovingKeepsInv(s, a, Failing);
    } else {
      match Size(terms, quote)
      case Ready(q) => MovingKeepsInv(s, a, Submitting(terms, q));
      case NoPrice => MovingKeepsInv(s, a, Condemning);
      case BadNotional => MovingKeepsInv(s, a, Failing);
      case NoQuantity => MovingKeepsInv(s, a, Condemning);
    }
  }

  lemma ReadKeepsInv(s: System, a: nat)
    requires Inv(s) && PhaseIs(s, a, Reading)
    ensures Inv(AfterRead(s, a))
  {
    forall i | 0 <= i < |s.orders|
      ensures s.orders[i].sender != a
    {
      assert OrderOk(s, i);
    }
    var pid := s.actors[a].pid;
    if pid !in s.table.rows {
      MovingKeepsInv(s, a, Done(Missing));
    } else if s.table.rows[pid].status != Pending {
      MovingKeepsInv(s, a, Done(NotPending));
    } else {
      MovingKeepsInv(s, a, Claiming(s.table.rows[pid].terms));
    }
  }

  /** A rejecter's steps touch no approver, and its swap only a row still PENDING. */
  lemma RejecterKeepsInv(s: System, s': System, a: nat)
    requires Inv(s) && a in s.actors && (s.actors[a].Looker? || s.actors[a].Rejecter?)
    requires s' == AfterLook(s, a) || exists reason, now :: s' == AfterReject(s, a, reason, now)
    ensures Inv(s')
  {
    var pid := s.actors[a].pid;
    if pid in s.table.rows {
      assert RowOk(s, pid);
    }
    forall q | q in s'.winners
      ensures WinnerOk(s', q)
    {
      assert WinnerOk(s, q);
    }
    forall q | q in s'.table.rows
      ensures RowOk(s', q)
    {
      assert RowOk(s, q);
    }
    forall i | 0 <= i < |s'.orders|
      ensures OrderOk(s', i)
    {
      assert OrderOk(s, i);
    }
    forall b | b in s'.actors
      ensures ActorOk(s', b)
    {
      assert ActorOk(s, b);
    }
  }

  lemma StepKeepsInv(s: System, step: Step)
    requires Inv(s)
    ensures Inv(Next(s, step))
  {
    match step
    case Elsewhere(call) =>
      if Harmless(call) {
        ElsewhereKeepsInv(s, call);
      }
    case Look(a) =>
      if a in s.actors && s.actors[a].Looker? {
        RejecterKeepsInv(s, AfterLook(s, a), a);
      }
    case Reject(a, reason, now) =>
      if a in s.actors && s.actors[a].Rejecter? {
        RejecterKeepsInv(s, AfterReject(s, a, reason, now), a);
      }
    case _ =>
      if Approving(s, step.a) {
        ApproverKeepsInv(s, step, s.actors[step.a].phase);
      }
  }

  lemma {:induction false} ApproverKeepsInv(s: System, step: Step, phase: Phase)
    requires Inv(s) && !step.Elsewhere? && PhaseIs(s, step.a, phase)
    ensures Inv(NextOfApprover(s, step, phase))
  {
    match (phase, step)
    case (Reading, Read(a)) => ReadKeepsInv(s, a);
    case (Claiming(terms), Claim(a, now)) => ClaimKeepsInv(s, a, terms, now);
    case (Sizing(terms), Prepare(a, resolved, quote)) => PrepareKeepsInv(s, a, terms, resolved, quote);
    case (Condemning, Condemn(a, now)) => CondemnKeepsInv(s, a, now);
    case (Submitting(terms, q), Submit(a, fate)) => SubmitKeepsInv(s, a, terms, q, fate);
    case (Waiting(i), Receive(a, reply)) =>
      if i < |s.orders| && Truthful(s.orders[i].fate, reply) {
        ReceiveKeepsInv(s, a, i, reply);
      }
    case (Settling(i), Settle(a, now)) =>
      if i < |s.orders| && s.orders[i].reply.Some? && s.orders[i].reply.value.Success? {
        SettleKeepsInv(s, a, i, now);
      }
    case (Failing, Fail(a, now)) => FailKeepsInv(s, a, now);
    case _ =>
  }

  lemma {:induction false} RunKeepsInv(s: System, steps: seq<Step>)
    requires Inv(s)
    ensures Inv(Run(s, steps))
  {
    if steps != [] {
      RunKeepsInv(s, steps[..|steps| - 1]);
      StepKeepsInv(Run(s, steps[..|steps| - 1]), steps[|steps| - 1]);
    }
  }

  lemma ReachableInv(s: System)
    requires Reachable(s)
    ensures Inv(s)
  {
    var actors, steps :| Fresh(actors) && s == Run(Start(actors), steps);
    RunKeepsInv(Start(actors), steps);
  }

  // --------------------------------------------- what holds however actors interleave

  /** No two uses of the order RPC are for one proposal. */
  lemma AtMostOneOrder(s: System, i: nat, j: nat)
    requires Reachable(s) && i < |s.orders| && j < |s.orders|
    requires s.orders[i].pid == s.orders[j].pid
    ensures i == j
  {
    ReachableInv(s);
  }

  /** Where a reject won, nothing was ever sent and nothing will be, whatever steps follow. */
  lemma RejectedIsNeverSent(s: System, more: seq<Step>, pid: int)
    requires Reachable(s) && pid in s.rejections
    ensures pid in Run(s, more).rejections && Unsent(Run(s, more), pid) && StatusIs(Run(s, more), pid, Rejected)
  {
    ReachableInv(s);
    RunKeepsInv(s, more);
    RejectionsStay(s, more, pid);
    var t := Run(s, more);
    forall i | 0 <= i < |t.orders|
      ensures t.orders[i].pid != pid
    {
      assert OrderOk(t, i);
      assert WinnerOk(t, t.orders[i].pid);
    }
  }

  lemma {:induction false} RejectionsStay(s: System, more: seq<Step>, pid: int)
    requires pid in s.rejections
    ensures pid in Run(s, more).rejections
  {
    if more != [] {
      RejectionsStay(s, more[..|more| - 1], pid);
    }
  }

  /** A row is EXECUTED only if its one order is live at the broker and was confirmed, and it holds those order ids. */
  lemma ExecutedMeansConfirmed(s: System, pid: int)
    requires Reachable(s) && pid in s.table.rows && s.table.rows[pid].status == Executed
    ensures exists i :: 0 <= i < |s.orders| && s.orders[i].pid == pid
                        && s.orders[i].reply == Some(Success(s.table.rows[pid].orderIds))
                        && s.orders[i].fate == Live(s.table.rows[pid].orderIds)
  {
    ReachableInv(s);
    assert RowOk(s, pid);
    var i :| 0 <= i < |s.orders| && s.orders[i].pid == pid
             && s.orders[i].reply == Some(Success(s.table.rows[pid].orderIds));
    assert OrderOk(s, i);
  }

  /** A submission that timed out leaves its row APPROVED, for good: never FAILED, whatever steps follow. */
  lemma TimedOutStaysApproved(s: System, more: seq<Step>, i: nat)
    requires Reachable(s) && i < |s.orders| && s.orders[i].reply == Some(Timeout)
    ensures i < |Run(s, more).orders| && Run(s, more).orders[i] == s.orders[i]
    ensures StatusIs(Run(s, more), s.orders[i].pid, Approved)
  {
    ReachableInv(s);
    RunKeepsInv(s, more);
    AnswersStay(s, more, i);
    var t := Run(s, more);
    assert OrderOk(t, i);
    assert WinnerOk(t, t.orders[i].pid);
    assert ActorOk(t, t.orders[i].sender);
  }

  lemma {:induction false} AnswersStay(s: System, more: seq<Step>, i: nat)
    requires Inv(s) && i < |s.orders| && s.orders[i].reply.Some?
    ensures i < |Run(s, more).orders| && Run(s, more).orders[i] == s.orders[i]
  {
    if more != [] {
      AnswersStay(s, more[..|more| - 1], i);
      RunKeepsInv(s, more[..|more| - 1]);
      var t := Run(s, more[..|more| - 1]);
      assert forall a :: a in t.actors ==> ActorOk(t, a);
    }
  }

  /** Once its approver has returned, a proposal for which an order was sent has the status that the reply decides,
      whatever became of the order: FAILED if and only if the reply was a refusal, a connection error or an
      unexpected exception. */
  lemma RowsFollowReplies(s: System, i: nat)
    requires Reachable(s) && i < |s.orders| && s.orders[i].pid in s.table.rows
    requires PhaseIsDone(s, s.orders[i].sender)
    ensures s.orders[i].reply.Some?
    ensures var reply, status := s.orders[i].reply.value, s.table.rows[s.orders[i].pid].status;
            && (status == Failed <==> Condemns(reply))
            && (status == Executed <==> reply.Success?)
            && (status == Approved <==> reply.Timeout?)
  {
    ReachableInv(s);
    assert OrderOk(s, i);
    assert ActorOk(s, s.orders[i].sender);
  }

  /** A FAILED row should have no order working. One is live all the same only after such a reply. */
  lemma FailedHidesAnOrderOnlyAfter(s: System, pid: int, i: nat)
    requires Reachable(s) && pid in s.table.rows && s.table.rows[pid].status == Failed
    requires i < |s.orders| && s.orders[i].pid == pid
    ensures s.orders[i].reply.Some? && Condemns(s.orders[i].reply.value)
  {
    ReachableInv(s);
    assert RowOk(s, pid);
    assert OrderOk(s, i);
  }

  /** And each of these replies does bring it about: one approver, one order, live at the broker, on a FAILED row. */
  lemma CondemningRepliesHideOrders(p: Proposal, quantity: real, ids: seq<int>, reply: Reply) returns (s: System)
    requires p.status == Pending && p.terms.quantity == Some(quantity) && quantity > 0.0 && Condemns(reply)
    ensures Reachable(s) && 1 in s.table.rows && s.table.rows[1] == Encode(p, 0).(status := Failed, updatedAt := 2)
    ensures |s.orders| == 1 && s.orders[0].pid == 1 && s.orders[0].fate == Live(ids)
    ensures s.orders[0].terms == p.terms && s.orders[0].quantity == quantity && s.orders[0].reply == Some(reply)
  {
    hide Reachable, Encode;
    s := LoneApproverSubmits(p, quantity, ids);
    s := Extend(s, Receive(0, reply));
    assert s.table.rows[1] == Encode(p, 0).(status := Approved, updatedAt := 1);
    assert s.actors[0] == Approver(1, Failing) && s.orders[0].fate == Live(ids);
    s := Extend(s, Fail(0, 2));
  }

  // ------------------------------------------------------- an order that crosses zero

  /** How an order divides into the half that reduces what is held and the half that opens (order_split.py). */
  datatype Split = Split(reduce: real, open: real)

  predicate Reduces(action: string, held: real) {
    (action == "SELL" && held > 0.0) || (action == "BUY" && held < 0.0)
  }

  function SplitOrder(action: string, held: real, quantity: real): (r: Split)
    ensures r.reduce >= 0.0 && r.open >= 0.0 && (quantity >= 0.0 ==> r.reduce + r.open == quantity)
    ensures r.reduce > 0.0 ==> Reduces(action, held) && r.reduce <= if held < 0.0 then -held else held
    ensures quantity > 0.0 && Reduces(action, held) && r.open > 0.0 ==> r.reduce == if held < 0.0 then -held else held
  {
    var available := if held < 0.0 then -held else held;
    if quantity <= 0.0 then Split(0.0, 0.0)
    else if !Reduces(action, held) then Split(0.0, quantity)
    else if quantity <= available then Split(quantity, 0.0)
    else Split(available, quantity - available)
  }

  /** What the service did with an order and what it says about it. */
  datatype Answer = Answer(fate: Fate, reply: Reply)

  function Both(a: Fate, b: Fate): Fate {
    match (a, b)
    case (Live(x), Live(y)) => Live(x + y)
    case (Live(x), _) => a
    case _ => if b.Live? then b else a
  }

  /** The reduction goes first; the opening half is only tried once it was placed, and may be refused or raise. */
  function FlipSplit(reduction: Answer, opening: Answer): Answer {
    match reduction.reply
    case Success(_) =>
      (match opening.reply
       case Success(_) => Answer(Both(reduction.fate, opening.fate), Success(reduction.reply.ids + opening.reply.ids))
       case other => Answer(Both(reduction.fate, opening.fate), other))
    case _ => reduction
  }

  /** A split order keeps a success true, and hides its placed reduction exactly when the opening half condemns it. */
  lemma FlipSplitHidesItsReduction(reduction: Answer, opening: Answer)
    requires Truthful(reduction.fate, reduction.reply) && Truthful(opening.fate, opening.reply)
    ensures var whole := FlipSplit(reduction, opening);
            && Truthful(whole.fate, whole.reply)
            && (reduction.reply.Success? ==>
                  whole.fate.Live? && (Condemns(whole.reply) <==> Condemns(opening.reply)))
  {
  }

  /** Holding 3 and approving SELL 5: three shares are sold, two are refused, and the row says FAILED. */
  lemma FlipSplitEndsFailed(p: Proposal, sold: seq<int>) returns (s: System)
    requires p.status == Pending && p.terms.quantity == Some(5.0) && p.terms.action == "SELL"
    ensures SplitOrder("SELL", 3.0, 5.0) == Split(3.0, 2.0)
    ensures Reachable(s) && 1 in s.table.rows && s.table.rows[1].status == Failed && |s.orders| == 1
    ensures var o := s.orders[0];
            && o.pid == 1 && o.terms.action == "SELL" && o.quantity == 5.0 && o.reply.Some?
            && Answer(o.fate, o.reply.value) ==
                 FlipSplit(Answer(Live(sold), Success(sold)), Answer(TurnedDown, Refusal))
            && o.fate == Live(sold)
  {
    hide Reachable;
    s := CondemningRepliesHideOrders(p, 5.0, sold, Refusal);
  }

  // ------------------------------------------------------------------ runs of one approver

  lemma LoneApproverSubmits(p: Proposal, quantity: real, ids: seq<int>) returns (s: System)
    requires p.status == Pending && p.terms.quantity == Some(quantity) && quantity > 0.0
    ensures Reachable(s) && 1 in s.table.rows && s.table.rows[1] == Encode(p, 0).(status := Approved, updatedAt := 1)
    ensures PhaseIs(s, 0, Waiting(0)) && s.actors[0].pid == 1
    ensures s.orders == [Order(0, 1, p.terms, quantity, Live(ids), None)]
  {
    hide Reachable, Encode;
    s := LoneApproverClaims(p);
    s := Extend(s, Prepare(0, true, Unpriced));
    assert s.table.rows[1] == Encode(p, 0).(status := Approved, updatedAt := 1) && s.orders == [];
    assert PhaseIs(s, 0, Submitting(p.terms, quantity));
    s := Extend(s, Submit(0, Live(ids)));
  }

  lemma LoneApproverClaims(p: Proposal) returns (s: System)
    requires p.status == Pending
    ensures Reachable(s) && 1 in s.table.rows && s.orders == []
    ensures s.table.rows[1] == Encode(p, 0).(status := Approved, updatedAt := 1)
    ensures PhaseIs(s, 0, Sizing(p.terms)) && s.actors[0].pid == 1
  {
    var actors: map<nat, Actor> := map[0 := Approver(1, Reading)];
    s := Start(actors);
    assert Fresh(actors) && s == Run(Start(actors), []);
    s := Extend(s, Elsewhere(CallAdd(p, 0)));
    assert s.table.rows[1] == Encode(p, 0) && s.actors == actors && s.orders == [];
    s := Extend(s, Read(0));
    assert s.table.rows[1] == Encode(p, 0) && PhaseIs(s, 0, Claiming(p.terms)) && s.orders == [];
    s := Extend(s, Claim(0, 1));
  }

  lemma Extend(s: System, step: Step) returns (s': System)
    requires Reachable(s)
    ensures Reachable(s') && s' == Next(s, step)
  {
    var actors, steps :| Fresh(actors) && s == Run(Start(actors), steps);
    s' := Next(s, step);
    assert (steps + [step])[..|steps + [step]| - 1] == steps;
    assert s' == Run(Start(actors), steps + [step]);
  }

  /** Of all approvers of a proposal at most one is ever past the claim. */
  lemma OneWinner(s: System, a: nat, b: nat)
    requires Reachable(s)
    requires Approving(s, a) && Approving(s, b) && s.actors[a].pid == s.actors[b].pid
    requires Holding(s.actors[a].phase) || Returned(s.actors[a].phase)
    requires Holding(s.actors[b].phase) || Returned(s.actors[b].phase)
    ensures a == b
  {
    ReachableInv(s);
    assert ActorOk(s, a) && ActorOk(s, b);
  }

  /** Every order asks for what its row asks for: the row's own quantity if it has one, and always a positive one. */
  lemma OrdersMatchTheirRows(s: System, i: nat)
    requires Reachable(s) && i < |s.orders|
    ensures Sound(s.orders[i].terms, s.orders[i].quantity)
    ensures s.orders[i].pid in s.table.rows ==> s.table.rows[s.orders[i].pid].terms == s.orders[i].terms
  {
    ReachableInv(s);
    assert OrderOk(s, i);
  }

  /** What the callers are told is so: a success names an EXECUTED row and its order ids, a timeout an APPROVED
      one, and a `true` from reject a row that is REJECTED (each unless the row has since been deleted). */
  lemma VerdictsAreTrue(s: System, a: nat)
    requires Reachable(s) && a in s.actors
    ensures match s.actors[a]
            case Approver(pid, Done(Placed(ids))) =>
              pid in s.table.rows ==> s.table.rows[pid].status == Executed && s.table.rows[pid].orderIds == ids
            case Approver(pid, Done(Unknown)) => StatusIs(s, pid, Approved)
            case Finished(pid, true) => pid in s.rejections && StatusIs(s, pid, Rejected) && Unsent(s, pid)
            case _ => true
  {
    ReachableInv(s);
    assert ActorOk(s, a);
    if s.actors[a].Finished? && s.actors[a].rejected {
      RejectedIsNeverSent(s, [], s.actors[a].pid);
    }
  }
}
