/** What each step of approve and reject does, to the row, to the caller and to everybody else (trader/sdk.py). */
module ApprovalSteps {
  import opened Common
  import opened Proposals
  import opened Approvals

  /** Nobody but `a` is any further. */
  predicate OnlyActor(s: System, after: System, a: nat)
    requires a in s.actors
  {
    && after.actors.Keys == s.actors.Keys && after.actors[a].pid == s.actors[a].pid
    && forall b :: b in s.actors && b != a ==> after.actors[b] == s.actors[b]
  }

  predicate InStatus(t: Table, pid: int, status: Status) {
    pid in t.rows && t.rows[pid].status == status
  }

  /** Of the whole table only the status of one row changes, and the time of its change. */
  predicate OnlyStatus(t: Table, after: Table, pid: int, status: Status, now: int) {
    pid in t.rows && OnlyRow(t, after, pid) && after.rows[pid] == t.rows[pid].(status := status, updatedAt := now)
  }

  // -------------------------------------------------------------------- reject

  /** The first half of a reject: a missing proposal is answered false at once. */
  lemma LookSays(s: System, a: nat)
    requires a in s.actors && s.actors[a].Looker?
    ensures var after := Next(s, Look(a));
            && OnlyActor(s, after, a) && after == s.(actors := after.actors)
            && (s.actors[a].pid in s.table.rows ==> after.actors[a] == Rejecter(s.actors[a].pid))
            && (s.actors[a].pid !in s.table.rows ==> after.actors[a] == Finished(s.actors[a].pid, false))
  {
  }

  /** The second half: it answers true if and only if the row is PENDING, and then the row is REJECTED with the reason
      given and the proposal counts as rejected; otherwise nothing changes. */
  lemma RejectSays(s: System, a: nat, reason: string, now: int)
    requires a in s.actors && s.actors[a].Rejecter?
    ensures var after, pid := Next(s, Reject(a, reason, now)), s.actors[a].pid;
            && OnlyActor(s, after, a) && after.orders == s.orders && after.winners == s.winners
            && after.actors[a].Finished?
            && (after.actors[a].rejected <==> InStatus(s.table, pid, Pending))
            && (after.actors[a].rejected ==>
                  && OnlyRow(s.table, after.table, pid) && InStatus(after.table, pid, Rejected)
                  && after.table.rows[pid] == s.table.rows[pid].(
                       status := Rejected, rejectionReason := reason, updatedAt := now)
                  && after.rejections == s.rejections + {pid})
            && (!after.actors[a].rejected ==> after.table == s.table && after.rejections == s.rejections)
  {
  }

  /** A proposal is added, and a lone rejecter finds and rejects it. */
  lemma LoneRejecterRejects(p: Proposal, reason: string) returns (s: System)
    requires p.status == Pending
    ensures Reachable(s) && InStatus(s.table, 1, Rejected) && s.table.rows[1].rejectionReason == reason
    ensures s.table.rows[1].terms == p.terms && 1 in s.rejections && s.actors == map[0 := Finished(1, true)]
  {
    s := LookerFindsRow(p);
    hide Reachable, Next, Encode;
    RejectSays(s, 0, reason, 1);
    s := Extend(s, Reject(0, reason, 1));
    assert s.actors == map[0 := Finished(1, true)];
  }

  lemma LookerFindsRow(p: Proposal) returns (s: System)
    requires p.status == Pending
    ensures Reachable(s) && InStatus(s.table, 1, Pending) && s.table.rows[1].terms == p.terms
    ensures s.actors == map[0 := Rejecter(1)]
  {
    hide Reachable;
    var actors: map<nat, Actor> := map[0 := Looker(1)];
    s := Begin(actors);
    s := Extend(s, Elsewhere(CallAdd(p, 0)));
    assert s.table.rows[1] == Encode(p, 0) && s.actors == actors;
    hide Encode, Next;
    LookSays(s, 0);
    s := Extend(s, Look(0));
    assert s.actors == map[0 := Rejecter(1)];
  }

  lemma Begin(actors: map<nat, Actor>) returns (s: System)
    requires Fresh(actors)
    ensures s == Start(actors) && Reachable(s)
  {
    s := Start(actors);
    assert s == Run(Start(actors), []);
  }

  // ------------------------------------------------------------------- approve

  /** What is read: no row, a row that is not PENDING, or the row's own terms. */
  lemma ReadSays(s: System, a: nat)
    requires PhaseIs(s, a, Reading)
    ensures var after, pid := Next(s, Read(a)), s.actors[a].pid;
            && OnlyActor(s, after, a) && after == s.(actors := after.actors) && after.actors[a].Approver?
            && var phase := after.actors[a].phase;
              && (phase == Done(Missing) <==> pid !in s.table.rows)
              && (phase == Done(NotPending) <==> pid in s.table.rows && !InStatus(s.table, pid, Pending))
              && (InStatus(s.table, pid, Pending) ==> phase == Claiming(s.table.rows[pid].terms))
  {
  }

  /** The claim goes to whoever finds the row PENDING; anyone else is told so and changes nothing. */
  lemma ClaimSays(s: System, a: nat, terms: Terms, now: int)
    requires PhaseIs(s, a, Claiming(terms))
    ensures var after, pid := Next(s, Claim(a, now)), s.actors[a].pid;
            && OnlyActor(s, after, a) && after.orders == s.orders && after.rejections == s.rejections
            && (if InStatus(s.table, pid, Pending) then
                  && OnlyStatus(s.table, after.table, pid, Approved, now)
                  && after.winners == s.winners[pid := a] && PhaseIs(after, a, Sizing(terms))
                else
                  && after.table == s.table && after.winners == s.winners && PhaseIs(after, a, Done(LostTheRace)))
  {
  }

  /** How many shares are asked for, if any: the row's own quantity, or what its amount buys at the price found. */
  predicate AsksFor(terms: Terms, quote: Quote, quantity: real) {
    quantity > 0.0
    && if terms.quantity.Some? then quantity == terms.quantity.value
       else terms.amount.Some? && quote.Shares? && quantity == quote.count as real
  }

  /** An order is prepared exactly if the contract is resolved and there is a positive quantity to ask for. */
  lemma PrepareSays(s: System, a: nat, terms: Terms, resolved: bool, quote: Quote)
    requires PhaseIs(s, a, Sizing(terms))
    ensures var after := Next(s, Prepare(a, resolved, quote));
            && OnlyActor(s, after, a) && after == s.(actors := after.actors) && after.actors[a].Approver?
            && var phase := after.actors[a].phase;
              && (phase.Submitting? <==> resolved && exists q :: AsksFor(terms, quote, q))
              && (phase.Submitting? ==> phase.terms == terms && AsksFor(terms, quote, phase.quantity))
              && (phase == Condemning || phase == Failing || phase.Submitting?)
              && (phase == Condemning ==> resolved)
  {
    if resolved && Size(terms, quote).Ready? {
      assert AsksFor(terms, quote, Size(terms, quote).quantity);
    }
  }

  /** Without a price or a quantity the row is set to FAILED if it is still APPROVED. */
  lemma CondemnSays(s: System, a: nat, now: int)
    requires PhaseIs(s, a, Condemning)
    ensures var after, pid := Next(s, Condemn(a, now)), s.actors[a].pid;
            && OnlyActor(s, after, a)
            && after.orders == s.orders && after.winners == s.winners && after.rejections == s.rejections
            && (InStatus(s.table, pid, Approved) || InStatus(s.table, pid, Pending) ==>
                  OnlyStatus(s.table, after.table, pid, Failed, now) && PhaseIs(after, a, Done(Failure)))
            && (!InStatus(s.table, pid, Approved) && !InStatus(s.table, pid, Pending) ==>
                  after.table == s.table && PhaseIs(after, a, Failing))
  {
  }

  /** One order leaves, with the row's terms and the quantity prepared, and the approver waits for its reply. */
  lemma SubmitSays(s: System, a: nat, terms: Terms, quantity: real, fate: Fate)
    requires PhaseIs(s, a, Submitting(terms, quantity))
    ensures var after := Next(s, Submit(a, fate));
            && OnlyActor(s, after, a) && PhaseIs(after, a, Waiting(|s.orders|))
            && after.table == s.table && after.winners == s.winners && after.rejections == s.rejections
            && |after.orders| == |s.orders| + 1 && after.orders[..|s.orders|] == s.orders
            && var o := after.orders[|s.orders|];
              && o.sender == a && o.pid == s.actors[a].pid && o.terms == terms && o.quantity == quantity
              && o.fate == fate && o.reply.None?
  {
  }

  /** A true reply comes back and is kept: success is to be settled, a timeout ends it, all else is a failure. */
  lemma ReceiveSays(s: System, a: nat, i: nat, reply: Reply)
    requires PhaseIs(s, a, Waiting(i)) && i < |s.orders| && Truthful(s.orders[i].fate, reply)
    ensures var after := Next(s, Receive(a, reply));
            && OnlyActor(s, after, a) && after.table == s.table
            && after.winners == s.winners && after.rejections == s.rejections
            && |after.orders| == |s.orders| && after.orders[i] == s.orders[i].(reply := Some(reply))
            && (forall j :: 0 <= j < |s.orders| && j != i ==> after.orders[j] == s.orders[j])
            && (reply.Success? ==> PhaseIs(after, a, Settling(i)))
            && (reply.Timeout? ==> PhaseIs(after, a, Done(Unknown)))
            && (!reply.Success? && !reply.Timeout? ==> PhaseIs(after, a, Failing))
  {
  }

  /** A success makes an APPROVED row EXECUTED with the order ids of the reply, which is what the caller gets. */
  lemma SettleSays(s: System, a: nat, i: nat, ids: seq<int>, now: int)
    requires PhaseIs(s, a, Settling(i)) && i < |s.orders| && s.orders[i].reply == Some(Success(ids))
    ensures var after, pid := Next(s, Settle(a, now)), s.actors[a].pid;
            && OnlyActor(s, after, a) && PhaseIs(after, a, Done(Placed(ids)))
            && after.orders == s.orders && after.winners == s.winners && after.rejections == s.rejections
            && (InStatus(s.table, pid, Approved) ==>
                  && OnlyRow(s.table, after.table, pid)
                  && after.table.rows[pid] == s.table.rows[pid].(
                       status := Executed, orderIds := ids, updatedAt := now))
            && (!InStatus(s.table, pid, Approved) ==> after.table == s.table)
  {
  }

  /** A failure makes an APPROVED row FAILED. */
  lemma FailSays(s: System, a: nat, now: int)
    requires PhaseIs(s, a, Failing)
    ensures var after, pid := Next(s, Fail(a, now)), s.actors[a].pid;
            && OnlyActor(s, after, a) && PhaseIs(after, a, Done(Failure))
            && after.orders == s.orders && after.winners == s.winners && after.rejections == s.rejections
            && (InStatus(s.table, pid, Approved) ==> OnlyStatus(s.table, after.table, pid, Failed, now))
            && (!InStatus(s.table, pid, Approved) ==> after.table == s.table)
  {
  }

  /** In every reachable state an approver that has failed has left its row FAILED, unless it was deleted, and one that
      is to settle or to fail still finds it APPROVED: no reply is ever lost on a row that somebody else has moved. */
  lemma FailuresAreWritten(s: System, a: nat)
    requires Reachable(s) && Approving(s, a)
    ensures var phase, pid := s.actors[a].phase, s.actors[a].pid;
            && (phase == Done(Failure) ==> StatusIs(s, pid, Failed))
            && (phase.Settling? || phase.Failing? || phase.Condemning? ==> StatusIs(s, pid, Approved))
  {
    ReachableInv(s);
    assert ActorOk(s, a);
    var pid := s.actors[a].pid;
    if pid in s.winners {
      assert WinnerOk(s, pid);
    }
  }

  /** A proposal that an approver reads, claims, sends and settles: the row ends EXECUTED with the ids of the reply. */
  lemma LoneApproverExecutes(p: Proposal, quantity: real, ids: seq<int>) returns (s: System)
    requires p.status == Pending && p.terms.quantity == Some(quantity) && quantity > 0.0
    ensures Reachable(s) && InStatus(s.table, 1, Executed) && s.table.rows[1].orderIds == ids
    ensures PhaseIs(s, 0, Done(Placed(ids))) && |s.orders| == 1 && s.orders[0].quantity == quantity
  {
    hide Reachable, Encode;
    s := LoneApproverSubmits(p, quantity, ids);
    s := Extend(s, Receive(0, Success(ids)));
    assert s.table.rows[1].status == Approved && PhaseIs(s, 0, Settling(0)) && s.actors[0].pid == 1;
    assert |s.orders| == 1 && s.orders[0].quantity == quantity && s.orders[0].reply == Some(Success(ids));
    s := Extend(s, Settle(0, 2));
  }
}
