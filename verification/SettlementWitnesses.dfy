/**
 Why each premise of the settlement guarantees is there: for every order of the
 right kind, a run in which one missing guard breaks the guarantee.
 */
module SettlementWitnesses {
  import opened Basics
  import opened Orders
  import opened Settlement
  import opened SettlementSafety
  import opened SettlementGuarded
  import opened SettlementTheorems

  lemma Extend(o: Order, acts: seq<Action>, a: Action) returns (more: seq<Action>)
    ensures more == acts + [a] && Run(Created(o), more) == Apply(Run(Created(o), acts), a)
  {
    more := acts + [a];
    RunExtends(Created(o), acts, a);
  }

  /** Payment calls and steps of threads, nothing else. */
  ghost predicate Plain(acts: seq<Action>) {
    forall j :: 0 <= j < |acts| ==> acts[j].Step? || acts[j].PaidCall?
  }

  lemma ApartExtends(o: Order, acts: seq<Action>, a: Action)
    requires CallsApart(o, acts) && !(a.PaidCall? && CallOpen(Run(Created(o), acts)))
    ensures CallsApart(o, acts + [a])
  {
    var more := acts + [a];
    forall k | 0 <= k < |more|
      ensures !(more[k].PaidCall? && CallOpen(Run(Created(o), more[..k])))
    {
      assert more[..k] == acts[..k];
      if k == |acts| {
        assert acts[..k] == acts;
      }
    }
  }

  lemma ChargeAccepted(c: Cell, f: Fulfillment)
    requires c.jobs == [Charging] && Owed(c.doc)
    ensures var d := Apply(c, Step(0, Good, f));
            && d.jobs == [Dispatching(true, false)] && d.charges == c.charges + 1 && d.credits == c.credits
            && d.awards == c.awards && d.held == c.held && d.doc.status == c.doc.status && SameTerms(c.doc, d.doc)
            && Reversible(d.doc) && d.anomalies == c.anomalies
  {
  }

  /** A charged placement about to dispatch. */
  lemma Charged(o: Order) returns (acts: seq<Action>)
    requires Owed(o)
    ensures var c := Run(Created(o), acts);
            && c.jobs == [Dispatching(true, false)] && c.charges == 1 && c.credits == 0 && c.awards == 0 && c.held == 0
            && c.doc.status == Pending && SameTerms(o, c.doc) && Reversible(c.doc) && c.anomalies == Created(o).anomalies
  {
    assert Run(Created(o), []) == Created(o);
    ChargeAccepted(Created(o), o.fulfillment);
    acts := Extend(o, [], Step(0, Good, o.fulfillment));
  }

  lemma CardClaimed(c: Cell, f: Fulfillment)
    requires |c.jobs| == 1 && c.jobs[0] == Dispatching(true, false) && Route(c.doc.items) == BridgePath
    ensures var d := Apply(c, Step(0, Claimed(1), f));
            d.jobs == [Parking(true, false, true)] && d.doc == c.doc && d.credits == c.credits && d.charges == c.charges
  {
  }

  /** Parking puts an order into processing, whatever it was. */
  lemma ParkMoves(c: Cell, i: nat, f: Fulfillment)
    requires i < |c.jobs| && c.jobs[i].Parking?
    ensures var d := Apply(c, Step(i, Good, f));
            var j := c.jobs[i];
            && d.jobs == c.jobs[i := if j.sends then Sending(j.charged, j.paid) else Returned(Success, j.paid)]
            && d.doc == SetFulfillment(c.doc, Processing, f)
            && d.credits == c.credits && d.charges == c.charges && d.awards == c.awards
            && (c.anomalies.overwrote || (j.paid && c.doc.status != Processing) ==> d.anomalies.overwrote)
  {
  }

  /** A bridge order parked, its command about to be sent. */
  lemma Parked(o: Order) returns (acts: seq<Action>)
    requires Owed(o) && Route(o.items) == BridgePath
    ensures var c := Run(Created(o), acts);
            && c.jobs == [Sending(true, false)] && c.doc.status == Processing && c.credits == 0 && c.charges == 1
            && Reversible(c.doc)
  {
    acts := Charged(o);
    CardClaimed(Run(Created(o), acts), o.fulfillment);
    acts := Extend(o, acts, Step(0, Claimed(1), o.fulfillment));
    ParkMoves(Run(Created(o), acts), 0, o.fulfillment);
    acts := Extend(o, acts, Step(0, Good, o.fulfillment));
  }

  /** A refund that wins leaves the order refunded, with a thread to pay it out. */
  lemma RefundWins(c: Cell)
    requires c.doc.status == Processing || c.doc.status == Completed
    ensures var d := Apply(c, AdminRefund(""));
            && d.jobs == c.jobs + [Crediting(c.doc)] && d.doc.status == Refunded
            && SameTerms(c.doc, d.doc) && d.doc.paymentRef == c.doc.paymentRef
            && d.credits == c.credits && d.charges == c.charges && d.awards == c.awards
  {
  }

  lemma PaysBack(c: Cell, i: nat, f: Fulfillment)
    requires i < |c.jobs| && c.jobs[i].Crediting? && Reversible(c.jobs[i].before)
    ensures var d := Apply(c, Step(i, Good, f));
            && d.jobs == c.jobs[i := Returned(Success, false)] && d.doc == c.doc
            && d.credits == c.credits + 1 && d.charges == c.charges && d.awards == c.awards
  {
  }

  lemma RefundFails(c: Cell, i: nat, f: Fulfillment)
    requires i < |c.jobs| && c.jobs[i].Crediting? && Reversible(c.jobs[i].before)
    ensures var d := Apply(c, Step(i, Bad, f));
            d.jobs == c.jobs[i := Reverting(c.jobs[i].before)] && d.doc == c.doc && d.credits == c.credits
  {
  }

  lemma RefundedWhileSending(o: Order) returns (acts: seq<Action>)
    requires Owed(o) && Route(o.items) == BridgePath
    ensures var c := Run(Created(o), acts);
            && c.jobs == [Sending(true, false), Returned(Success, false)]
            && c.doc.status == Refunded && c.credits == 1 && c.charges == 1
  {
    acts := Parked(o);
    RefundWins(Run(Created(o), acts));
    acts := Extend(o, acts, AdminRefund(""));
    PaysBack(Run(Created(o), acts), 1, o.fulfillment);
    acts := Extend(o, acts, Step(1, Good, o.fulfillment));
  }

  /** Once its command is refused, a charged placement goes on to credit, whatever happened to the order. */
  lemma RecallCredits(c: Cell, f: Fulfillment)
    requires |c.jobs| > 0 && c.jobs[0] == Sending(true, false)
    ensures var d := Apply(Apply(Apply(c, Step(0, Bad, f)), Step(0, Good, f)), Step(0, Good, f));
            && d.jobs == c.jobs[0 := Withdrawing]
            && d.credits == c.credits + 1 && d.charges == c.charges && (c.doc.status != Processing ==> d.anomalies.late)
  {
    assert Apply(c, Step(0, Bad, f)).jobs == c.jobs[0 := Recalling(true)];
    assert Apply(Apply(c, Step(0, Bad, f)), Step(0, Good, f)).jobs == c.jobs[0 := Repaying];
  }

  /** A refund between the park and the refused command is followed by a second credit. */
  lemma LateRecallCreditsTwice(o: Order) returns (acts: seq<Action>)
    requires Owed(o) && Route(o.items) == BridgePath
    ensures var c := Run(Created(o), acts);
            && c.charges == 1 && c.credits == 2 && c.anomalies.late
            && c.jobs == [Withdrawing, Returned(Success, false)]
  {
    acts := RefundedWhileSending(o);
    RecallCredits(Run(Created(o), acts), o.fulfillment);
    acts := Extend(o, acts, Step(0, Bad, o.fulfillment));
    acts := Extend(o, acts, Step(0, Good, o.fulfillment));
    acts := Extend(o, acts, Step(0, Good, o.fulfillment));
  }

  lemma RecallEnds(c: Cell, f: Fulfillment)
    requires c.jobs == [Withdrawing, Returned(Success, false)]
    ensures var d := Apply(c, Step(0, Good, f));
            Quiet(d) && d.doc.status == Failed && d.charges == c.charges && d.credits == c.credits
  {
    assert Apply(c, Step(0, Good, f)).jobs == c.jobs[0 := Returned(Failure, false)];
  }

  /** The same run comes to rest failed, with two credits for its one charge. */
  lemma LateRecallAtRest(o: Order) returns (acts: seq<Action>)
    requires Owed(o) && Route(o.items) == BridgePath
    ensures var c := Run(Created(o), acts);
            Quiet(c) && c.doc.status == Failed && c.charges == 1 && c.credits == 2
  {
    acts := LateRecallCreditsTwice(o);
    RecallEnds(Run(Created(o), acts), o.fulfillment);
    acts := Extend(o, acts, Step(0, Good, o.fulfillment));
  }

  lemma RecallFails(c: Cell, f: Fulfillment)
    requires |c.jobs| > 0 && c.jobs[0] == Repaying
    ensures var d := Apply(Apply(c, Step(0, Good, f)), Step(0, Good, f));
            d.doc.status == Failed && d.jobs == c.jobs[0 := Returned(Failure, false)]
  {
    assert Apply(c, Step(0, Good, f)).jobs == c.jobs[0 := Withdrawing];
  }

  lemma RecallBegins(c: Cell, f: Fulfillment)
    requires |c.jobs| > 0 && c.jobs[0] == Sending(true, false)
    ensures Apply(Apply(c, Step(0, Bad, f)), Step(0, Good, f)).jobs == c.jobs[0 := Repaying]
  {
    assert Apply(c, Step(0, Bad, f)).jobs == c.jobs[0 := Recalling(true)];
  }

  lemma RevertingWhileSending(o: Order) returns (acts: seq<Action>)
    requires Owed(o) && Route(o.items) == BridgePath
    ensures var c := Run(Created(o), acts);
            |c.jobs| == 2 && c.jobs[0] == Sending(true, false) && c.jobs[1].Reverting?
  {
    acts := Parked(o);
    RefundWins(Run(Created(o), acts));
    acts := Extend(o, acts, AdminRefund(""));
    RefundFails(Run(Created(o), acts), 1, o.fulfillment);
    acts := Extend(o, acts, Step(1, Bad, o.fulfillment));
  }

  /** A refund of a parked order whose command is then refused finds it failed when it has to revert. */
  lemma LateRecallBlocksRevert(o: Order) returns (acts: seq<Action>)
    requires Owed(o) && Route(o.items) == BridgePath
    ensures var c := Run(Created(o), acts);
            |c.jobs| == 2 && c.jobs[1].Reverting? && c.doc.status == Failed
  {
    acts := RevertingWhileSending(o);
    RecallBegins(Run(Created(o), acts), o.fulfillment);
    acts := Extend(o, acts, Step(0, Bad, o.fulfillment));
    acts := Extend(o, acts, Step(0, Good, o.fulfillment));
    RecallFails(Run(Created(o), acts), o.fulfillment);
    acts := Extend(o, acts, Step(0, Good, o.fulfillment));
    acts := Extend(o, acts, Step(0, Good, o.fulfillment));
  }

  lemma CodesClaimed(c: Cell, n: nat, f: Fulfillment)
    requires |c.jobs| == 1 && c.jobs[0] == Dispatching(true, false) && Route(c.doc.items) == InventoryPath
    ensures var d := Apply(c, Step(0, Claimed(n), f));
            && d.jobs == [Delivering(false)] && d.doc == c.doc && d.held == c.held + n
            && d.credits == c.credits && d.charges == c.charges
  {
  }

  lemma FailedBeforeDelivery(c: Cell, f: Fulfillment)
    requires c.jobs == [Delivering(false)] && c.doc.status == Pending
    ensures var d := Apply(Apply(c, MarkFailed("")), Step(0, Good, f));
            && d.doc.status == Failed && d.jobs[..1] == [Returned(Failure, false)]
            && d.credits == c.credits && d.charges == c.charges && d.held == c.held && d.anomalies.lostDelivery
  {
    assert Apply(c, MarkFailed("")).jobs[0] == Delivering(false);
  }

  /** An order marked failed while its codes are being delivered keeps the charge and the codes. */
  lemma FailedDuringDelivery(o: Order, n: nat) returns (acts: seq<Action>)
    requires Owed(o) && Route(o.items) == InventoryPath
    ensures var c := Run(Created(o), acts);
            && c.doc.status == Failed && c.jobs[..1] == [Returned(Failure, false)]
            && c.charges == 1 && c.credits == 0 && c.held == n && c.anomalies.lostDelivery
  {
    acts := Charged(o);
    CodesClaimed(Run(Created(o), acts), n, o.fulfillment);
    acts := Extend(o, acts, Step(0, Claimed(n), o.fulfillment));
    FailedBeforeDelivery(Run(Created(o), acts), o.fulfillment);
    acts := Extend(o, acts, MarkFailed(""));
    acts := Extend(o, acts, Step(0, Good, o.fulfillment));
  }

  lemma IntentReturned(o: Order) returns (acts: seq<Action>)
    requires PaysLater(o)
    ensures Run(Created(o), acts) == Created(o).(jobs := [Returned(Success, false)])
    ensures Plain(acts) && CallsApart(o, acts)
  {
    acts := Extend(o, [], Step(0, Good, o.fulfillment));
    assert Run(Created(o), []) == Created(o);
  }

  lemma PaymentClaims(c: Cell)
    requires AwaitsPayment(c) && c.doc.status == Pending
    ensures var d := Apply(c, PaidCall("tx"));
            && d.jobs == c.jobs + [Dispatching(false, true)] && d.dispatcher == Some(|c.jobs|)
            && d.doc.status == Processing && SameTerms(c.doc, d.doc) && Reversible(d.doc) && d.credits == c.credits
            && d.awards == c.awards && d.dispatches == c.dispatches && (!Recall(c.jobs[0]) ==> d.anomalies == c.anomalies)
  {
  }

  /** A confirmed payment's dispatch in progress. */
  lemma Dispatched(o: Order) returns (acts: seq<Action>)
    requires PaysLater(o)
    ensures var c := Run(Created(o), acts);
            && c.jobs == [Returned(Success, false), Dispatching(false, true)] && c.doc.status == Processing
            && c.awards == 0 && c.dispatches == 0 && c.credits == 0 && SameTerms(o, c.doc) && Reversible(c.doc)
            && c.dispatcher == Some(1) && c.anomalies == Created(o).anomalies
    ensures Plain(acts) && CallsApart(o, acts)
  {
    acts := IntentReturned(o);
    ApartExtends(o, acts, PaidCall("tx"));
    PaymentClaims(Run(Created(o), acts));
    acts := Extend(o, acts, PaidCall("tx"));
  }

  lemma HandCompletes(c: Cell)
    requires c.doc.status == Processing
    ensures var d := Apply(c, Complete(NoExtra));
            d.jobs == c.jobs + [Rewarding(false)] && d.doc.status == Completed && d.awards == c.awards
  {
  }

  lemma Rewards(c: Cell, i: nat, f: Fulfillment)
    requires i < |c.jobs| && c.jobs[i].Rewarding?
    ensures var d := Apply(c, Step(i, Good, f));
            d.jobs == c.jobs[i := Returned(Success, c.jobs[i].paid)] && d.doc == c.doc && d.awards == c.awards + 1
  {
  }

  /** Off the code paths a payment's dispatch can be about to park. */
  lemma GoesToPark(c: Cell, i: nat, f: Fulfillment)
    requires i < |c.jobs| && c.jobs[i] == Dispatching(false, true) && !CodePath(Route(c.doc.items))
    ensures var d := Apply(c, Step(i, Parks, f));
            && d.jobs == c.jobs[i := Parking(false, true, false)] && d.doc == c.doc
            && d.credits == c.credits && d.awards == c.awards && d.anomalies == c.anomalies
  {
  }

  /** A confirmed payment's dispatch about to park its order. */
  lemma AboutToPark(o: Order) returns (acts: seq<Action>)
    requires PaysLater(o) && !CodePath(Route(o.items))
    ensures var c := Run(Created(o), acts);
            && c.jobs == [Returned(Success, false), Parking(false, true, false)] && c.doc.status == Processing
            && c.awards == 0 && c.credits == 0 && Reversible(c.doc)
    ensures Plain(acts)
  {
    acts := Dispatched(o);
    GoesToPark(Run(Created(o), acts), 1, o.fulfillment);
    acts := Extend(o, acts, Step(1, Parks, o.fulfillment));
  }

  /** A manual completion before the park is overwritten: an awarded order is processing again. */
  lemma ParkReopens(o: Order) returns (acts: seq<Action>)
    requires PaysLater(o) && !CodePath(Route(o.items))
    ensures var c := Run(Created(o), acts);
            |c.jobs| == 3 && c.awards == 1 && c.doc.status == Processing && c.anomalies.overwrote
  {
    acts := AboutToPark(o);
    HandCompletes(Run(Created(o), acts));
    acts := Extend(o, acts, Complete(NoExtra));
    Rewards(Run(Created(o), acts), 2, o.fulfillment);
    acts := Extend(o, acts, Step(2, Good, o.fulfillment));
    ParkMoves(Run(Created(o), acts), 1, o.fulfillment);
    acts := Extend(o, acts, Step(1, Good, o.fulfillment));
  }

  /** Completed by hand once more, it is awarded twice. */
  lemma OverwrittenAwardsTwice(o: Order) returns (acts: seq<Action>)
    requires PaysLater(o) && !CodePath(Route(o.items))
    ensures Run(Created(o), acts).awards == 2
  {
    acts := ParkReopens(o);
    HandCompletes(Run(Created(o), acts));
    acts := Extend(o, acts, Complete(NoExtra));
    Rewards(Run(Created(o), acts), 3, o.fulfillment);
    acts := Extend(o, acts, Step(3, Good, o.fulfillment));
  }

  /** A refund before the park is overwritten, and can be made again. */
  lemma OverwrittenCreditsTwice(o: Order) returns (acts: seq<Action>)
    requires PaysLater(o) && !CodePath(Route(o.items))
    ensures Run(Created(o), acts).credits == 2
  {
    acts := AboutToPark(o);
    RefundWins(Run(Created(o), acts));
    acts := Extend(o, acts, AdminRefund(""));
    PaysBack(Run(Created(o), acts), 2, o.fulfillment);
    acts := Extend(o, acts, Step(2, Good, o.fulfillment));
    ParkMoves(Run(Created(o), acts), 1, o.fulfillment);
    acts := Extend(o, acts, Step(1, Good, o.fulfillment));
    RefundWins(Run(Created(o), acts));
    acts := Extend(o, acts, AdminRefund(""));
    PaysBack(Run(Created(o), acts), 3, o.fulfillment);
    acts := Extend(o, acts, Step(3, Good, o.fulfillment));
  }

  /** A refund whose money could not be returned finds its order parked again. */
  lemma ParkBlocksRevert(o: Order) returns (acts: seq<Action>)
    requires PaysLater(o) && !CodePath(Route(o.items))
    ensures var c := Run(Created(o), acts);
            |c.jobs| == 3 && c.jobs[2].Reverting? && c.doc.status == Processing
  {
    acts := AboutToPark(o);
    RefundWins(Run(Created(o), acts));
    acts := Extend(o, acts, AdminRefund(""));
    RefundFails(Run(Created(o), acts), 2, o.fulfillment);
    acts := Extend(o, acts, Step(2, Bad, o.fulfillment));
    ParkMoves(Run(Created(o), acts), 1, o.fulfillment);
    acts := Extend(o, acts, Step(1, Good, o.fulfillment));
  }

  /** A call on an order another call is dispatching answers success from the status it reads. */
  lemma AnswersWhileBusy(c: Cell, k: nat, f: Fulfillment)
    requires AwaitsPayment(c) && c.doc.status == Processing && k < |c.jobs| && PaidDispatch(c.jobs[k])
    ensures var d := Apply(Apply(c, PaidCall("tx")), Step(|c.jobs|, Good, f));
            d.jobs == c.jobs + [Returned(Success, true)] && d.doc == c.doc && d.anomalies.overlapped
  {
    var m := Spawn(c, Rereading);
    assert Apply(c, PaidCall("tx")) == m;
    assert m.jobs[k] == c.jobs[k] && m.jobs[|c.jobs|] == Rereading;
    assert m.jobs[|c.jobs| := Returned(Success, true)] == c.jobs + [Returned(Success, true)];
  }

  lemma AnsweredEarly(o: Order) returns (acts: seq<Action>)
    requires PaysLater(o)
    ensures var c := Run(Created(o), acts);
            && |c.jobs| == 3 && c.jobs[1] == Dispatching(false, true) && c.jobs[2] == Returned(Success, true)
            && c.doc.items == o.items && c.anomalies.overlapped
  {
    acts := Dispatched(o);
    AnswersWhileBusy(Run(Created(o), acts), 1, o.fulfillment);
    acts := Extend(o, acts, PaidCall("tx"));
    acts := Extend(o, acts, Step(2, Good, o.fulfillment));
  }

  /** How a dispatch fails: the supplier rejects, or the claim falls short. */
  function FailsBy(p: Path): Outcome {
    if p == ApiPath then Rejects else Short(0)
  }

  /** A payment dispatch that fails goes on to compensate. */
  lemma FailedDispatch(c: Cell, i: nat, f: Fulfillment)
    requires i < |c.jobs| && c.jobs[i] == Dispatching(false, true) && Route(c.doc.items) != ManualPath
    ensures var d := Apply(c, Step(i, FailsBy(Route(c.doc.items)), f));
            d.jobs == c.jobs[i := Releasing(false, true)] && d.anomalies == c.anomalies && d.doc == c.doc
  {
  }

  lemma RefundedWhileReleasing(o: Order) returns (acts: seq<Action>)
    requires PaysLater(o) && CodePath(Route(o.items))
    ensures var c := Run(Created(o), acts);
            |c.jobs| == 3 && c.jobs[1] == Releasing(false, true) && c.jobs[2].Crediting? && Reversible(c.jobs[2].before)
  {
    acts := Dispatched(o);
    FailedDispatch(Run(Created(o), acts), 1, o.fulfillment);
    acts := Extend(o, acts, Step(1, FailsBy(Route(o.items)), o.fulfillment));
    RefundWins(Run(Created(o), acts));
    acts := Extend(o, acts, AdminRefund(""));
  }

  /** A failing dispatch fails its order even over a refund, whose revert then finds it failed. */
  lemma FailBlocksRevert(o: Order) returns (acts: seq<Action>)
    requires PaysLater(o) && CodePath(Route(o.items))
    ensures var c := Run(Created(o), acts);
            |c.jobs| == 3 && c.jobs[2].Reverting? && c.doc.status == Failed
  {
    acts := RefundedWhileReleasing(o);
    RefundFails(Run(Created(o), acts), 2, o.fulfillment);
    acts := Extend(o, acts, Step(2, Bad, o.fulfillment));
    UnpaidCompensation(Run(Created(o), acts), 1, o.fulfillment);
    acts := Extend(o, acts, Step(1, Good, o.fulfillment));
    acts := Extend(o, acts, Step(1, Good, o.fulfillment));
  }

  lemma UnpaidCompensation(c: Cell, i: nat, f: Fulfillment)
    requires i < |c.jobs| && c.jobs[i] == Releasing(false, true)
    ensures var d := Apply(Apply(c, Step(i, Good, f)), Step(i, Good, f));
            && d.jobs == c.jobs[i := Returned(NotPayable, true)] && d.doc.status == Failed
            && d.anomalies.overlapped == c.anomalies.overlapped
  {
    assert Apply(c, Step(i, Good, f)).jobs == c.jobs[i := Failing(true)];
  }

  /** Two overlapping payment calls can answer differently for one order. */
  lemma OverlapSplitsVerdicts(o: Order) returns (acts: seq<Action>)
    requires PaysLater(o) && Route(o.items) != ManualPath
    ensures var c := Run(Created(o), acts);
            && |c.jobs| == 3 && c.jobs[1] == Returned(NotPayable, true) && c.jobs[2] == Returned(Success, true)
            && c.anomalies.overlapped
  {
    acts := AnsweredEarly(o);
    FailedDispatch(Run(Created(o), acts), 1, o.fulfillment);
    acts := Extend(o, acts, Step(1, FailsBy(Route(o.items)), o.fulfillment));
    UnpaidCompensation(Run(Created(o), acts), 1, o.fulfillment);
    acts := Extend(o, acts, Step(1, Good, o.fulfillment));
    acts := Extend(o, acts, Step(1, Good, o.fulfillment));
  }

  lemma GoesToDeliver(c: Cell, i: nat, f: Fulfillment)
    requires i < |c.jobs| && c.jobs[i] == Dispatching(false, true) && CodePath(Route(c.doc.items))
    ensures var d := Apply(c, Step(i, Claimed(0), f));
            d.jobs == c.jobs[i := Delivering(true)] && d.doc == c.doc && d.anomalies == c.anomalies
  {
  }

  /** Codes ready for an order that someone moved are refused by the guard, and the call answers not payable. */
  lemma DeliveryRefused(c: Cell, i: nat, f: Fulfillment)
    requires i < |c.jobs| && c.jobs[i] == Delivering(true) && (c.doc.status == Completed || c.doc.status == Refunded)
    ensures var d := Apply(c, Step(i, Good, f));
            d.jobs == c.jobs[i := Returned(NotPayable, true)] && d.doc == c.doc && d.anomalies.overwrote
            && d.anomalies.overlapped == c.anomalies.overlapped
  {
  }

  /** A refund, rejection or completion of a processing order takes it out of processing. */
  lemma MoveWins(c: Cell, a: Action)
    requires c.doc.status == Processing && (a.AdminRefund? || a.SupplierReject? || a.Complete?)
    ensures var d := Apply(c, a);
            && |d.jobs| == |c.jobs| + 1 && (forall k :: 0 <= k < |c.jobs| ==> d.jobs[k] == c.jobs[k])
            && d.doc.status == (if a.Complete? then Completed else Refunded)
            && d.anomalies.overlapped == c.anomalies.overlapped && SameTerms(c.doc, d.doc)
  {
  }

  /** A confirmed payment's codes about to be delivered. */
  lemma AboutToDeliver(o: Order) returns (acts: seq<Action>)
    requires PaysLater(o) && CodePath(Route(o.items))
    ensures var c := Run(Created(o), acts);
            c.jobs == [Returned(Success, false), Delivering(true)] && c.doc.status == Processing
            && !c.anomalies.overlapped
    ensures Plain(acts) && CallsApart(o, acts)
  {
    acts := Dispatched(o);
    ApartExtends(o, acts, Step(1, Claimed(0), o.fulfillment));
    GoesToDeliver(Run(Created(o), acts), 1, o.fulfillment);
    acts := Extend(o, acts, Step(1, Claimed(0), o.fulfillment));
  }
}
