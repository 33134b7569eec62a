/**
 What payment calls answer, in every run with no premise on the other actors, for
 on-chain orders whose dispatch records no codes: their every failure goes
 through the compensation, which leaves the order failed and without codes.
 */
module SettlementVerdicts {
  import opened Basics
  import opened Orders
  import opened Settlement
  import opened SettlementSafety
  import opened SettlementGuarded

  /** The dispatcher is the remembered thread; answers given agree with the order. */
  predicate Answers(c: Cell, i: nat)
    requires i < |c.jobs|
  {
    var j := c.jobs[i];
    && (PaidDispatch(j) <==> c.dispatcher == Some(i))
    && !j.Delivering? && (PlacementOnly(j) ==> i == 0)
    && (i == 0 ==> j.Charging? || j.Closing? || (j.Returned? && !j.paid))
    && (PaymentOnly(j) ==> i > 0 && AwaitsPayment(c) && c.doc.status != Pending)
    && (j == Returned(NotPayable, true) ==> c.doc.status == Failed)
    && ((j == Returned(Success, true) && !c.anomalies.overlapped) || j == Rewarding(true) ==>
          c.doc.status != Failed && c.dispatcher.None?)
    && j != Returned(Failure, true) && FlagOk(c.doc, j)
    && (Refunding(j) ==> j.before.status != Pending && j.before.status != Failed)
  }

  /** A failed or pending order holds no codes and is being dispatched by nobody. */
  predicate Unserved(c: Cell) {
    && |c.jobs| > 0 && PaysLater(c.doc) && c.charges == 0
    && (c.doc.status == Pending || c.doc.status == Failed || Private(c.jobs[0]) ==> c.held == 0 && c.dispatcher.None?)
    && (c.doc.status == Pending || Private(c.jobs[0]) ==> c.dispatches == 0)
    && (Private(c.jobs[0]) ==> c.doc.status == Pending || c.doc.status == Failed)
    && (c.dispatcher.Some? ==>
          && c.dispatcher.value < |c.jobs| && PaidDispatch(c.jobs[c.dispatcher.value])
          && (c.jobs[c.dispatcher.value].Dispatching? ==> c.held == 0)
          && (c.jobs[c.dispatcher.value].Failing? ==> c.held == 0))
  }

  ghost predicate Agreed(c: Cell) {
    Unserved(c) && forall i :: 0 <= i < |c.jobs| ==> Answers(c, i)
  }

  /** What calls have been told stays true. */
  predicate Stand(c: Cell, d: Cell) {
    AwaitsPayment(c) && c.doc.status != Pending ==>
      && AwaitsPayment(d) && d.doc.status != Pending
      && (c.doc.status == Failed ==> d.doc.status == Failed)
      && (c.doc.status != Failed && c.dispatcher.None? ==> d.doc.status != Failed && d.dispatcher.None?)
  }

  predicate Agrees(c: Cell, d: Cell, i: nat) {
    && OneThread(c, d, i) && Stand(c, d) && Unserved(d) && Answers(d, i)
    && (PaidDispatch(d.jobs[i]) ==> c.dispatcher.None? || c.dispatcher == Some(i))
  }

  lemma AgreesKeeps(c: Cell, d: Cell, i: nat)
    requires Agreed(c) && Agrees(c, d, i)
    ensures Agreed(d)
  {
    forall k | 0 <= k < |d.jobs|
      ensures Answers(d, k)
    {
      if k != i {
        assert Answers(c, k);
      }
    }
  }

  /** Thread i is about to step. */
  predicate Turn(c: Cell, i: nat) {
    Unserved(c) && i < |c.jobs| && Answers(c, 0) && Answers(c, i)
  }

  // ----- each step of a thread -----

  lemma ChargeAgrees(c: Cell, i: nat, out: Outcome)
    requires Turn(c, i) && c.jobs[i] == Charging
    ensures Agrees(c, Charge(c, i, out), i)
  {
  }

  lemma CloseAgrees(c: Cell, i: nat)
    requires Turn(c, i) && c.jobs[i] == Closing
    ensures Agrees(c, Close(c, i), i)
  {
  }

  lemma DispatchAgrees(c: Cell, i: nat, charged: bool, paid: bool, out: Outcome)
    requires Turn(c, i) && c.jobs[i] == Dispatching(charged, paid) && !CodePath(Route(c.doc.items))
    ensures Dispatch(c, i, charged, paid, out) == c || Agrees(c, Dispatch(c, i, charged, paid, out), i)
  {
    var d := Dispatch(c, i, charged, paid, out);
    if d != c {
      var n := DispatchShape(c, i, charged, paid, out);
      NoDeliveryOffCodePaths(c, i, charged, paid, out);
      DispatchesIntoAgrees(c, i, charged, paid, n, d.jobs[i]);
    }
  }

  lemma NoDeliveryOffCodePaths(c: Cell, i: nat, charged: bool, paid: bool, out: Outcome)
    requires i < |c.jobs| && !CodePath(Route(c.doc.items)) && Dispatch(c, i, charged, paid, out) != c
    ensures !Dispatch(c, i, charged, paid, out).jobs[i].Delivering?
  {
  }

  lemma DispatchesIntoAgrees(c: Cell, i: nat, charged: bool, paid: bool, n: nat, j: Job)
    requires Turn(c, i) && c.jobs[i] == Dispatching(charged, paid)
    requires j == Finishing(paid) || j == Releasing(charged, paid)
             || j == Parking(charged, paid, true) || j == Parking(charged, paid, false)
    ensures Agrees(c, At(c.(dispatches := c.dispatches + 1, held := c.held + n), i, j), i)
  {
  }

  lemma ParkAgrees(c: Cell, i: nat, charged: bool, paid: bool, sends: bool, f: Fulfillment)
    requires Turn(c, i) && c.jobs[i] == Parking(charged, paid, sends)
    ensures Agrees(c, Park(c, i, charged, paid, sends, f), i)
  {
  }

  lemma SendAgrees(c: Cell, i: nat, charged: bool, paid: bool, out: Outcome)
    requires Turn(c, i) && c.jobs[i] == Sending(charged, paid)
    ensures Agrees(c, Send(c, i, charged, paid, out), i)
  {
  }

  lemma FinishAgrees(c: Cell, i: nat, paid: bool, f: Fulfillment)
    requires Turn(c, i) && c.jobs[i] == Finishing(paid)
    ensures Agrees(c, Finish(c, i, paid, f), i)
  {
  }

  lemma ReleaseAgrees(c: Cell, i: nat, charged: bool, paid: bool)
    requires Turn(c, i) && c.jobs[i] == Releasing(charged, paid)
    ensures Agrees(c, Release(c, i, charged, paid), i)
  {
  }

  lemma FailAgrees(c: Cell, i: nat, paid: bool)
    requires Turn(c, i) && c.jobs[i] == Failing(paid)
    ensures Agrees(c, Fail(c, i, paid), i)
  {
  }

  lemma RewardAgrees(c: Cell, i: nat, paid: bool)
    requires Turn(c, i) && c.jobs[i] == Rewarding(paid)
    ensures Agrees(c, Reward(c, i, paid), i)
  {
  }

  lemma CreditAgrees(c: Cell, i: nat, before: Order, out: Outcome)
    requires Turn(c, i) && c.jobs[i] == Crediting(before)
    ensures Agrees(c, Credit(c, i, before, out), i)
  {
  }

  lemma RevertAgrees(c: Cell, i: nat, before: Order)
    requires Turn(c, i) && c.jobs[i] == Reverting(before)
    ensures Agrees(c, Revert(c, i, before), i)
  {
  }

  lemma RereadAgrees(c: Cell, i: nat)
    requires Turn(c, i) && c.jobs[i] == Rereading
    ensures Agrees(c, Reread(c, i), i)
  {
  }

  // ----- each arrival -----

  lemma RefundArrivalAgrees(c: Cell, from: set<Status>, e: Event)
    requires Turn(c, 0) && from <= {Processing, Completed} && c.doc.status in from
    ensures Agrees(c, Win(c, from, Refunded, e, NoExtra, Crediting(c.doc)), |c.jobs|)
  {
  }

  lemma CompletionArrivalAgrees(c: Cell, e: Event, x: Extra)
    requires Turn(c, 0) && c.doc.status == Processing
    ensures Agrees(c, Win(c, {Processing}, Completed, e, x, Rewarding(false)), |c.jobs|)
  {
  }

  lemma SweepArrivalAgrees(c: Cell, e: Event)
    requires Turn(c, 0) && c.doc.status == Pending
    ensures Agrees(c, Win(c, {Pending}, Failed, e, NoExtra, Returned(Success, false)), |c.jobs|)
  {
  }

  lemma PaymentArrivalAgrees(c: Cell, e: Event, txRef: string)
    requires Turn(c, 0) && AwaitsPayment(c) && c.doc.status == Pending
    ensures Agrees(c, Win(c, {Pending}, Processing, e, PaidBy(txRef), Dispatching(false, true)), |c.jobs|)
  {
  }

  lemma LatePaymentArrivalAgrees(c: Cell)
    requires Turn(c, 0) && AwaitsPayment(c) && c.doc.status != Pending
    ensures Agrees(c, Spawn(c, Rereading), |c.jobs|)
  {
  }

  lemma RecordAgreed(c: Cell, doc: Order)
    requires Agreed(c) && SameTerms(c.doc, doc) && doc.status == c.doc.status
    ensures Agreed(c.(doc := doc))
  {
    forall k | 0 <= k < |c.jobs|
      ensures Answers(c.(doc := doc), k)
    {
      assert Answers(c, k);
    }
  }

  lemma PaidCallAgreed(c: Cell, txRef: string)
    requires Agreed(c)
    ensures Agreed(Apply(c, PaidCall(txRef)))
  {
    assert Answers(c, 0);
    if AwaitsPayment(c) {
      if c.doc.status == Pending {
        PaymentArrivalAgrees(c, Event("payment_confirmed", ""), txRef);
      } else {
        LatePaymentArrivalAgrees(c);
      }
      AgreesKeeps(c, Apply(c, PaidCall(txRef)), |c.jobs|);
    }
  }

  lemma MoveAgreed(c: Cell, a: Action)
    requires Agreed(c) && (a.AdminRefund? || a.SupplierReject? || a.Complete? || a.MarkFailed?)
    ensures Agreed(Apply(c, a))
  {
    assert Answers(c, 0);
    var d := Apply(c, a);
    if d != c {
      match a {
        case AdminRefund(reason) => RefundArrivalAgrees(c, {Processing, Completed}, Event("refunded", reason));
        case SupplierReject(reason) => RefundArrivalAgrees(c, {Processing}, Event("refunded", reason));
        case Complete(x) => CompletionArrivalAgrees(c, Event("completed", ""), x);
        case MarkFailed(reason) => SweepArrivalAgrees(c, Event("failed", reason));
      }
      AgreesKeeps(c, d, |c.jobs|);
    }
  }

  // ----- every run -----

  lemma DispatchingAgrees(c: Cell, i: nat, out: Outcome, f: Fulfillment)
    requires Turn(c, i) && !CodePath(Route(c.doc.items)) && PaidDispatch(c.jobs[i])
    ensures StepJob(c, i, out, f) == c || Agrees(c, StepJob(c, i, out, f), i)
  {
    match c.jobs[i]
    case Dispatching(charged, paid) => DispatchAgrees(c, i, charged, paid, out);
    case Parking(charged, paid, sends) => ParkAgrees(c, i, charged, paid, sends, f);
    case Sending(charged, paid) => SendAgrees(c, i, charged, paid, out);
    case Finishing(paid) => FinishAgrees(c, i, paid, f);
    case Releasing(charged, paid) => ReleaseAgrees(c, i, charged, paid);
    case Failing(paid) => FailAgrees(c, i, paid);
    case Delivering(_) =>
  }

  lemma AsideAgrees(c: Cell, i: nat, out: Outcome, f: Fulfillment)
    requires Turn(c, i) && !PaidDispatch(c.jobs[i])
    ensures StepJob(c, i, out, f) == c || Agrees(c, StepJob(c, i, out, f), i)
  {
    match c.jobs[i]
    case Charging => ChargeAgrees(c, i, out);
    case Closing => CloseAgrees(c, i);
    case Rewarding(paid) => RewardAgrees(c, i, paid);
    case Crediting(before) => CreditAgrees(c, i, before, out);
    case Reverting(before) => RevertAgrees(c, i, before);
    case Rereading => RereadAgrees(c, i);
    case _ =>
  }

  lemma ApplyAgreed(c: Cell, a: Action)
    requires Agreed(c) && !CodePath(Route(c.doc.items))
    ensures Agreed(Apply(c, a))
  {
    match a
    case Step(i, out, copy) =>
      if i < |c.jobs| {
        assert Answers(c, 0) && Answers(c, i);
        if PaidDispatch(c.jobs[i]) {
          DispatchingAgrees(c, i, out, copy);
        } else {
          AsideAgrees(c, i, out, copy);
        }
        if Apply(c, a) != c {
          AgreesKeeps(c, Apply(c, a), i);
        }
      }
    case PaidCall(txRef) => PaidCallAgreed(c, txRef);
    case Keep(b) => RecordAgreed(c, Book(c.doc, b));
    case _ => MoveAgreed(c, a);
  }

  lemma {:induction false} RunAgreed(o: Order, acts: seq<Action>)
    requires PaysLater(o) && !CodePath(Route(o.items))
    ensures Agreed(Run(Created(o), acts))
    decreases |acts|
  {
    if acts != [] {
      var last := |acts| - 1;
      RunAgreed(o, acts[..last]);
      ApplyAgreed(Run(Created(o), acts[..last]), acts[last]);
    }
  }
}
