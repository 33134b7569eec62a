/**
 What holds in every run, with no premise on it: for orders charged at placement,
 whatever their path, and for on-chain orders whose dispatch only writes through
 a guard. One inductive invariant, weaker than the calm one but never left.
 */
module SettlementGuarded {
  import opened Basics
  import opened Orders
  import opened Settlement
  import opened SettlementSafety

  /** Paths whose dispatch records its codes in one guarded write. */
  predicate CodePath(p: Path) {
    p == InventoryPath || p == MixedPath
  }

  /** No unguarded dispatch write can meet another actor: charged at placement, or recorded through the guard. */
  predicate Guarded(o: Order, p: Path) {
    !PaysLater(o) || CodePath(p)
  }

  /** On the way to a bridge command, or taking an order back after a refused one. */
  predicate Sends(j: Job) {
    (j.Parking? && j.sends) || j.Sending? || Recall(j)
  }

  predicate Overwrites(j: Job) {
    j.Parking? || j.Sending? || j.Finishing?
  }

  /** Locks are held by the remembered threads, and each thread is where its order's path lets it be. */
  predicate Placed(c: Cell, i: nat, p: Path)
    requires i < |c.jobs|
  {
    var j := c.jobs[i];
    && (Refunding(j) <==> c.refunder == Some(i))
    && (j.Rewarding? <==> c.rewarder == Some(i))
    && (PlacementOnly(j) ==> i == 0)
    && (Refunding(j) ==> i > 0)
    && (PaymentOnly(j) ==> i > 0 && PaysLater(c.doc) && c.doc.status != Pending && !Overwrites(j))
    && (i == 0 && PaysLater(c.doc) ==> j.Charging? || j.Closing? || j.Returned?)
    && (Sends(j) ==> p == BridgePath)
    && FlagOk(c.doc, j)
  }

  /** Nothing awarded, nothing being awarded or refunded. */
  predicate Untouched(c: Cell) {
    c.awards == 0 && c.refunder.None? && c.rewarder.None? && (!Owed(c.doc) ==> c.credits == 0)
  }

  /** What a status says whatever happened before; credits only where no charge was made at placement. */
  predicate Says(c: Cell)
    requires |c.jobs| > 0
  {
    if Private(c.jobs[0]) then (c.doc.status == Pending || c.doc.status == Failed) && Untouched(c)
    else
      match c.doc.status
      case Pending => Untouched(c)
      case Processing => Untouched(c)
      case Completed => Rewarded(c) && c.refunder.None? && (!Owed(c.doc) ==> c.credits == 0)
      case _ => !Owed(c.doc) ==> c.credits + Holding(c.refunder) <= 1
  }

  /** A refund in flight remembers a status to restore, and what it may restore if the order is still refunded. */
  predicate Remembers(c: Cell) {
    c.refunder.Some? ==>
      && c.refunder.value < |c.jobs|
      && Refunding(c.jobs[c.refunder.value])
      && var before := c.jobs[c.refunder.value].before;
         && (c.doc.status == Refunded || c.doc.status == Failed)
         && before.total == c.doc.total && before.payment == c.doc.payment
         && (before.status == Processing || before.status == Completed)
         && (c.doc.status == Refunded ==> if before.status == Processing then c.awards == 0 && c.rewarder.None? else Rewarded(c))
         && (c.jobs[c.refunder.value].Reverting? ==> Reversible(before))
         && (!Owed(c.doc) ==> c.credits == 0)
  }

  predicate Awards(c: Cell) {
    && c.awards + Holding(c.rewarder) <= 1
    && (c.rewarder.Some? ==> c.rewarder.value < |c.jobs| && c.jobs[c.rewarder.value].Rewarding?
                             && c.doc.status != Pending && c.doc.status != Processing)
    && (c.awards == 1 ==> c.doc.status != Pending && c.doc.status != Processing)
    && (c.doc.total == 0 ==> c.credits == 0)
  }

  /** Only a bridge placement that was refused can have been late, and it answers failure. */
  predicate Lateness(c: Cell, p: Path)
    requires |c.jobs| > 0
  {
    c.anomalies.late ==> p == BridgePath && (Recall(c.jobs[0]) || c.jobs[0] == Returned(Failure, false))
  }

  predicate Accounts(c: Cell, p: Path) {
    |c.jobs| > 0 && Says(c) && Remembers(c) && Awards(c) && Lateness(c, p)
  }

  ghost predicate Always(c: Cell, p: Path) {
    Accounts(c, p) && Guarded(c.doc, p) && forall i :: 0 <= i < |c.jobs| ==> Placed(c, i, p)
  }

  /** Thread i stepped or arrived, took no lock another held, and left what others rely on. */
  predicate Fits(c: Cell, d: Cell, i: nat, p: Path) {
    && OneThread(c, d, i)
    && (Refunding(d.jobs[i]) ==> c.refunder.None? || c.refunder == Some(i))
    && (d.jobs[i].Rewarding? ==> c.rewarder.None? || c.rewarder == Some(i))
    && (c.doc.status != Pending ==> d.doc.status != Pending)
    && Accounts(d, p) && Placed(d, i, p)
  }

  lemma FitsKeeps(c: Cell, d: Cell, i: nat, p: Path)
    requires Always(c, p) && Fits(c, d, i, p)
    ensures Always(d, p)
  {
    forall k | 0 <= k < |d.jobs|
      ensures Placed(d, k, p)
    {
      if k != i {
        assert Placed(c, k, p);
      }
    }
  }

  /** Thread i is about to step, and its order is one this invariant is about. */
  predicate Ready(c: Cell, i: nat, p: Path) {
    Accounts(c, p) && Guarded(c.doc, p) && i < |c.jobs| && Placed(c, 0, p) && Placed(c, i, p)
  }

  // ----- each step of a thread fits -----

  lemma ChargeFits(c: Cell, i: nat, out: Outcome, p: Path)
    requires Ready(c, i, p) && c.jobs[i] == Charging
    ensures Fits(c, Charge(c, i, out), i, p)
  {
    var d := Charge(c, i, out);
    assert d == At(c.(charges := d.charges, doc := d.doc), i, d.jobs[i]);
    ChargeIntoFits(c, i, d.charges, d.doc, d.jobs[i], p);
  }

  lemma ChargeIntoFits(c: Cell, i: nat, charges: nat, doc: Order, j: Job, p: Path)
    requires Ready(c, i, p) && c.jobs[i] == Charging && SameTerms(c.doc, doc) && doc.status == c.doc.status
    requires j == Closing || j == Dispatching(Owed(c.doc), false) || (j == Returned(Success, false) && PaysLater(c.doc))
    requires PaysLater(c.doc) ==> !j.Dispatching?
    ensures Fits(c, At(c.(charges := charges, doc := doc), i, j), i, p)
  {
  }

  lemma CloseFits(c: Cell, i: nat, p: Path)
    requires Ready(c, i, p) && c.jobs[i] == Closing
    ensures Fits(c, Close(c, i), i, p)
  {
  }

  lemma DispatchFits(c: Cell, i: nat, charged: bool, paid: bool, out: Outcome, p: Path)
    requires Ready(c, i, p) && c.jobs[i] == Dispatching(charged, paid) && p == Route(c.doc.items)
    ensures Dispatch(c, i, charged, paid, out) == c || Fits(c, Dispatch(c, i, charged, paid, out), i, p)
  {
    var d := Dispatch(c, i, charged, paid, out);
    if d != c {
      var n := DispatchShape(c, i, charged, paid, out);
      DispatchFollowsPath(c, i, charged, paid, out);
      DispatchesIntoFits(c, i, charged, paid, n, d.jobs[i], p);
    }
  }

  /** Only the bridge path sends, and the code paths never overwrite. */
  lemma DispatchFollowsPath(c: Cell, i: nat, charged: bool, paid: bool, out: Outcome)
    requires i < |c.jobs| && Dispatch(c, i, charged, paid, out) != c
    ensures var j := Dispatch(c, i, charged, paid, out).jobs[i];
            (Sends(j) ==> Route(c.doc.items) == BridgePath) && (CodePath(Route(c.doc.items)) ==> !Overwrites(j))
  {
  }

  lemma DispatchesIntoFits(c: Cell, i: nat, charged: bool, paid: bool, n: nat, j: Job, p: Path)
    requires Ready(c, i, p) && c.jobs[i] == Dispatching(charged, paid)
    requires j == Delivering(paid) || j == Finishing(paid) || j == Releasing(charged, paid)
             || j == Parking(charged, paid, true) || j == Parking(charged, paid, false)
    requires (Sends(j) ==> p == BridgePath) && (CodePath(p) ==> !Overwrites(j))
    ensures Fits(c, At(c.(dispatches := c.dispatches + 1, held := c.held + n), i, j), i, p)
  {
  }

  lemma DeliverFits(c: Cell, i: nat, paid: bool, f: Fulfillment, p: Path)
    requires Ready(c, i, p) && c.jobs[i] == Delivering(paid)
    ensures Fits(c, Deliver(c, i, paid, f), i, p)
  {
    var d := Deliver(c, i, paid, f);
    if c.doc.status == Pending || c.doc.status == Processing {
      DeliveredFits(c, i, paid, d.doc, Route(c.doc.items) == InventoryPath, p);
    } else {
      DeliveryLostFits(c, i, paid, p);
    }
  }

  lemma DeliveredFits(c: Cell, i: nat, paid: bool, doc: Order, whole: bool, p: Path)
    requires Ready(c, i, p) && c.jobs[i] == Delivering(paid) && SameTerms(c.doc, doc)
    requires c.doc.status == Pending || c.doc.status == Processing
    requires doc.status == if whole then Completed else Processing
    ensures Fits(c, At(Watched(c, paid).(doc := doc), i, if whole then Rewarding(paid) else Returned(Success, paid)), i, p)
  {
  }

  lemma DeliveryLostFits(c: Cell, i: nat, paid: bool, p: Path)
    requires Ready(c, i, p) && c.jobs[i] == Delivering(paid) && c.doc.status != Pending && c.doc.status != Processing
    ensures Fits(c, At(c.(anomalies := if paid then c.anomalies.(overwrote := true) else c.anomalies.(lostDelivery := true)), i,
                       Returned(if paid then NotPayable else Failure, paid)), i, p)
  {
  }

  lemma ParkFits(c: Cell, i: nat, charged: bool, paid: bool, sends: bool, f: Fulfillment, p: Path)
    requires Ready(c, i, p) && c.jobs[i] == Parking(charged, paid, sends)
    ensures Fits(c, Park(c, i, charged, paid, sends, f), i, p)
  {
  }

  lemma SendFits(c: Cell, i: nat, charged: bool, paid: bool, out: Outcome, p: Path)
    requires Ready(c, i, p) && c.jobs[i] == Sending(charged, paid)
    ensures Fits(c, Send(c, i, charged, paid, out), i, p)
  {
  }

  lemma FinishFits(c: Cell, i: nat, paid: bool, f: Fulfillment, p: Path)
    requires Ready(c, i, p) && c.jobs[i] == Finishing(paid)
    ensures Fits(c, Finish(c, i, paid, f), i, p)
  {
  }

  lemma ReleaseFits(c: Cell, i: nat, charged: bool, paid: bool, p: Path)
    requires Ready(c, i, p) && c.jobs[i] == Releasing(charged, paid)
    ensures Fits(c, Release(c, i, charged, paid), i, p)
  {
  }

  lemma ReverseFits(c: Cell, i: nat, out: Outcome, p: Path)
    requires Ready(c, i, p) && c.jobs[i] == Reversing
    ensures Fits(c, Reverse(c, i, out), i, p)
  {
  }

  lemma FailFits(c: Cell, i: nat, paid: bool, p: Path)
    requires Ready(c, i, p) && c.jobs[i] == Failing(paid)
    ensures Fits(c, Fail(c, i, paid), i, p)
  {
  }

  lemma WithholdFits(c: Cell, i: nat, charged: bool, p: Path)
    requires Ready(c, i, p) && c.jobs[i] == Recalling(charged)
    ensures Fits(c, Withhold(c, i, charged), i, p)
  {
  }

  lemma RepayFits(c: Cell, i: nat, out: Outcome, p: Path)
    requires Ready(c, i, p) && c.jobs[i] == Repaying
    ensures Fits(c, Repay(c, i, out), i, p)
  {
  }

  lemma WithdrawFits(c: Cell, i: nat, p: Path)
    requires Ready(c, i, p) && c.jobs[i] == Withdrawing
    ensures Fits(c, Withdraw(c, i), i, p)
  {
  }

  lemma RewardFits(c: Cell, i: nat, paid: bool, p: Path)
    requires Ready(c, i, p) && c.jobs[i] == Rewarding(paid)
    ensures Fits(c, Reward(c, i, paid), i, p)
  {
  }

  lemma CreditFits(c: Cell, i: nat, before: Order, out: Outcome, p: Path)
    requires Ready(c, i, p) && c.jobs[i] == Crediting(before)
    ensures Fits(c, Credit(c, i, before, out), i, p)
  {
    if !Reversible(before) || (out.NoGateway? && before.payment != Wallet) {
      RefundEndsFits(c, i, before, 0, p);
    } else if out.Good? {
      RefundEndsFits(c, i, before, 1, p);
    } else {
      RefundRefusedFits(c, i, before, p);
    }
  }

  lemma RefundEndsFits(c: Cell, i: nat, before: Order, paidOut: nat, p: Path)
    requires Ready(c, i, p) && c.jobs[i] == Crediting(before)
    requires paidOut == 0 || (paidOut == 1 && Reversible(before))
    ensures Fits(c, At(c.(credits := c.credits + paidOut), i, Returned(Success, false)), i, p)
  {
  }

  lemma RefundRefusedFits(c: Cell, i: nat, before: Order, p: Path)
    requires Ready(c, i, p) && c.jobs[i] == Crediting(before) && Reversible(before)
    ensures Fits(c, At(c, i, Reverting(before)), i, p)
  {
  }

  lemma RevertFits(c: Cell, i: nat, before: Order, p: Path)
    requires Ready(c, i, p) && c.jobs[i] == Reverting(before)
    ensures Fits(c, Revert(c, i, before), i, p)
  {
  }

  lemma RereadFits(c: Cell, i: nat, p: Path)
    requires Ready(c, i, p) && c.jobs[i] == Rereading
    ensures Fits(c, Reread(c, i), i, p)
  {
  }

  // ----- each arrival fits -----

  lemma RefundArrivalFits(c: Cell, from: set<Status>, e: Event, p: Path)
    requires Ready(c, 0, p) && from <= {Processing, Completed} && c.doc.status in from
    ensures Fits(c, Win(c, from, Refunded, e, NoExtra, Crediting(c.doc)), |c.jobs|, p)
  {
  }

  lemma CompletionArrivalFits(c: Cell, e: Event, x: Extra, p: Path)
    requires Ready(c, 0, p) && c.doc.status == Processing
    ensures Fits(c, Win(c, {Processing}, Completed, e, x, Rewarding(false)), |c.jobs|, p)
  {
  }

  lemma SweepArrivalFits(c: Cell, e: Event, p: Path)
    requires Ready(c, 0, p) && c.doc.status == Pending
    ensures Fits(c, Win(c, {Pending}, Failed, e, NoExtra, Returned(Success, false)), |c.jobs|, p)
  {
  }

  lemma PaymentArrivalFits(c: Cell, e: Event, txRef: string, p: Path)
    requires Ready(c, 0, p) && AwaitsPayment(c) && c.doc.status == Pending
    ensures Fits(c, Win(c, {Pending}, Processing, e, PaidBy(txRef), Dispatching(false, true)), |c.jobs|, p)
  {
  }

  lemma LatePaymentArrivalFits(c: Cell, p: Path)
    requires Ready(c, 0, p) && AwaitsPayment(c) && c.doc.status != Pending
    ensures Fits(c, Spawn(c, Rereading), |c.jobs|, p)
  {
  }

  lemma RecordAlways(c: Cell, doc: Order, p: Path)
    requires Always(c, p) && SameTerms(c.doc, doc) && doc.status == c.doc.status
    ensures Always(c.(doc := doc), p)
  {
    forall k | 0 <= k < |c.jobs|
      ensures Placed(c.(doc := doc), k, p)
    {
      assert Placed(c, k, p);
    }
  }

  lemma PaidCallAlways(c: Cell, txRef: string, p: Path)
    requires Always(c, p)
    ensures Always(Apply(c, PaidCall(txRef)), p)
  {
    assert Placed(c, 0, p);
    if AwaitsPayment(c) {
      if c.doc.status == Pending {
        PaymentArrivalFits(c, Event("payment_confirmed", ""), txRef, p);
      } else {
        LatePaymentArrivalFits(c, p);
      }
      FitsKeeps(c, Apply(c, PaidCall(txRef)), |c.jobs|, p);
    }
  }

  lemma MoveAlways(c: Cell, a: Action, p: Path)
    requires Always(c, p) && (a.AdminRefund? || a.SupplierReject? || a.Complete? || a.MarkFailed?)
    ensures Always(Apply(c, a), p)
  {
    assert Placed(c, 0, p);
    var d := Apply(c, a);
    if d != c {
      match a {
        case AdminRefund(reason) => RefundArrivalFits(c, {Processing, Completed}, Event("refunded", reason), p);
        case SupplierReject(reason) => RefundArrivalFits(c, {Processing}, Event("refunded", reason), p);
        case Complete(x) => CompletionArrivalFits(c, Event("completed", ""), x, p);
        case MarkFailed(reason) => SweepArrivalFits(c, Event("failed", reason), p);
      }
      FitsKeeps(c, d, |c.jobs|, p);
    }
  }

  // ----- every run -----

  lemma ForwardFits(c: Cell, i: nat, out: Outcome, f: Fulfillment, p: Path)
    requires Ready(c, i, p) && Forward(c.jobs[i]) && p == Route(c.doc.items)
    ensures StepJob(c, i, out, f) == c || Fits(c, StepJob(c, i, out, f), i, p)
  {
    match c.jobs[i]
    case Charging => ChargeFits(c, i, out, p);
    case Closing => CloseFits(c, i, p);
    case Dispatching(charged, paid) => DispatchFits(c, i, charged, paid, out, p);
    case Delivering(paid) => DeliverFits(c, i, paid, f, p);
    case Parking(charged, paid, sends) => ParkFits(c, i, charged, paid, sends, f, p);
    case Sending(charged, paid) => SendFits(c, i, charged, paid, out, p);
    case Finishing(paid) => FinishFits(c, i, paid, f, p);
  }

  lemma BackwardFits(c: Cell, i: nat, out: Outcome, f: Fulfillment, p: Path)
    requires Ready(c, i, p) && (c.jobs[i].Releasing? || c.jobs[i].Reversing? || c.jobs[i].Failing?)
    ensures Fits(c, StepJob(c, i, out, f), i, p)
  {
    match c.jobs[i]
    case Releasing(charged, paid) => ReleaseFits(c, i, charged, paid, p);
    case Reversing => ReverseFits(c, i, out, p);
    case Failing(paid) => FailFits(c, i, paid, p);
  }

  lemma RecallFits(c: Cell, i: nat, out: Outcome, f: Fulfillment, p: Path)
    requires Ready(c, i, p) && Recall(c.jobs[i])
    ensures Fits(c, StepJob(c, i, out, f), i, p)
  {
    match c.jobs[i]
    case Recalling(charged) => WithholdFits(c, i, charged, p);
    case Repaying => RepayFits(c, i, out, p);
    case Withdrawing => WithdrawFits(c, i, p);
  }

  lemma StepFits(c: Cell, i: nat, out: Outcome, f: Fulfillment, p: Path)
    requires Ready(c, i, p) && p == Route(c.doc.items)
    ensures StepJob(c, i, out, f) == c || Fits(c, StepJob(c, i, out, f), i, p)
  {
    if Forward(c.jobs[i]) {
      ForwardFits(c, i, out, f, p);
    } else if Recall(c.jobs[i]) {
      RecallFits(c, i, out, f, p);
    } else if Backward(c.jobs[i]) {
      BackwardFits(c, i, out, f, p);
    } else {
      match c.jobs[i]
      case Rewarding(paid) => RewardFits(c, i, paid, p);
      case Crediting(before) => CreditFits(c, i, before, out, p);
      case Reverting(before) => RevertFits(c, i, before, p);
      case Rereading => RereadFits(c, i, p);
      case Returned(_, _) =>
    }
  }

  lemma ApplyAlways(c: Cell, a: Action, p: Path)
    requires Always(c, p) && p == Route(c.doc.items)
    ensures Always(Apply(c, a), p)
  {
    match a
    case Step(i, out, copy) =>
      if i < |c.jobs| {
        assert Placed(c, 0, p) && Placed(c, i, p);
        StepFits(c, i, out, copy, p);
        if Apply(c, a) != c {
          FitsKeeps(c, Apply(c, a), i, p);
        }
      }
    case PaidCall(txRef) => PaidCallAlways(c, txRef, p);
    case Keep(b) => RecordAlways(c, Book(c.doc, b), p);
    case _ => MoveAlways(c, a, p);
  }

  /** The invariant holds after every run, whatever the interleaving and without any premise on it. */
  lemma {:induction false} RunAlways(o: Order, acts: seq<Action>)
    requires Guarded(o, Route(o.items))
    ensures Always(Run(Created(o), acts), Route(o.items))
    decreases |acts|
  {
    if acts != [] {
      var last := |acts| - 1;
      RunAlways(o, acts[..last]);
      ApplyAlways(Run(Created(o), acts[..last]), acts[last], Route(o.items));
    }
  }
}
