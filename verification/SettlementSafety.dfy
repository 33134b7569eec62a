/** What every interleaving keeps: one inductive invariant of a Cell, and the guarantees it carries. */
module SettlementSafety {
  import opened Basics
  import opened Orders
  import opened Settlement

  /** Charged when placed: a positive total on any method but the on-chain one. */
  predicate Owed(o: Order) {
    o.total > 0 && o.payment != Usdt
  }

  function Due(o: Order): nat {
    if Owed(o) then 1 else 0
  }

  /** No dispatch write hit an order that someone else had moved. */
  predicate Calm(c: Cell) {
    !c.anomalies.overwrote && !c.anomalies.late
  }

  /** The charge flag a thread carries is the one compensation will need. */
  predicate FlagOk(o: Order, j: Job) {
    match j
    case Dispatching(charged, paid) => charged <==> !paid && Owed(o)
    case Parking(charged, paid, _) => charged <==> !paid && Owed(o)
    case Sending(charged, paid) => charged <==> !paid && Owed(o)
    case Releasing(charged, paid) => charged <==> !paid && Owed(o)
    case Recalling(charged) => charged <==> Owed(o)
    case Reversing => Owed(o)
    case Repaying => Owed(o)
    case _ => true
  }

  /** Jobs that only the placement thread, thread 0, may have. */
  predicate PlacementOnly(j: Job) {
    Private(j) || (j.Sending? && !j.paid) || Recall(j)
  }

  /** Jobs that only a payment call may have. */
  predicate PaymentOnly(j: Job) {
    PaidDispatch(j) || j.Rereading? || ((j.Returned? || j.Rewarding?) && j.paid)
  }

  /** Each lock is held by the remembered thread and no other; each thread is where it may be. */
  predicate ThreadOk(c: Cell, i: nat)
    requires i < |c.jobs|
  {
    var j := c.jobs[i];
    && (Refunding(j) <==> c.refunder == Some(i))
    && (j.Rewarding? <==> c.rewarder == Some(i))
    && (PaidDispatch(j) <==> c.dispatcher == Some(i))
    && (PlacementOnly(j) ==> i == 0)
    && (Refunding(j) ==> i > 0)
    && (PaymentOnly(j) ==> i > 0 && AwaitsPayment(c) && c.doc.status != Pending)
    && (i == 0 && PaysLater(c.doc) ==> j.Charging? || j.Closing? || j.Returned?)
    && FlagOk(c.doc, j)
    && (j == Returned(NotPayable, true) ==> c.doc.status == Failed)
    && (j == Returned(Success, true) && !c.anomalies.overlapped ==>
          c.doc.status != Failed && c.dispatcher.None?)
    && j != Returned(Failure, true)
    && (i == 0 ==> AnswerTells(c.doc, j))
  }

  /** Paid by a later on-chain transfer. */
  predicate PaysLater(o: Order) {
    o.payment == Usdt && o.total > 0
  }

  /** A placement that answered failure left a failed order, and one that answered success never did. */
  predicate AnswerTells(o: Order, j: Job) {
    && (j == Returned(Failure, false) ==> o.status == Failed)
    && ((j == Returned(Success, false) || j.Sending? || j.Rewarding?) && !PaysLater(o) ==> o.status != Failed)
  }

  /** While placement works alone: the order is pending (or swept to failed) and only charged. */
  predicate PlacementAlone(c: Cell)
    requires |c.jobs| > 0
  {
    var j := c.jobs[0];
    var early := j.Charging? || j.Closing?;
    && (c.doc.status == Pending || c.doc.status == Failed)
    && c.awards == 0 && c.refunder.None? && c.rewarder.None? && c.dispatcher.None?
    && c.charges == (if early then 0 else Due(c.doc))
    && (if j.Failing? then CompensatedUpTo(c) else c.credits == 0)
    && (early || j.Dispatching? ==> c.held == 0 && c.dispatches == 0)
    && (j.Reversing? || j.Failing? ==> c.held == 0)
    && !c.anomalies.lostDelivery && (!j.Failing? ==> !c.anomalies.lostReversal)
  }

  /** While a refused placement takes its parked order back: still processing, and nobody else at work. */
  predicate RecallAlone(c: Cell)
    requires |c.jobs| > 0
  {
    var j := c.jobs[0];
    && c.doc.status == Processing && c.charges == Due(c.doc) && c.awards == 0
    && c.refunder.None? && c.rewarder.None? && c.dispatcher.None?
    && (if j.Withdrawing? then CompensatedUpTo(c) else c.credits == 0)
    && (!j.Recalling? ==> c.held == 0)
    && !c.anomalies.lostDelivery && (!j.Withdrawing? ==> !c.anomalies.lostReversal)
  }

  predicate CompensatedUpTo(c: Cell) {
    c.credits <= c.charges && if c.anomalies.lostReversal then c.credits == 0 && c.charges == 1 else c.credits == c.charges
  }

  /** Once other actors can see the order, its status says what has happened to the money and the effects. */
  predicate StatusTells(c: Cell)
    requires |c.jobs| > 0
  {
    match c.doc.status
    case Pending =>
      && AwaitsPayment(c) && c.charges == c.credits == c.awards == c.held == c.dispatches == 0
      && c.refunder.None? && c.rewarder.None?
    case Processing =>
      c.charges == Due(c.doc) && c.credits == 0 && c.awards == 0 && c.refunder.None? && c.rewarder.None?
    case Completed =>
      c.charges == Due(c.doc) && c.credits == 0 && Rewarded(c) && c.refunder.None?
    case Refunded =>
      && c.charges == Due(c.doc) && c.credits + Holding(c.refunder) <= 1
      && (c.doc.payment == Wallet && c.doc.total > 0 ==> c.credits + Holding(c.refunder) == 1)
    case Failed =>
      && c.credits <= c.charges <= Due(c.doc) && c.awards == 0 && c.refunder.None? && c.rewarder.None?
      && c.dispatcher.None?
      && (if Lost(c) then c.credits == 0 && c.charges == Due(c.doc) else c.credits == c.charges)
      && (!c.anomalies.lostDelivery ==> c.held == 0)
  }

  /** The charge of a failed order was left standing. */
  predicate Lost(c: Cell) {
    c.anomalies.lostReversal || c.anomalies.lostDelivery
  }

  function Holding(lock: Option<nat>): nat {
    if lock.Some? then 1 else 0
  }

  predicate Rewarded(c: Cell) {
    c.awards + Holding(c.rewarder) == 1
  }

  /** A refund in flight remembers a status that is safe to put back. */
  predicate RefundOk(c: Cell) {
    c.refunder.Some? ==>
      && c.refunder.value < |c.jobs|
      && Refunding(c.jobs[c.refunder.value])
      && var before := c.jobs[c.refunder.value].before;
         && c.doc.status == Refunded
         && before.total == c.doc.total && before.payment == c.doc.payment
         && (before.status == Processing || before.status == Completed)
         && (if before.status == Processing then c.awards == 0 && c.rewarder.None? else Rewarded(c))
  }

  predicate RewardOk(c: Cell) {
    && c.awards + Holding(c.rewarder) <= 1
    && (c.rewarder.Some? ==> c.rewarder.value < |c.jobs| && c.jobs[c.rewarder.value].Rewarding?
                             && (c.doc.status == Completed || c.doc.status == Refunded)
                             && (c.jobs[c.rewarder.value].paid ==> c.dispatcher.None?))
  }

  predicate DispatchOk(c: Cell) {
    c.dispatcher.Some? ==>
      && c.dispatcher.value < |c.jobs|
      && var j := c.jobs[c.dispatcher.value];
         && PaidDispatch(j) && c.doc.status != Pending && c.doc.status != Failed
         && (j.Dispatching? ==> c.dispatches == 0 && c.held == 0)
         && (j.Failing? ==> c.held == 0)
  }

  /** Everything but the per-thread facts; no quantifier. */
  predicate Books(c: Cell) {
    && |c.jobs| > 0 && c.dispatches <= 1
    && (if Private(c.jobs[0]) then PlacementAlone(c)
        else if Recall(c.jobs[0]) then RecallAlone(c) else StatusTells(c))
    && (c.jobs[0].Sending? ==> !c.anomalies.lostDelivery && !c.anomalies.lostReversal && c.dispatcher.None?)
    && RefundOk(c) && RewardOk(c) && DispatchOk(c)
    && (AwaitsPayment(c) ==> !c.anomalies.lostDelivery && !c.anomalies.lostReversal)
  }

  ghost predicate Holds(c: Cell) {
    Books(c) && forall i :: 0 <= i < |c.jobs| ==> ThreadOk(c, i)
  }

  ghost predicate Inv(c: Cell) {
    Calm(c) ==> Holds(c)
  }

  lemma CreatedHolds(o: Order)
    ensures Inv(Created(o))
  {
  }

  /** d is c after thread i stepped or arrived: the others are as they were. */
  predicate OneThread(c: Cell, d: Cell, i: nat) {
    && i < |d.jobs|
    && 0 < |c.jobs| <= |d.jobs|
    && (|d.jobs| == |c.jobs| || (i == |c.jobs| && |d.jobs| == i + 1))
    && (forall k :: 0 <= k < |c.jobs| && k != i ==> d.jobs[k] == c.jobs[k])
    && d.refunder == Seat(c.refunder, i, Refunding(d.jobs[i]))
    && d.rewarder == Seat(c.rewarder, i, d.jobs[i].Rewarding?)
    && d.dispatcher == Seat(c.dispatcher, i, PaidDispatch(d.jobs[i]))
    && c.doc.total == d.doc.total && c.doc.payment == d.doc.payment
    && (c.anomalies.overlapped ==> d.anomalies.overlapped)
  }

  /** A lock is taken only when nobody else holds it. */
  predicate LocksFree(c: Cell, d: Cell, i: nat)
    requires i < |d.jobs|
  {
    && (Refunding(d.jobs[i]) ==> c.refunder.None? || c.refunder == Some(i))
    && (d.jobs[i].Rewarding? ==> c.rewarder.None? || c.rewarder == Some(i))
    && (PaidDispatch(d.jobs[i]) ==> c.dispatcher.None? || c.dispatcher == Some(i))
  }

  /** What payment calls have been told stays true. */
  predicate AnswersStand(c: Cell, d: Cell) {
    && (|c.jobs| > 0 && !Private(c.jobs[0]) && !Recall(c.jobs[0]) ==>
          && (c.doc.status == Failed ==> d.doc.status == Failed)
          && (c.doc.status != Failed && !PaysLater(c.doc) ==> d.doc.status != Failed))
    && (AwaitsPayment(c) && c.doc.status != Pending ==>
          && AwaitsPayment(d) && d.doc.status != Pending
          && (c.doc.status == Failed ==> d.doc.status == Failed)
          && (c.doc.status != Failed && c.dispatcher.None? ==> d.doc.status != Failed && d.dispatcher.None?))
  }

  lemma ThreadsKept(c: Cell, d: Cell, i: nat)
    requires OneThread(c, d, i) && LocksFree(c, d, i) && AnswersStand(c, d)
    requires forall k :: 0 <= k < |c.jobs| ==> ThreadOk(c, k)
    requires ThreadOk(d, i)
    ensures forall k :: 0 <= k < |d.jobs| ==> ThreadOk(d, k)
  {
    forall k | 0 <= k < |d.jobs|
      ensures ThreadOk(d, k)
    {
      if k != i {
        assert ThreadOk(c, k);
      }
    }
  }

  /** One sound step: the books balance again and nothing another thread relies on moved. */
  predicate Sound(c: Cell, d: Cell, i: nat) {
    OneThread(c, d, i) && LocksFree(c, d, i) && AnswersStand(c, d) && Books(d) && ThreadOk(d, i)
  }

  lemma SoundKeeps(c: Cell, d: Cell, i: nat)
    requires Holds(c) && Sound(c, d, i)
    ensures Holds(d)
  {
    ThreadsKept(c, d, i);
  }

  // ----- each arrival is sound -----

  lemma RefundArrives(c: Cell, from: set<Status>, e: Event)
    requires Books(c) && ThreadOk(c, 0) && from <= {Processing, Completed}
    requires c.doc.status in from && !Recall(c.jobs[0])
    ensures Sound(c, Win(c, from, Refunded, e, NoExtra, Crediting(c.doc)), |c.jobs|)
  {
  }

  lemma CompletionArrives(c: Cell, e: Event, x: Extra)
    requires Books(c) && ThreadOk(c, 0) && c.doc.status == Processing && !Recall(c.jobs[0])
    ensures Sound(c, Win(c, {Processing}, Completed, e, x, Rewarding(false)), |c.jobs|)
  {
  }

  lemma SweepArrives(c: Cell, e: Event)
    requires Books(c) && ThreadOk(c, 0) && c.doc.status == Pending
    ensures Sound(c, Win(c, {Pending}, Failed, e, NoExtra, Returned(Success, false)), |c.jobs|)
  {
  }

  lemma PaymentArrives(c: Cell, e: Event, txRef: string)
    requires Books(c) && ThreadOk(c, 0) && AwaitsPayment(c) && c.doc.status == Pending
    ensures Sound(c, Win(c, {Pending}, Processing, e, PaidBy(txRef), Dispatching(false, true)), |c.jobs|)
  {
  }

  lemma LatePaymentArrives(c: Cell)
    requires Books(c) && ThreadOk(c, 0) && AwaitsPayment(c) && c.doc.status != Pending
    ensures Sound(c, Spawn(c, Rereading), |c.jobs|)
  {
  }

  /** A write that leaves status and terms alone disturbs nothing. */
  lemma RecordKeeps(c: Cell, doc: Order)
    requires Holds(c) && doc.status == c.doc.status && doc.total == c.doc.total && doc.payment == c.doc.payment
    ensures Holds(c.(doc := doc))
  {
    var d := c.(doc := doc);
    forall k | 0 <= k < |d.jobs|
      ensures ThreadOk(d, k)
    {
      assert ThreadOk(c, k);
    }
  }

  /** A transition by another actor: nothing happens if the guard fails, and a sound step otherwise. */
  lemma WinKeeps(c: Cell, from: set<Status>, to: Status, e: Event, x: Extra, j: Job)
    requires Holds(c) && Calm(Win(c, from, to, e, x, j))
    requires || (from <= {Processing, Completed} && to == Refunded && x == NoExtra && j == Crediting(c.doc))
             || (from == {Processing} && to == Completed && j == Rewarding(false))
             || (from == {Pending} && to == Failed && x == NoExtra && j == Returned(Success, false))
             || (from == {Pending} && to == Processing && x.PaidBy? && j == Dispatching(false, true) && AwaitsPayment(c))
    ensures Holds(Win(c, from, to, e, x, j))
  {
    if c.doc.status in from {
      assert ThreadOk(c, 0);
      if to == Refunded {
        RefundArrives(c, from, e);
      } else if to == Completed {
        CompletionArrives(c, e, x);
      } else if to == Failed {
        SweepArrives(c, e);
      } else {
        PaymentArrives(c, e, x.ref);
      }
      SoundKeeps(c, Win(c, from, to, e, x, j), |c.jobs|);
    }
  }

  lemma PaidCallKeeps(c: Cell, txRef: string)
    requires Holds(c) && Calm(Apply(c, PaidCall(txRef)))
    ensures Holds(Apply(c, PaidCall(txRef)))
  {
    if AwaitsPayment(c) {
      if c.doc.status == Pending {
        WinKeeps(c, {Pending}, Processing, Event("payment_confirmed", ""), PaidBy(txRef), Dispatching(false, true));
      } else {
        assert ThreadOk(c, 0);
        LatePaymentArrives(c);
        SoundKeeps(c, Spawn(c, Rereading), |c.jobs|);
      }
    }
  }

  lemma ArrivalKeeps(c: Cell, a: Action)
    requires Holds(c) && !a.Step? && Calm(Apply(c, a))
    ensures Holds(Apply(c, a))
  {
    match a
    case AdminRefund(reason) =>
      WinKeeps(c, {Processing, Completed}, Refunded, Event("refunded", reason), NoExtra, Crediting(c.doc));
    case SupplierReject(reason) =>
      WinKeeps(c, {Processing}, Refunded, Event("refunded", reason), NoExtra, Crediting(c.doc));
    case Complete(x) =>
      WinKeeps(c, {Processing}, Completed, Event("completed", ""), x, Rewarding(false));
    case MarkFailed(reason) =>
      WinKeeps(c, {Pending}, Failed, Event("failed", reason), NoExtra, Returned(Success, false));
    case PaidCall(txRef) => PaidCallKeeps(c, txRef);
    case Keep(b) =>
      RecordKeeps(c, Book(c.doc, b));
  }

  // ----- each step of a thread is sound -----

  lemma ChargeSound(c: Cell, i: nat, out: Outcome)
    requires Books(c) && ThreadOk(c, 0) && i < |c.jobs| && ThreadOk(c, i) && c.jobs[i] == Charging
    ensures Calm(Charge(c, i, out)) ==> Sound(c, Charge(c, i, out), i)
  {
  }

  lemma CloseSound(c: Cell, i: nat)
    requires Books(c) && ThreadOk(c, 0) && i < |c.jobs| && ThreadOk(c, i) && c.jobs[i] == Closing
    ensures Calm(Close(c, i)) ==> Sound(c, Close(c, i), i)
  {
  }

  /** Whatever the path, dispatch hands the order to one of four next jobs. */
  lemma DispatchesInto(c: Cell, i: nat, charged: bool, paid: bool, n: nat, j: Job)
    requires Books(c) && ThreadOk(c, 0) && i < |c.jobs| && ThreadOk(c, i) && c.jobs[i] == Dispatching(charged, paid)
    requires j == Delivering(paid) || j == Finishing(paid) || j == Releasing(charged, paid)
             || j == Parking(charged, paid, true) || j == Parking(charged, paid, false)
    ensures Sound(c, At(c.(dispatches := c.dispatches + 1, held := c.held + n), i, j), i)
  {
  }

  lemma DispatchSound(c: Cell, i: nat, charged: bool, paid: bool, out: Outcome)
    requires Books(c) && ThreadOk(c, 0) && i < |c.jobs| && ThreadOk(c, i) && c.jobs[i] == Dispatching(charged, paid)
    ensures Dispatch(c, i, charged, paid, out) == c || Sound(c, Dispatch(c, i, charged, paid, out), i)
  {
    var d := Dispatch(c, i, charged, paid, out);
    if d != c {
      var n := DispatchShape(c, i, charged, paid, out);
      DispatchesInto(c, i, charged, paid, n, d.jobs[i]);
    }
  }

  lemma DispatchShape(c: Cell, i: nat, charged: bool, paid: bool, out: Outcome) returns (n: nat)
    requires i < |c.jobs| && Dispatch(c, i, charged, paid, out) != c
    ensures var d := Dispatch(c, i, charged, paid, out);
            && d == At(c.(dispatches := c.dispatches + 1, held := c.held + n), i, d.jobs[i])
            && (d.jobs[i] == Delivering(paid) || d.jobs[i] == Finishing(paid) || d.jobs[i] == Releasing(charged, paid)
                || d.jobs[i] == Parking(charged, paid, true) || d.jobs[i] == Parking(charged, paid, false))
  {
    n := if Route(c.doc.items) == ManualPath then 0
         else if out.Claimed? || out.Short? then out.units else 0;
  }

  lemma DeliverSound(c: Cell, i: nat, paid: bool, f: Fulfillment)
    requires Books(c) && ThreadOk(c, 0) && i < |c.jobs| && ThreadOk(c, i) && c.jobs[i] == Delivering(paid)
    ensures Calm(Deliver(c, i, paid, f)) ==> Sound(c, Deliver(c, i, paid, f), i)
  {
    var d := Deliver(c, i, paid, f);
    if Calm(d) {
      if c.doc.status == Pending || c.doc.status == Processing {
        DeliveredSound(c, i, paid, d.doc, Route(c.doc.items) == InventoryPath);
      } else {
        DeliveryLostSound(c, i);
      }
    }
  }

  lemma DeliveredSound(c: Cell, i: nat, paid: bool, doc: Order, whole: bool)
    requires Books(c) && ThreadOk(c, 0) && i < |c.jobs| && ThreadOk(c, i) && c.jobs[i] == Delivering(paid)
    requires Undisturbed(c, paid) && doc.total == c.doc.total && doc.payment == c.doc.payment
    requires doc.status == if whole then Completed else Processing
    ensures Sound(c, At(c.(doc := doc), i, if whole then Rewarding(paid) else Returned(Success, paid)), i)
  {
  }

  lemma DeliveryLostSound(c: Cell, i: nat)
    requires Books(c) && ThreadOk(c, 0) && i < |c.jobs| && ThreadOk(c, i) && c.jobs[i] == Delivering(false)
    requires c.doc.status != Pending && c.doc.status != Processing
    ensures Sound(c, At(c.(anomalies := c.anomalies.(lostDelivery := true)), i, Returned(Failure, false)), i)
  {
  }

  lemma ParkSound(c: Cell, i: nat, charged: bool, paid: bool, sends: bool, f: Fulfillment)
    requires Books(c) && ThreadOk(c, 0) && i < |c.jobs| && ThreadOk(c, i) && c.jobs[i] == Parking(charged, paid, sends)
    ensures Calm(Park(c, i, charged, paid, sends, f)) ==> Sound(c, Park(c, i, charged, paid, sends, f), i)
  {
  }

  lemma SendSound(c: Cell, i: nat, charged: bool, paid: bool, out: Outcome)
    requires Books(c) && ThreadOk(c, 0) && i < |c.jobs| && ThreadOk(c, i) && c.jobs[i] == Sending(charged, paid)
    ensures Calm(Send(c, i, charged, paid, out)) ==> Sound(c, Send(c, i, charged, paid, out), i)
  {
    if out.Good? {
      SendAccepted(c, i, charged, paid);
    } else if paid {
      SendRefused(c, i, charged);
    } else if c.doc.status == Processing {
      SendRecalled(c, i, charged);
    }
  }

  lemma SendAccepted(c: Cell, i: nat, charged: bool, paid: bool)
    requires Books(c) && ThreadOk(c, 0) && i < |c.jobs| && ThreadOk(c, i) && c.jobs[i] == Sending(charged, paid)
    ensures Sound(c, At(c, i, Returned(Success, paid)), i)
  {
  }

  lemma SendRefused(c: Cell, i: nat, charged: bool)
    requires Books(c) && ThreadOk(c, 0) && i < |c.jobs| && ThreadOk(c, i) && c.jobs[i] == Sending(charged, true)
    ensures Sound(c, At(c, i, Releasing(charged, true)), i)
  {
  }

  lemma SendRecalled(c: Cell, i: nat, charged: bool)
    requires Books(c) && ThreadOk(c, 0) && i < |c.jobs| && ThreadOk(c, i) && c.jobs[i] == Sending(charged, false)
    requires c.doc.status == Processing
    ensures Sound(c, At(c, i, Recalling(charged)), i)
  {
  }

  lemma FinishSound(c: Cell, i: nat, paid: bool, f: Fulfillment)
    requires Books(c) && ThreadOk(c, 0) && i < |c.jobs| && ThreadOk(c, i) && c.jobs[i] == Finishing(paid)
    ensures Calm(Finish(c, i, paid, f)) ==> Sound(c, Finish(c, i, paid, f), i)
  {
  }

  lemma ReleaseSound(c: Cell, i: nat, charged: bool, paid: bool)
    requires Books(c) && ThreadOk(c, 0) && i < |c.jobs| && ThreadOk(c, i) && c.jobs[i] == Releasing(charged, paid)
    ensures Calm(Release(c, i, charged, paid)) ==> Sound(c, Release(c, i, charged, paid), i)
  {
  }

  lemma ReverseSound(c: Cell, i: nat, out: Outcome)
    requires Books(c) && ThreadOk(c, 0) && i < |c.jobs| && ThreadOk(c, i) && c.jobs[i] == Reversing
    ensures Calm(Reverse(c, i, out)) ==> Sound(c, Reverse(c, i, out), i)
  {
  }

  lemma FailSound(c: Cell, i: nat, paid: bool)
    requires Books(c) && ThreadOk(c, 0) && i < |c.jobs| && ThreadOk(c, i) && c.jobs[i] == Failing(paid)
    ensures Calm(Fail(c, i, paid)) ==> Sound(c, Fail(c, i, paid), i)
  {
  }

  lemma WithholdSound(c: Cell, i: nat, charged: bool)
    requires Books(c) && ThreadOk(c, 0) && i < |c.jobs| && ThreadOk(c, i) && c.jobs[i] == Recalling(charged)
    ensures Sound(c, Withhold(c, i, charged), i)
  {
  }

  lemma RepaySound(c: Cell, i: nat, out: Outcome)
    requires Books(c) && ThreadOk(c, 0) && i < |c.jobs| && ThreadOk(c, i) && c.jobs[i] == Repaying
    ensures Sound(c, Repay(c, i, out), i)
  {
  }

  lemma WithdrawSound(c: Cell, i: nat)
    requires Books(c) && ThreadOk(c, 0) && i < |c.jobs| && ThreadOk(c, i) && c.jobs[i] == Withdrawing
    ensures Sound(c, Withdraw(c, i), i)
  {
  }

  lemma RewardSound(c: Cell, i: nat, paid: bool)
    requires Books(c) && ThreadOk(c, 0) && i < |c.jobs| && ThreadOk(c, i) && c.jobs[i] == Rewarding(paid)
    ensures Calm(Reward(c, i, paid)) ==> Sound(c, Reward(c, i, paid), i)
  {
  }

  lemma CreditSound(c: Cell, i: nat, before: Order, out: Outcome)
    requires Books(c) && ThreadOk(c, 0) && i < |c.jobs| && ThreadOk(c, i) && c.jobs[i] == Crediting(before)
    ensures Sound(c, Credit(c, i, before, out), i)
  {
    if !Reversible(before) || (out.NoGateway? && before.payment != Wallet) {
      RefundEnds(c, i, before, 0);
    } else if out.Good? {
      RefundEnds(c, i, before, 1);
    } else {
      RefundRefused(c, i, before);
    }
  }

  lemma RefundRefused(c: Cell, i: nat, before: Order)
    requires Books(c) && ThreadOk(c, 0) && i < |c.jobs| && ThreadOk(c, i) && c.jobs[i] == Crediting(before)
    ensures Sound(c, At(c, i, Reverting(before)), i)
  {
  }

  /** A refund gives up its lock, having credited once or had nothing to credit. */
  lemma RefundEnds(c: Cell, i: nat, before: Order, paidOut: nat)
    requires Books(c) && ThreadOk(c, 0) && i < |c.jobs| && ThreadOk(c, i) && c.jobs[i] == Crediting(before)
    requires paidOut == 1 || (paidOut == 0 && !(before.payment == Wallet && Reversible(before)))
    requires paidOut == 1 ==> Reversible(before)
    ensures Sound(c, At(c.(credits := c.credits + paidOut), i, Returned(Success, false)), i)
  {
  }

  lemma RevertSound(c: Cell, i: nat, before: Order)
    requires Books(c) && ThreadOk(c, 0) && i < |c.jobs| && ThreadOk(c, i) && c.jobs[i] == Reverting(before)
    ensures Calm(Revert(c, i, before)) ==> Sound(c, Revert(c, i, before), i)
  {
  }

  lemma RereadSound(c: Cell, i: nat)
    requires Books(c) && ThreadOk(c, 0) && i < |c.jobs| && ThreadOk(c, i) && c.jobs[i] == Rereading
    ensures Calm(Reread(c, i)) ==> Sound(c, Reread(c, i), i)
  {
  }

  /** The steps of a dispatch, up to its answer. */
  predicate Forward(j: Job) {
    j.Charging? || j.Closing? || j.Dispatching? || j.Delivering? || j.Parking? || j.Sending? || j.Finishing?
  }

  /** The steps that take an order back. */
  predicate Backward(j: Job) {
    j.Releasing? || j.Reversing? || j.Failing? || Recall(j)
  }

  lemma OpeningSound(c: Cell, i: nat, out: Outcome, f: Fulfillment)
    requires Books(c) && ThreadOk(c, 0) && i < |c.jobs| && ThreadOk(c, i) && Calm(StepJob(c, i, out, f))
    requires c.jobs[i].Charging? || c.jobs[i].Closing? || c.jobs[i].Dispatching?
    ensures StepJob(c, i, out, f) == c || Sound(c, StepJob(c, i, out, f), i)
  {
    match c.jobs[i]
    case Charging => ChargeSound(c, i, out);
    case Closing => CloseSound(c, i);
    case Dispatching(charged, paid) => DispatchSound(c, i, charged, paid, out);
  }

  lemma ParkingSound(c: Cell, i: nat, out: Outcome, f: Fulfillment)
    requires Books(c) && ThreadOk(c, 0) && i < |c.jobs| && ThreadOk(c, i) && Calm(StepJob(c, i, out, f))
    requires c.jobs[i].Parking?
    ensures Sound(c, StepJob(c, i, out, f), i)
  {
    match c.jobs[i]
    case Parking(charged, paid, sends) => ParkSound(c, i, charged, paid, sends, f);
  }

  lemma ClosingStepsSound(c: Cell, i: nat, out: Outcome, f: Fulfillment)
    requires Books(c) && ThreadOk(c, 0) && i < |c.jobs| && ThreadOk(c, i) && Calm(StepJob(c, i, out, f))
    requires c.jobs[i].Sending? || c.jobs[i].Finishing?
    ensures Sound(c, StepJob(c, i, out, f), i)
  {
    match c.jobs[i]
    case Sending(charged, paid) => SendSound(c, i, charged, paid, out);
    case Finishing(paid) => FinishSound(c, i, paid, f);
  }

  lemma BackwardSound(c: Cell, i: nat, out: Outcome, f: Fulfillment)
    requires Books(c) && ThreadOk(c, 0) && i < |c.jobs| && ThreadOk(c, i) && Calm(StepJob(c, i, out, f))
    requires c.jobs[i].Releasing? || c.jobs[i].Reversing?
    ensures Sound(c, StepJob(c, i, out, f), i)
  {
    match c.jobs[i]
    case Releasing(charged, paid) => ReleaseSound(c, i, charged, paid);
    case Reversing => ReverseSound(c, i, out);
  }

  lemma RecallSound(c: Cell, i: nat, out: Outcome, f: Fulfillment)
    requires Books(c) && ThreadOk(c, 0) && i < |c.jobs| && ThreadOk(c, i)
    requires Recall(c.jobs[i])
    ensures Sound(c, StepJob(c, i, out, f), i)
  {
    match c.jobs[i]
    case Recalling(charged) => WithholdSound(c, i, charged);
    case Repaying => RepaySound(c, i, out);
    case Withdrawing => WithdrawSound(c, i);
  }

  lemma StepSound(c: Cell, i: nat, out: Outcome, f: Fulfillment)
    requires Books(c) && ThreadOk(c, 0) && i < |c.jobs| && ThreadOk(c, i) && Calm(StepJob(c, i, out, f))
    ensures StepJob(c, i, out, f) == c || Sound(c, StepJob(c, i, out, f), i)
  {
    if c.jobs[i].Charging? || c.jobs[i].Closing? || c.jobs[i].Dispatching? {
      OpeningSound(c, i, out, f);
    } else if c.jobs[i].Delivering? {
      DeliverSound(c, i, c.jobs[i].paid, f);
    } else if c.jobs[i].Parking? {
      ParkingSound(c, i, out, f);
    } else if Forward(c.jobs[i]) {
      ClosingStepsSound(c, i, out, f);
    } else if Recall(c.jobs[i]) {
      RecallSound(c, i, out, f);
    } else if c.jobs[i].Releasing? || c.jobs[i].Reversing? {
      BackwardSound(c, i, out, f);
    } else {
      match c.jobs[i]
      case Failing(paid) => FailSound(c, i, paid);
      case Rewarding(paid) => RewardSound(c, i, paid);
      case Crediting(before) => CreditSound(c, i, before, out);
      case Reverting(before) => RevertSound(c, i, before);
      case Rereading => RereadSound(c, i);
      case Returned(_, _) =>
    }
  }

  lemma ApplyKeeps(c: Cell, a: Action)
    requires Inv(c)
    ensures Inv(Apply(c, a))
  {
    if Calm(Apply(c, a)) {
      if a.Step? {
        if a.i < |c.jobs| {
          assert ThreadOk(c, 0) && ThreadOk(c, a.i);
          StepSound(c, a.i, a.out, a.copy);
          if Apply(c, a) != c {
            SoundKeeps(c, Apply(c, a), a.i);
          }
        }
      } else {
        ArrivalKeeps(c, a);
      }
    }
  }

  /** The invariant holds after every run, whatever the interleaving. */
  lemma {:induction false} RunKeeps(c: Cell, acts: seq<Action>)
    requires Inv(c)
    ensures Inv(Run(c, acts))
    decreases |acts|
  {
    if acts != [] {
      var last := |acts| - 1;
      RunKeeps(c, acts[..last]);
      ApplyKeeps(Run(c, acts[..last]), acts[last]);
    }
  }
}
