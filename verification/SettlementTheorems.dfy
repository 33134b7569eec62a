/** The guarantees of order settlement over every calm run, and at most one dispatch in every run at all. */
module SettlementTheorems {
  import opened Basics
  import opened Orders
  import opened Settlement
  import opened SettlementSafety

  ghost function RefundsInFlight(jobs: seq<Job>): nat {
    if jobs == [] then 0
    else RefundsInFlight(jobs[..|jobs| - 1]) + if Refunding(jobs[|jobs| - 1]) then 1 else 0
  }

  ghost function RewardsInFlight(jobs: seq<Job>): nat {
    if jobs == [] then 0
    else RewardsInFlight(jobs[..|jobs| - 1]) + if jobs[|jobs| - 1].Rewarding? then 1 else 0
  }

  lemma {:induction false} RefundsHoldLock(jobs: seq<Job>, lock: Option<nat>)
    requires forall i :: 0 <= i < |jobs| ==> (Refunding(jobs[i]) <==> lock == Some(i))
    ensures RefundsInFlight(jobs) == if lock.Some? && lock.value < |jobs| then 1 else 0
  {
    if jobs != [] {
      var last := |jobs| - 1;
      RefundsHoldLock(jobs[..last], if lock == Some(last) then None else lock);
    }
  }

  lemma {:induction false} RewardsHoldLock(jobs: seq<Job>, lock: Option<nat>)
    requires forall i :: 0 <= i < |jobs| ==> (jobs[i].Rewarding? <==> lock == Some(i))
    ensures RewardsInFlight(jobs) == if lock.Some? && lock.value < |jobs| then 1 else 0
  {
    if jobs != [] {
      var last := |jobs| - 1;
      RewardsHoldLock(jobs[..last], if lock == Some(last) then None else lock);
    }
  }

  lemma LocksCounted(c: Cell)
    requires Holds(c)
    ensures RefundsInFlight(c.jobs) == Holding(c.refunder)
    ensures RewardsInFlight(c.jobs) == Holding(c.rewarder)
  {
    forall i | 0 <= i < |c.jobs|
      ensures Refunding(c.jobs[i]) <==> c.refunder == Some(i)
      ensures c.jobs[i].Rewarding? <==> c.rewarder == Some(i)
    {
      assert ThreadOk(c, i);
    }
    RefundsHoldLock(c.jobs, c.refunder);
    RewardsHoldLock(c.jobs, c.rewarder);
  }

  /** Every run of an order that kept calm satisfies the invariant. */
  lemma CalmRunHolds(o: Order, acts: seq<Action>)
    requires Calm(Run(Created(o), acts))
    ensures Holds(Run(Created(o), acts))
  {
    CreatedHolds(o);
    RunKeeps(Created(o), acts);
  }

  lemma RefundHolds(c: Cell, i: nat)
    requires Holds(c) && i < |c.jobs| && Refunding(c.jobs[i])
    ensures c.refunder == Some(i) && i > 0 && c.doc.status == Refunded && c.credits == 0
    ensures c.jobs[i].before.status == Processing || c.jobs[i].before.status == Completed
  {
    assert ThreadOk(c, i);
  }

  /**
   Single credit. Money goes back at most once, counting the refunds that won
   their transition and have not credited yet; and a refund is in flight only
   while the order is refunded and nothing was credited, remembering one of the
   two statuses it may restore.
   */
  lemma CalmSingleCredit(o: Order, acts: seq<Action>)
    requires Calm(Run(Created(o), acts))
    ensures var c := Run(Created(o), acts);
            && c.credits + RefundsInFlight(c.jobs) <= 1
            && forall i :: 0 <= i < |c.jobs| && Refunding(c.jobs[i]) ==>
                 && c.doc.status == Refunded && c.credits == 0
                 && c.jobs[i].before.status in {Processing, Completed}
  {
    var c := Run(Created(o), acts);
    CalmRunHolds(o, acts);
    LocksCounted(c);
    CreditBound(c);
    forall i | 0 <= i < |c.jobs| && Refunding(c.jobs[i])
      ensures c.doc.status == Refunded && c.credits == 0 && c.jobs[i].before.status in {Processing, Completed}
    {
      RefundHolds(c, i);
    }
  }

  lemma CreditBound(c: Cell)
    requires Books(c)
    ensures c.credits + Holding(c.refunder) <= 1
  {
  }

  /**
   After placement has answered success for a wallet order, money is back, or on
   its way back, exactly while the order is refunded; it is never failed.
   */
  lemma CalmCreditedIffRefunded(o: Order, acts: seq<Action>)
    requires o.payment == Wallet && o.total > 0 && Calm(Run(Created(o), acts))
    requires |Run(Created(o), acts).jobs| > 0 && Run(Created(o), acts).jobs[0] == Returned(Success, false)
    ensures var c := Run(Created(o), acts);
            && c.charges == 1 && c.doc.status in {Processing, Completed, Refunded}
            && c.credits + RefundsInFlight(c.jobs) == if c.doc.status == Refunded then 1 else 0
  {
    var c := Run(Created(o), acts);
    CalmRunHolds(o, acts);
    LocksCounted(c);
    assert ThreadOk(c, 0);
    WalletBooks(c);
  }

  lemma WalletBooks(c: Cell)
    requires Books(c) && ThreadOk(c, 0) && c.doc.payment == Wallet && c.doc.total > 0
    requires c.jobs[0] == Returned(Success, false)
    ensures c.charges == 1 && c.doc.status in {Processing, Completed, Refunded}
    ensures c.credits + Holding(c.refunder) == if c.doc.status == Refunded then 1 else 0
  {
  }

  /** A reverting refund finds its order still refunded and puts the remembered status back. */
  lemma CalmRevertRestores(o: Order, acts: seq<Action>, i: nat, out: Outcome, copy: Fulfillment)
    requires Calm(Run(Created(o), acts))
    requires i < |Run(Created(o), acts).jobs| && Run(Created(o), acts).jobs[i].Reverting?
    ensures var c, d := Run(Created(o), acts), Run(Created(o), acts + [Step(i, out, copy)]);
            && i < |d.jobs|
            && c.doc.status == Refunded && c.credits == 0
            && d.doc.status == c.jobs[i].before.status
            && d.credits == 0 && d.jobs[i] == Returned(Failure, false)
  {
    var c := Run(Created(o), acts);
    CalmRunHolds(o, acts);
    RefundHolds(c, i);
    RunExtends(Created(o), acts, Step(i, out, copy));
    RevertPutsBack(c, i, out, copy);
  }

  lemma RevertPutsBack(c: Cell, i: nat, out: Outcome, copy: Fulfillment)
    requires i < |c.jobs| && c.jobs[i].Reverting? && c.doc.status == Refunded
    ensures var d := Apply(c, Step(i, out, copy));
            && i < |d.jobs| && d.doc.status == c.jobs[i].before.status
            && d.credits == c.credits && d.jobs[i] == Returned(Failure, false)
  {
    assert Apply(c, Step(i, out, copy)) == Revert(c, i, c.jobs[i].before);
  }

  lemma RunExtends(c: Cell, acts: seq<Action>, a: Action)
    ensures Run(c, acts + [a]) == Apply(Run(c, acts), a)
  {
    assert (acts + [a])[..|acts + [a]| - 1] == acts;
  }

  /**
   For an order charged at placement the only way out of these guarantees is a
   refused bridge command whose parked order someone moved meanwhile.
   */
  lemma {:induction false} CalmUnlessLate(o: Order, acts: seq<Action>)
    requires !PaysLater(o)
    ensures Calm(Run(Created(o), acts)) <==> !Run(Created(o), acts).anomalies.late
    decreases |acts|
  {
    if acts != [] {
      var last := |acts| - 1;
      var c, d := Run(Created(o), acts[..last]), Run(Created(o), acts);
      CalmUnlessLate(o, acts[..last]);
      if Calm(c) {
        CalmRunHolds(o, acts[..last]);
        ChargedFirstStaysCalm(c, acts[last]);
      }
    }
  }

  lemma ChargedFirstStaysCalm(c: Cell, a: Action)
    requires Holds(c) && Calm(c) && !PaysLater(c.doc)
    ensures Apply(c, a).anomalies.overwrote ==> Apply(c, a).anomalies.late
  {
    if a.Step? && a.i < |c.jobs| {
      assert ThreadOk(c, 0) && ThreadOk(c, a.i);
      StepWritesCalmly(c, a.i, a.out, a.copy);
    }
  }

  lemma StepWritesCalmly(c: Cell, i: nat, out: Outcome, f: Fulfillment)
    requires Books(c) && Calm(c) && !PaysLater(c.doc) && i < |c.jobs| && ThreadOk(c, 0) && ThreadOk(c, i)
    ensures !StepJob(c, i, out, f).anomalies.overwrote
  {
    if Forward(c.jobs[i]) {
      ForwardWritesCalmly(c, i, out, f);
    } else if Backward(c.jobs[i]) {
      BackwardWritesCalmly(c, i, out, f);
    } else {
      match c.jobs[i]
      case Crediting(before) => assert !Credit(c, i, before, out).anomalies.overwrote;
      case _ =>
    }
  }

  lemma ForwardWritesCalmly(c: Cell, i: nat, out: Outcome, f: Fulfillment)
    requires Books(c) && Calm(c) && !PaysLater(c.doc) && i < |c.jobs| && ThreadOk(c, 0) && ThreadOk(c, i)
    requires Forward(c.jobs[i])
    ensures !StepJob(c, i, out, f).anomalies.overwrote
  {
    match c.jobs[i]
    case Dispatching(charged, paid) => assert !Dispatch(c, i, charged, paid, out).anomalies.overwrote;
    case Delivering(paid) => assert !Deliver(c, i, paid, f).anomalies.overwrote;
    case Parking(charged, paid, sends) => assert !Park(c, i, charged, paid, sends, f).anomalies.overwrote;
    case _ =>
  }

  lemma BackwardWritesCalmly(c: Cell, i: nat, out: Outcome, f: Fulfillment)
    requires Books(c) && Calm(c) && !PaysLater(c.doc) && i < |c.jobs| && ThreadOk(c, 0) && ThreadOk(c, i)
    requires Backward(c.jobs[i])
    ensures !StepJob(c, i, out, f).anomalies.overwrote
  {
    match c.jobs[i]
    case Releasing(charged, paid) => assert !Release(c, i, charged, paid).anomalies.overwrote;
    case Reversing => assert !Reverse(c, i, out).anomalies.overwrote;
    case Failing(paid) => assert !Fail(c, i, paid).anomalies.overwrote;
    case Recalling(charged) => assert !Withhold(c, i, charged).anomalies.overwrote;
    case Repaying => assert !Repay(c, i, out).anomalies.overwrote;
    case Withdrawing => assert !Withdraw(c, i).anomalies.overwrote;
  }

  /**
   Completion effects happen at most once, are never lost once the order is
   completed, and bar the order from processing for good.
   */
  lemma CalmAwardOnce(o: Order, acts: seq<Action>)
    requires Calm(Run(Created(o), acts))
    ensures var c := Run(Created(o), acts);
            && c.awards + RewardsInFlight(c.jobs) <= 1
            && (c.doc.status == Completed ==> c.awards + RewardsInFlight(c.jobs) == 1)
            && (c.awards == 1 ==> c.doc.status == Completed || c.doc.status == Refunded)
  {
    CalmRunHolds(o, acts);
    LocksCounted(Run(Created(o), acts));
  }

  lemma {:induction false} LaterAwards(c: Cell, acts: seq<Action>, more: seq<Action>)
    ensures Run(c, acts + more).awards >= Run(c, acts).awards
    decreases |more|
  {
    if more == [] {
      assert acts + more == acts;
    } else {
      var last := |more| - 1;
      LaterAwards(c, acts, more[..last]);
      assert (acts + more)[..|acts + more| - 1] == acts + more[..last];
    }
  }

  // ----- dispatch runs at most once, whatever happens -----

  /** One ticket to dispatch an order: the placement's, or for an on-chain order the claim out of pending. */
  ghost predicate OneTicket(c: Cell) {
    && |c.jobs| > 0 && c.dispatches <= 1
    && (forall i :: 0 <= i < |c.jobs| ==> TicketOk(c, i))
    && (forall i, j :: 0 <= i < j < |c.jobs| ==> !c.jobs[i].Dispatching? || !c.jobs[j].Dispatching?)
    && (PaysLater(c.doc) && c.dispatches > 0 ==> c.doc.status != Pending)
    && (c.jobs[0].Charging? ==> c.dispatches == 0)
  }

  predicate TicketOk(c: Cell, i: nat)
    requires i < |c.jobs|
  {
    match c.jobs[i]
    case Charging => i == 0
    case Dispatching(_, _) => c.dispatches == 0 && !c.jobs[0].Charging? && if PaysLater(c.doc) then i > 0 && c.doc.status != Pending else i == 0
    case Crediting(before) => before.status != Pending
    case Reverting(before) => before.status != Pending
    case _ => true
  }

  /** A step of thread i that dispatches nothing, and does not bring an order back to pending. */
  lemma TicketKept(c: Cell, i: nat, d: Cell)
    requires OneTicket(c) && i < |c.jobs| && Later(c, d) && OnlyThread(c, i, d)
    requires d.dispatches == c.dispatches || (c.jobs[i].Dispatching? && d.dispatches == 1)
    requires d.doc.status == Pending ==> c.doc.status == Pending
    requires d.jobs[i].Dispatching? ==> d == c || (c.jobs[i].Charging? && !PaysLater(c.doc))
    requires Refunding(d.jobs[i]) ==> d.jobs[i].before.status != Pending
    ensures OneTicket(d)
  {
    assert TicketOk(c, i) && TicketOk(c, 0);
    forall k | 0 <= k < |d.jobs|
      ensures TicketOk(d, k) && (k != i ==> !d.jobs[k].Dispatching? || !d.jobs[i].Dispatching?)
    {
      assert TicketOk(c, k);
    }
  }

  lemma StepTicket(c: Cell, i: nat, out: Outcome, f: Fulfillment)
    requires OneTicket(c) && i < |c.jobs|
    ensures OneTicket(StepJob(c, i, out, f))
  {
    var d := StepJob(c, i, out, f);
    if c.jobs[i].Charging? || c.jobs[i].Dispatching? || Refunding(c.jobs[i]) {
      HolderTicket(c, i, out, f);
    } else if d != c {
      TicketKept(c, i, d);
    }
  }

  lemma HolderTicket(c: Cell, i: nat, out: Outcome, f: Fulfillment)
    requires OneTicket(c) && i < |c.jobs|
    requires c.jobs[i].Charging? || c.jobs[i].Dispatching? || Refunding(c.jobs[i])
    ensures OneTicket(StepJob(c, i, out, f))
  {
    match c.jobs[i]
    case Charging => ChargeTicket(c, i, out);
    case Dispatching(charged, paid) => DispatchTicket(c, i, charged, paid, out);
    case Crediting(before) => RefundTicket(c, i, before, out);
    case Reverting(before) => RefundTicket(c, i, before, out);
  }

  lemma ChargeTicket(c: Cell, i: nat, out: Outcome)
    requires OneTicket(c) && i < |c.jobs| && c.jobs[i] == Charging
    ensures OneTicket(Charge(c, i, out))
  {
    assert TicketOk(c, i);
    TicketKept(c, i, Charge(c, i, out));
  }

  lemma DispatchTicket(c: Cell, i: nat, charged: bool, paid: bool, out: Outcome)
    requires OneTicket(c) && i < |c.jobs| && c.jobs[i] == Dispatching(charged, paid)
    ensures OneTicket(Dispatch(c, i, charged, paid, out))
  {
    var d := Dispatch(c, i, charged, paid, out);
    assert TicketOk(c, i);
    if d != c {
      var n := DispatchShape(c, i, charged, paid, out);
      TicketKept(c, i, d);
    }
  }

  lemma RefundTicket(c: Cell, i: nat, before: Order, out: Outcome)
    requires OneTicket(c) && i < |c.jobs| && (c.jobs[i] == Crediting(before) || c.jobs[i] == Reverting(before))
    ensures c.jobs[i].Crediting? ==> OneTicket(Credit(c, i, before, out))
    ensures c.jobs[i].Reverting? ==> OneTicket(Revert(c, i, before))
  {
    assert TicketOk(c, i);
    if c.jobs[i].Crediting? {
      TicketKept(c, i, Credit(c, i, before, out));
    } else {
      TicketKept(c, i, Revert(c, i, before));
    }
  }

  /** A thread arrives: a payment claim takes the ticket out of pending, any other brings none. */
  lemma SpawnTicket(c: Cell, d: Cell, j: Job)
    requires OneTicket(c) && d.jobs == c.jobs + [j] && SameTerms(c.doc, d.doc) && d.dispatches == c.dispatches
    requires d.doc.status == Pending ==> c.doc.status == Pending
    requires !j.Charging? && (Refunding(j) ==> j.before.status != Pending)
    requires j.Dispatching? ==> AwaitsPayment(c) && c.doc.status == Pending && d.doc.status != Pending
    ensures OneTicket(d)
  {
    assert d.jobs[0] == c.jobs[0];
    forall k | 0 <= k < |d.jobs|
      ensures TicketOk(d, k)
    {
      if k < |c.jobs| {
        assert TicketOk(c, k) && d.jobs[k] == c.jobs[k];
      }
    }
    forall k | 0 <= k < |c.jobs| && j.Dispatching?
      ensures !c.jobs[k].Dispatching?
    {
      assert TicketOk(c, k);
    }
  }

  lemma SameTicket(c: Cell, doc: Order)
    requires OneTicket(c) && SameTerms(c.doc, doc) && doc.status == c.doc.status
    ensures OneTicket(c.(doc := doc))
  {
    forall k | 0 <= k < |c.jobs|
      ensures TicketOk(c.(doc := doc), k)
    {
      assert TicketOk(c, k);
    }
  }

  lemma ArrivalTicket(c: Cell, a: Action)
    requires OneTicket(c) && !a.Step?
    ensures OneTicket(Apply(c, a))
  {
    var d := Apply(c, a);
    match a
    case Keep(b) => SameTicket(c, Book(c.doc, b));
    case AdminRefund(reason) => if d != c { SpawnTicket(c, d, Crediting(c.doc)); }
    case SupplierReject(reason) => if d != c { SpawnTicket(c, d, Crediting(c.doc)); }
    case Complete(x) => if d != c { SpawnTicket(c, d, Rewarding(false)); }
    case MarkFailed(reason) => if d != c { SpawnTicket(c, d, Returned(Success, false)); }
    case PaidCall(txRef) =>
      if AwaitsPayment(c) {
        SpawnTicket(c, d, if c.doc.status == Pending then Dispatching(false, true) else Rereading);
      }
  }

  /** Unconditionally: however many payment calls, refunds and sweeps, an order is dispatched at most once. */
  lemma {:induction false} DispatchedOnce(o: Order, acts: seq<Action>)
    ensures OneTicket(Run(Created(o), acts)) && Run(Created(o), acts).dispatches <= 1
    decreases |acts|
  {
    if acts != [] {
      var last := |acts| - 1;
      DispatchedOnce(o, acts[..last]);
      var c, a := Run(Created(o), acts[..last]), acts[last];
      if a.Step? {
        if a.i < |c.jobs| {
          StepTicket(c, a.i, a.out, a.copy);
        }
      } else {
        ArrivalTicket(c, a);
      }
    }
  }

  /**
   On-chain settlement. Dispatch runs at most once; a call answers NotPayable
   exactly for an order that failed and holds no codes, and success only for
   one that was fulfilled or queued; so all answered calls agree.
   */
  lemma CalmVerdicts(o: Order, acts: seq<Action>, i: nat)
    requires Calm(Run(Created(o), acts)) && !Run(Created(o), acts).anomalies.overlapped
    requires i < |Run(Created(o), acts).jobs|
    requires Run(Created(o), acts).jobs[i].Returned? && Run(Created(o), acts).jobs[i].paid
    ensures var c := Run(Created(o), acts);
            && c.dispatches <= 1
            && c.jobs[i].verdict != Failure
            && (c.jobs[i].verdict == NotPayable <==> c.doc.status == Failed)
            && (c.jobs[i].verdict == NotPayable ==> c.held == 0 && c.charges == 0)
            && (c.jobs[i].verdict == Success <==> c.doc.status in {Processing, Completed, Refunded})
  {
    var c := Run(Created(o), acts);
    CalmRunHolds(o, acts);
    assert ThreadOk(c, i);
  }

  /** A repeated call, after one has answered, returns the same verdict and changes nothing else. */
  lemma CalmRepeatedCall(o: Order, acts: seq<Action>, i: nat, txRef: string, out: Outcome, copy: Fulfillment)
    requires Calm(Run(Created(o), acts)) && !Run(Created(o), acts).anomalies.overlapped
    requires i < |Run(Created(o), acts).jobs|
    requires Run(Created(o), acts).jobs[i].Returned? && Run(Created(o), acts).jobs[i].paid
    ensures var c := Run(Created(o), acts);
            var d := Run(Created(o), acts + [PaidCall(txRef)] + [Step(|c.jobs|, out, copy)]);
            d == c.(jobs := c.jobs + [c.jobs[i]])
  {
    var c := Run(Created(o), acts);
    CalmRunHolds(o, acts);
    RunExtends(Created(o), acts, PaidCall(txRef));
    RunExtends(Created(o), acts + [PaidCall(txRef)], Step(|c.jobs|, out, copy));
    AnsweredCall(c, i);
    CallRereads(c, txRef, out, copy);
    RereadRepeats(c, i);
  }

  lemma CallRereads(c: Cell, txRef: string, out: Outcome, copy: Fulfillment)
    requires AwaitsPayment(c) && c.doc.status != Pending
    ensures Apply(Apply(c, PaidCall(txRef)), Step(|c.jobs|, out, copy)) == Reread(Spawn(c, Rereading), |c.jobs|)
  {
    assert Spawn(c, Rereading).jobs[|c.jobs|] == Rereading;
  }

  lemma AnsweredCall(c: Cell, i: nat)
    requires Holds(c) && !c.anomalies.overlapped
    requires i < |c.jobs| && c.jobs[i].Returned? && c.jobs[i].paid
    ensures AwaitsPayment(c) && c.doc.status != Pending && c.dispatcher.None?
    ensures c.jobs[i] == Returned(if c.doc.status == Failed then NotPayable else Success, true)
  {
    assert ThreadOk(c, i);
    match c.jobs[i]
    case Returned(verdict, paid) => assert verdict != Failure;
  }

  lemma RereadRepeats(c: Cell, i: nat)
    requires Holds(c) && i < |c.jobs| && c.dispatcher.None?
    requires c.jobs[i] == Returned(if c.doc.status == Failed then NotPayable else Success, true)
    ensures Reread(Spawn(c, Rereading), |c.jobs|) == c.(jobs := c.jobs + [c.jobs[i]])
  {
    var m := Spawn(c, Rereading);
    forall k | 0 <= k < |m.jobs|
      ensures !PaidDispatch(m.jobs[k])
    {
      if k < |c.jobs| {
        assert ThreadOk(c, k);
      }
    }
    assert m.jobs[|c.jobs| := c.jobs[i]] == c.jobs + [c.jobs[i]];
  }

  /** No thread has anything left to do. */
  ghost predicate Quiet(c: Cell) {
    forall i :: 0 <= i < |c.jobs| ==> c.jobs[i].Returned?
  }

  /** An order whose charge stands: served, or failed with its charge lost on the way. */
  predicate Stands(c: Cell) {
    c.doc.status == Processing || c.doc.status == Completed || (c.doc.status == Failed && Lost(c))
  }

  /**
   The money of a wallet order at rest: charged and kept exactly while its charge
   stands; charged and returned, or never charged, otherwise.
   */
  predicate Balanced(c: Cell) {
    && c.credits <= c.charges <= 1
    && c.charges - c.credits == (if Stands(c) then 1 else 0)
    && (c.doc.status == Failed && !c.anomalies.lostDelivery ==> c.held == 0)
  }

  lemma CalmMoneyAtRest(c: Cell)
    requires c.doc.payment == Wallet && c.doc.total > 0 && Inv(c) && Calm(c) && Quiet(c)
    ensures Balanced(c)
  {
    LocksCounted(c);
    QuietLocks(c.jobs);
  }

  lemma {:induction false} QuietLocks(jobs: seq<Job>)
    requires forall i :: 0 <= i < |jobs| ==> jobs[i].Returned?
    ensures RefundsInFlight(jobs) == 0
  {
    if jobs != [] {
      QuietLocks(jobs[..|jobs| - 1]);
    }
  }
}
