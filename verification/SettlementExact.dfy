/**
 The guarantees of order settlement with their exact conditions: which orders
 have them in every run, and for the others what must not happen in the run.
 Every condition can be read off the order, or off the order's state when an
 actor arrives.
 */
module SettlementExact {
  import opened Basics
  import opened Orders
  import opened Settlement
  import opened SettlementSafety
  import opened SettlementGuarded
  import opened SettlementVerdicts
  import opened SettlementTheorems
  import opened SettlementWitnesses
  import opened SettlementPayments

  lemma GuardedLocks(c: Cell, p: Path)
    requires Always(c, p)
    ensures RefundsInFlight(c.jobs) == Holding(c.refunder)
    ensures RewardsInFlight(c.jobs) == Holding(c.rewarder)
  {
    forall i | 0 <= i < |c.jobs|
      ensures Refunding(c.jobs[i]) <==> c.refunder == Some(i)
      ensures c.jobs[i].Rewarding? <==> c.rewarder == Some(i)
    {
      assert Placed(c, i, p);
    }
    RefundsHoldLock(c.jobs, c.refunder);
    RewardsHoldLock(c.jobs, c.rewarder);
  }

  /** A placement whose bridge command was refused after the park: taking the order back, or done with it. */
  predicate TakenBack(j: Job) {
    Recall(j) || j == Returned(Failure, false)
  }

  /** For an order charged at placement, only a refused bridge command can disturb a run. */
  lemma CalmUnlessTakenBack(o: Order, acts: seq<Action>)
    requires !PaysLater(o)
    requires var c := Run(Created(o), acts); Route(o.items) != BridgePath || (|c.jobs| > 0 && !TakenBack(c.jobs[0]))
    ensures Calm(Run(Created(o), acts))
  {
    RunAlways(o, acts);
    CalmUnlessLate(o, acts);
  }

  // ----- money back at most once -----

  ghost predicate CreditedOnce(c: Cell) {
    c.credits + RefundsInFlight(c.jobs) <= 1
  }

  /** Nothing to give back, or no unguarded write can meet a refund. */
  predicate CreditGuarded(o: Order) {
    || o.total == 0
    || if o.payment == Usdt then CodePath(Route(o.items)) else Route(o.items) != BridgePath
  }

  lemma GuardedCredits(o: Order, acts: seq<Action>)
    requires CreditGuarded(o)
    ensures CreditedOnce(Run(Created(o), acts))
  {
    var c := Run(Created(o), acts);
    RunAlways(o, acts);
    if Owed(o) {
      CalmUnlessTakenBack(o, acts);
      CalmSingleCredit(o, acts);
    } else {
      GuardedLocks(c, Route(o.items));
      UnchargedCredits(c, Route(o.items));
    }
  }

  lemma UnchargedCredits(c: Cell, p: Path)
    requires Accounts(c, p) && !Owed(c.doc)
    ensures c.credits + Holding(c.refunder) <= 1
  {
  }

  /**
   Single credit, exactly: counting the refunds that won their transition and have
   not credited yet, money goes back at most once in every run if and only if the
   order costs nothing, or is charged at placement and not a bridge recharge, or
   is paid on-chain and made of codes alone or of codes and manual lines.
   */
  lemma CreditsAtMostOnce(o: Order)
    ensures (forall acts :: CreditedOnce(Run(Created(o), acts))) <==> CreditGuarded(o)
  {
    if CreditGuarded(o) {
      forall acts
        ensures CreditedOnce(Run(Created(o), acts))
      {
        GuardedCredits(o, acts);
      }
    } else if o.payment == Usdt {
      var acts := OverwrittenCreditsTwice(o);
      assert !CreditedOnce(Run(Created(o), acts));
    } else {
      var acts := LateRecallCreditsTwice(o);
      assert !CreditedOnce(Run(Created(o), acts));
    }
  }

  /** Any order charged at placement, bridge recharges too, until its placement takes it back. */
  lemma CreditedOnceUnlessTakenBack(o: Order, acts: seq<Action>)
    requires !PaysLater(o)
    requires var c := Run(Created(o), acts); |c.jobs| > 0 && !TakenBack(c.jobs[0])
    ensures CreditedOnce(Run(Created(o), acts))
  {
    CalmUnlessTakenBack(o, acts);
    CalmSingleCredit(o, acts);
  }

  /**
   After placement has answered success for a wallet order, in every run: money
   is back, or on its way back, exactly while the order is refunded, and the
   order never fails.
   */
  lemma CreditedIffRefunded(o: Order, acts: seq<Action>)
    requires o.payment == Wallet && o.total > 0
    requires |Run(Created(o), acts).jobs| > 0 && Run(Created(o), acts).jobs[0] == Returned(Success, false)
    ensures var c := Run(Created(o), acts);
            && c.charges == 1 && c.doc.status in {Processing, Completed, Refunded}
            && c.credits + RefundsInFlight(c.jobs) == if c.doc.status == Refunded then 1 else 0
  {
    CalmUnlessTakenBack(o, acts);
    CalmCreditedIffRefunded(o, acts);
  }

  // ----- reverts -----

  /** Every refund about to revert finds its order refunded. */
  ghost predicate RevertsMeetRefunded(c: Cell) {
    forall i :: 0 <= i < |c.jobs| && c.jobs[i].Reverting? ==> c.doc.status == Refunded
  }

  /**
   A reverting refund finds its order still refunded and uncredited, and puts the
   remembered status back: in every run of an order charged at placement, unless
   its bridge command was refused after the park.
   */
  lemma RevertRestores(o: Order, acts: seq<Action>, i: nat, out: Outcome, copy: Fulfillment)
    requires !PaysLater(o)
    requires var c := Run(Created(o), acts);
             && (Route(o.items) != BridgePath || (|c.jobs| > 0 && !TakenBack(c.jobs[0])))
             && i < |c.jobs| && c.jobs[i].Reverting?
    ensures var c, d := Run(Created(o), acts), Run(Created(o), acts + [Step(i, out, copy)]);
            && i < |d.jobs|
            && c.doc.status == Refunded && c.credits == 0
            && d.doc.status == c.jobs[i].before.status
            && d.credits == 0 && d.jobs[i] == Returned(Failure, false)
  {
    CalmUnlessTakenBack(o, acts);
    CalmRevertRestores(o, acts, i, out, copy);
  }

  /** Orders whose refunds can never be left reverting over somebody else's write. */
  predicate RevertGuarded(o: Order) {
    o.total == 0 || (o.payment != Usdt && Route(o.items) != BridgePath)
  }

  lemma GuardedReverts(o: Order, acts: seq<Action>, i: nat)
    requires RevertGuarded(o) && i < |Run(Created(o), acts).jobs| && Run(Created(o), acts).jobs[i].Reverting?
    ensures Run(Created(o), acts).doc.status == Refunded
  {
    var c := Run(Created(o), acts);
    if o.total == 0 {
      RunAlways(o, acts);
      assert Placed(c, i, Route(o.items));
      NothingToRevert(c, i, Route(o.items));
    } else {
      CalmUnlessTakenBack(o, acts);
      CalmRunHolds(o, acts);
      RefundHolds(c, i);
    }
  }

  lemma NothingToRevert(c: Cell, i: nat, p: Path)
    requires Accounts(c, p) && i < |c.jobs| && Placed(c, i, p) && c.doc.total == 0
    ensures !c.jobs[i].Reverting?
  {
  }

  /** Reverts, exactly: they always find the order refunded if and only if the order is one of those. */
  lemma RevertsFindRefunded(o: Order)
    ensures (forall acts :: RevertsMeetRefunded(Run(Created(o), acts))) <==> RevertGuarded(o)
  {
    if RevertGuarded(o) {
      forall acts
        ensures RevertsMeetRefunded(Run(Created(o), acts))
      {
        forall i | 0 <= i < |Run(Created(o), acts).jobs| && Run(Created(o), acts).jobs[i].Reverting?
          ensures Run(Created(o), acts).doc.status == Refunded
        {
          GuardedReverts(o, acts, i);
        }
      }
    } else {
      var acts := BlockedRevert(o);
      assert !RevertsMeetRefunded(Run(Created(o), acts));
    }
  }

  lemma BlockedRevert(o: Order) returns (acts: seq<Action>)
    requires !RevertGuarded(o)
    ensures var c := Run(Created(o), acts);
            exists i :: 0 <= i < |c.jobs| && c.jobs[i].Reverting? && c.doc.status != Refunded
  {
    if o.payment != Usdt {
      acts := LateRecallBlocksRevert(o);
      assert Run(Created(o), acts).jobs[1].Reverting?;
    } else {
      if CodePath(Route(o.items)) {
        acts := FailBlocksRevert(o);
      } else {
        acts := ParkBlocksRevert(o);
      }
      assert Run(Created(o), acts).jobs[2].Reverting?;
    }
  }

  // ----- effects of a completion -----

  ghost predicate AwardedOnce(c: Cell) {
    c.awards + RewardsInFlight(c.jobs) <= 1
  }

  /** An awarded order is past processing. */
  predicate AwardIsFinal(c: Cell) {
    c.awards >= 1 ==> c.doc.status != Pending && c.doc.status != Processing
  }

  /** For these orders, in every run: at most one award, a final one, and none missing from a completed order. */
  lemma GuardedAwards(o: Order, acts: seq<Action>)
    requires Guarded(o, Route(o.items))
    ensures AwardedOnce(Run(Created(o), acts)) && AwardIsFinal(Run(Created(o), acts))
    ensures var c := Run(Created(o), acts); c.doc.status == Completed ==> c.awards + RewardsInFlight(c.jobs) == 1
  {
    RunAlways(o, acts);
    GuardedLocks(Run(Created(o), acts), Route(o.items));
  }

  /**
   Completion effects, exactly: they happen at most once in every run if and only
   if the order is charged at placement, or paid on-chain and made of codes alone
   or of codes and manual lines.
   */
  lemma AwardsAtMostOnce(o: Order)
    ensures (forall acts :: AwardedOnce(Run(Created(o), acts))) <==> Guarded(o, Route(o.items))
  {
    if Guarded(o, Route(o.items)) {
      forall acts
        ensures AwardedOnce(Run(Created(o), acts))
      {
        GuardedAwards(o, acts);
      }
    } else {
      var acts := OverwrittenAwardsTwice(o);
      assert !AwardedOnce(Run(Created(o), acts));
    }
  }

  /** For the same orders, and no others, an award is final: in no run is an awarded order processing again. */
  lemma AwardsAreFinal(o: Order)
    ensures (forall acts :: AwardIsFinal(Run(Created(o), acts))) <==> Guarded(o, Route(o.items))
  {
    if Guarded(o, Route(o.items)) {
      forall acts
        ensures AwardIsFinal(Run(Created(o), acts))
      {
        GuardedAwards(o, acts);
      }
    } else {
      var acts := ParkReopens(o);
      assert !AwardIsFinal(Run(Created(o), acts));
    }
  }

  /** Once awarded, no continuation of any run brings such an order back to processing or awards it again. */
  lemma NeverReprocessed(o: Order, acts: seq<Action>, more: seq<Action>)
    requires Guarded(o, Route(o.items)) && Run(Created(o), acts).awards >= 1
    ensures var d := Run(Created(o), acts + more);
            d.awards == 1 && d.doc.status != Processing && d.doc.status != Pending
  {
    LaterAwards(Created(o), acts, more);
    GuardedAwards(o, acts + more);
  }

  /** Any on-chain order, as long as nobody moves it during its dispatch: effects once, and a completion never without them. */
  lemma UnintrudedAwards(o: Order, acts: seq<Action>)
    requires PaysLater(o) && Unintruded(o, acts)
    ensures var c := Run(Created(o), acts);
            && AwardedOnce(c) && AwardIsFinal(c) && CreditedOnce(c)
            && (c.doc.status == Completed ==> c.awards + RewardsInFlight(c.jobs) == 1)
  {
    UnintrudedIsCalm(o, acts);
    CalmAwardOnce(o, acts);
    CalmSingleCredit(o, acts);
  }

  /** And its refunds revert as they should: into an order still refunded, whose remembered status comes back. */
  lemma UnintrudedReverts(o: Order, acts: seq<Action>, i: nat, out: Outcome, copy: Fulfillment)
    requires PaysLater(o) && Unintruded(o, acts)
    requires i < |Run(Created(o), acts).jobs| && Run(Created(o), acts).jobs[i].Reverting?
    ensures var c, d := Run(Created(o), acts), Run(Created(o), acts + [Step(i, out, copy)]);
            && i < |d.jobs|
            && c.doc.status == Refunded && c.credits == 0
            && d.doc.status == c.jobs[i].before.status
            && d.credits == 0 && d.jobs[i] == Returned(Failure, false)
  {
    UnintrudedIsCalm(o, acts);
    CalmRevertRestores(o, acts, i, out, copy);
  }

  // ----- the money of a wallet order at rest -----

  /** Once nobody is at work on it, the charge stands exactly as it should, unless a refused bridge recharge was taken back. */
  lemma MoneyAtRest(o: Order, acts: seq<Action>)
    requires o.payment == Wallet && o.total > 0
    requires var c := Run(Created(o), acts);
             Quiet(c) && (Route(o.items) != BridgePath || (|c.jobs| > 0 && !TakenBack(c.jobs[0])))
    ensures Balanced(Run(Created(o), acts))
  {
    CalmUnlessTakenBack(o, acts);
    CalmRunHolds(o, acts);
    CalmMoneyAtRest(Run(Created(o), acts));
  }

  /** Exactly: every run that comes to rest is balanced if and only if the order is not a bridge recharge. */
  lemma BalancedExactly(o: Order)
    requires o.payment == Wallet && o.total > 0
    ensures (forall acts :: Quiet(Run(Created(o), acts)) ==> Balanced(Run(Created(o), acts))) <==> Route(o.items) != BridgePath
  {
    if Route(o.items) != BridgePath {
      forall acts | Quiet(Run(Created(o), acts))
        ensures Balanced(Run(Created(o), acts))
      {
        MoneyAtRest(o, acts);
      }
    } else {
      var acts := LateRecallAtRest(o);
      assert Quiet(Run(Created(o), acts)) && !Balanced(Run(Created(o), acts));
    }
  }

  // ----- on-chain verdicts -----

  /** Every answered payment call says NotPayable exactly for a failed order, which then holds no codes and was charged nothing. */
  ghost predicate VerdictsRight(c: Cell) {
    forall i :: 0 <= i < |c.jobs| && c.jobs[i].Returned? && c.jobs[i].paid ==>
      && c.jobs[i].verdict != Failure
      && (c.jobs[i].verdict == NotPayable <==> c.doc.status == Failed)
      && (c.jobs[i].verdict == NotPayable ==> c.held == 0 && c.charges == 0)
      && (c.jobs[i].verdict == Success <==> c.doc.status in {Processing, Completed, Refunded})
  }

  /**
   Payment calls apart, and nobody moving the order during its dispatch: one
   dispatch at most, and every answer right, wherever expiry sweeps, mark-failed,
   and later refunds and completions land.
   */
  lemma PaymentVerdicts(o: Order, acts: seq<Action>)
    requires PaysLater(o) && CallsApart(o, acts) && Unintruded(o, acts)
    ensures Run(Created(o), acts).dispatches <= 1 && VerdictsRight(Run(Created(o), acts))
  {
    DispatchedOnce(o, acts);
    UnintrudedIsCalm(o, acts);
    CallsApartNeverOverlap(o, acts);
    forall i | 0 <= i < |Run(Created(o), acts).jobs| && Run(Created(o), acts).jobs[i].Returned? && Run(Created(o), acts).jobs[i].paid
    {
      CalmVerdicts(o, acts, i);
    }
  }

  lemma AgreedVerdicts(c: Cell)
    requires Agreed(c) && !c.anomalies.overlapped
    ensures VerdictsRight(c)
  {
    forall i | 0 <= i < |c.jobs| && c.jobs[i].Returned? && c.jobs[i].paid
      ensures c.jobs[i] == Returned(if c.doc.status == Failed then NotPayable else Success, true)
      ensures c.doc.status != Pending
    {
      assert Answers(c, i);
      match c.jobs[i]
      case Returned(verdict, paid) => assert verdict != Failure;
    }
  }

  /** Codes ready for an order completed by hand meanwhile: the call answers not payable for a completed order. */
  lemma WrongVerdict(o: Order) returns (acts: seq<Action>)
    requires PaysLater(o) && CodePath(Route(o.items))
    ensures CallsApart(o, acts) && !VerdictsRight(Run(Created(o), acts))
  {
    acts := AboutToDeliver(o);
    MoveWins(Run(Created(o), acts), Complete(NoExtra));
    ApartExtends(o, acts, Complete(NoExtra));
    acts := Extend(o, acts, Complete(NoExtra));
    DeliveryRefused(Run(Created(o), acts), 1, o.fulfillment);
    ApartExtends(o, acts, Step(1, Good, o.fulfillment));
    acts := Extend(o, acts, Step(1, Good, o.fulfillment));
    assert Run(Created(o), acts).jobs[1] == Returned(NotPayable, true);
  }

  /**
   Without the premise on the other actors, exactly: calls apart always answer
   right if and only if the order's dispatch records no codes.
   */
  lemma VerdictsAlwaysRight(o: Order)
    requires PaysLater(o)
    ensures (forall acts :: CallsApart(o, acts) ==> VerdictsRight(Run(Created(o), acts))) <==> !CodePath(Route(o.items))
  {
    if !CodePath(Route(o.items)) {
      forall acts | CallsApart(o, acts)
        ensures VerdictsRight(Run(Created(o), acts))
      {
        RunAgreed(o, acts);
        CallsApartNeverOverlap(o, acts);
        AgreedVerdicts(Run(Created(o), acts));
      }
    } else {
      var acts := WrongVerdict(o);
      assert CallsApart(o, acts) && !VerdictsRight(Run(Created(o), acts));
    }
  }

  /** A call made after one has answered returns the same verdict and changes nothing else. */
  lemma RepeatedCall(o: Order, acts: seq<Action>, i: nat, txRef: string, out: Outcome, copy: Fulfillment)
    requires PaysLater(o) && CallsApart(o, acts) && Unintruded(o, acts)
    requires i < |Run(Created(o), acts).jobs|
    requires Run(Created(o), acts).jobs[i].Returned? && Run(Created(o), acts).jobs[i].paid
    ensures var c := Run(Created(o), acts);
            var d := Run(Created(o), acts + [PaidCall(txRef)] + [Step(|c.jobs|, out, copy)]);
            d == c.(jobs := c.jobs + [c.jobs[i]])
  {
    UnintrudedIsCalm(o, acts);
    CallsApartNeverOverlap(o, acts);
    CalmRepeatedCall(o, acts, i, txRef, out, copy);
  }
}
