/**
 On-chain settlement: which actors, arriving when, take a run off its course.
 The premises here are about the actions of the run, checked as each arrives.
 */
module SettlementPayments {
  import opened Basics
  import opened Orders
  import opened Settlement
  import opened SettlementSafety
  import opened SettlementGuarded
  import opened SettlementTheorems
  import opened SettlementWitnesses

  // ----- without intrusion a run stays calm -----

  /** An order in dispatch is processing. */
  predicate OnCourse(c: Cell) {
    c.dispatcher.Some? ==> c.doc.status == Processing
  }

  lemma ForwardOnCourse(c: Cell, i: nat, out: Outcome, f: Fulfillment)
    requires Books(c) && Calm(c) && i < |c.jobs| && ThreadOk(c, i) && ThreadOk(c, 0) && PaysLater(c.doc)
    requires PaidDispatch(c.jobs[i]) && Forward(c.jobs[i]) && c.doc.status == Processing
    ensures Calm(StepJob(c, i, out, f)) && OnCourse(StepJob(c, i, out, f))
  {
    match c.jobs[i]
    case Dispatching(charged, paid) =>
      assert Calm(Dispatch(c, i, charged, paid, out)) && Dispatch(c, i, charged, paid, out).doc == c.doc;
    case Delivering(paid) => assert Calm(Deliver(c, i, paid, f)) && Deliver(c, i, paid, f).dispatcher.None?;
    case Parking(charged, paid, sends) => assert Calm(Park(c, i, charged, paid, sends, f));
    case _ =>
  }

  lemma BackwardOnCourse(c: Cell, i: nat, out: Outcome, f: Fulfillment)
    requires Books(c) && Calm(c) && i < |c.jobs| && ThreadOk(c, i) && ThreadOk(c, 0) && PaysLater(c.doc)
    requires PaidDispatch(c.jobs[i]) && !Forward(c.jobs[i]) && c.doc.status == Processing
    ensures Calm(StepJob(c, i, out, f)) && OnCourse(StepJob(c, i, out, f))
  {
    match c.jobs[i]
    case Releasing(charged, paid) => assert Calm(Release(c, i, charged, paid)) && Release(c, i, charged, paid).doc == c.doc;
    case Failing(paid) => assert Calm(Fail(c, i, paid)) && Fail(c, i, paid).dispatcher.None?;
    case _ =>
  }

  /** A thread that dispatches no payment disturbs none. */
  lemma AsideOnCourse(c: Cell, i: nat, out: Outcome, f: Fulfillment)
    requires Books(c) && Calm(c) && i < |c.jobs| && ThreadOk(c, i) && ThreadOk(c, 0) && PaysLater(c.doc)
    requires !PaidDispatch(c.jobs[i]) && !Refunding(c.jobs[i]) && OnCourse(c)
    ensures Calm(StepJob(c, i, out, f)) && OnCourse(StepJob(c, i, out, f))
  {
    match c.jobs[i]
    case Charging => assert Calm(Charge(c, i, out)) && OnCourse(Charge(c, i, out));
    case Closing => assert Calm(Close(c, i)) && OnCourse(Close(c, i));
    case _ =>
  }

  lemma RefundOnCourse(c: Cell, i: nat, before: Order, out: Outcome)
    requires Books(c) && Calm(c) && i < |c.jobs| && ThreadOk(c, i) && OnCourse(c)
    ensures c.jobs[i] == Crediting(before) ==> Calm(Credit(c, i, before, out)) && OnCourse(Credit(c, i, before, out))
    ensures c.jobs[i] == Reverting(before) ==> Calm(Revert(c, i, before)) && OnCourse(Revert(c, i, before))
  {
  }

  lemma StepOnCourse(c: Cell, i: nat, out: Outcome, f: Fulfillment)
    requires Holds(c) && Calm(c) && i < |c.jobs| && PaysLater(c.doc) && OnCourse(c)
    ensures Calm(StepJob(c, i, out, f)) && OnCourse(StepJob(c, i, out, f))
  {
    assert ThreadOk(c, i) && ThreadOk(c, 0);
    if PaidDispatch(c.jobs[i]) {
      if Forward(c.jobs[i]) {
        ForwardOnCourse(c, i, out, f);
      } else {
        BackwardOnCourse(c, i, out, f);
      }
    } else if Refunding(c.jobs[i]) {
      RefundOnCourse(c, i, c.jobs[i].before, out);
    } else {
      AsideOnCourse(c, i, out, f);
    }
  }

  lemma WinOnCourse(c: Cell, from: set<Status>, to: Status, e: Event, x: Extra, j: Job)
    requires Calm(c) && OnCourse(c) && |c.jobs| > 0 && !Recall(c.jobs[0])
    requires (Processing !in from || c.dispatcher.None?) && (PaidDispatch(j) ==> to == Processing)
    requires c.dispatcher.Some? ==> c.dispatcher.value < |c.jobs|
    ensures Calm(Win(c, from, to, e, x, j)) && OnCourse(Win(c, from, to, e, x, j))
  {
  }

  lemma ArrivalOnCourse(c: Cell, a: Action)
    requires Holds(c) && Calm(c) && PaysLater(c.doc) && OnCourse(c) && !a.Step? && !(Moves(a) && InFlight(c))
    ensures Calm(Apply(c, a)) && OnCourse(Apply(c, a))
  {
    assert ThreadOk(c, 0);
    assert DispatchOk(c);
    if c.dispatcher.Some? {
      assert PaidDispatch(c.jobs[c.dispatcher.value]);
    }
    match a
    case AdminRefund(reason) =>
      WinOnCourse(c, {Processing, Completed}, Refunded, Event("refunded", reason), NoExtra, Crediting(c.doc));
    case SupplierReject(reason) =>
      WinOnCourse(c, {Processing}, Refunded, Event("refunded", reason), NoExtra, Crediting(c.doc));
    case Complete(x) => WinOnCourse(c, {Processing}, Completed, Event("completed", ""), x, Rewarding(false));
    case MarkFailed(reason) =>
      WinOnCourse(c, {Pending}, Failed, Event("failed", reason), NoExtra, Returned(Success, false));
    case PaidCall(txRef) =>
      WinOnCourse(c, {Pending}, Processing, Event("payment_confirmed", ""), PaidBy(txRef), Dispatching(false, true));
    case Keep(b) =>
  }

  lemma ApplyOnCourse(c: Cell, a: Action)
    requires Holds(c) && Calm(c) && PaysLater(c.doc) && OnCourse(c) && !(Moves(a) && InFlight(c))
    ensures Calm(Apply(c, a)) && OnCourse(Apply(c, a))
  {
    if a.Step? {
      if a.i < |c.jobs| {
        StepOnCourse(c, a.i, a.out, a.copy);
      }
    } else {
      ArrivalOnCourse(c, a);
    }
  }

  lemma UnintrudedPrefix(o: Order, acts: seq<Action>)
    requires Unintruded(o, acts) && acts != []
    ensures Unintruded(o, acts[..|acts| - 1])
    ensures !(Moves(acts[|acts| - 1]) && InFlight(Run(Created(o), acts[..|acts| - 1])))
  {
    var last := |acts| - 1;
    assert forall k :: 0 <= k < last ==> acts[..last][..k] == acts[..k];
  }

  /** The exact actor condition: only a refund, rejection or completion during a dispatch disturbs an on-chain order. */
  lemma {:induction false} UnintrudedIsCalm(o: Order, acts: seq<Action>)
    requires PaysLater(o) && Unintruded(o, acts)
    ensures Calm(Run(Created(o), acts)) && OnCourse(Run(Created(o), acts))
    decreases |acts|
  {
    if acts != [] {
      var last := |acts| - 1;
      UnintrudedPrefix(o, acts);
      UnintrudedIsCalm(o, acts[..last]);
      CalmRunHolds(o, acts[..last]);
      ApplyOnCourse(Run(Created(o), acts[..last]), acts[last]);
    }
  }

  /** In particular expiry sweeps, mark-failed, payment calls and bookkeeping may land anywhere. */
  lemma SweepsLandAnywhere(o: Order, acts: seq<Action>)
    requires PaysLater(o) && forall k :: 0 <= k < |acts| ==> !Moves(acts[k])
    ensures Unintruded(o, acts) && Calm(Run(Created(o), acts))
  {
    UnintrudedIsCalm(o, acts);
  }

  lemma ParkMeetsMove(c: Cell, a: Action, f: Fulfillment)
    requires |c.jobs| == 2 && c.jobs[1] == Parking(false, true, false) && c.doc.status == Processing && Moves(a)
    ensures Apply(Apply(c, a), Step(1, Good, f)).anomalies.overwrote
  {
    MoveWins(c, a);
    ParkMoves(Apply(c, a), 1, f);
  }

  lemma DeliveryMeetsMove(c: Cell, a: Action, f: Fulfillment)
    requires |c.jobs| == 2 && c.jobs[1] == Delivering(true) && c.doc.status == Processing && Moves(a)
    ensures Apply(Apply(c, a), Step(1, Good, f)).anomalies.overwrote
  {
    MoveWins(c, a);
    DeliveryRefused(Apply(c, a), 1, f);
  }

  /**
   And a refund or a completion does: every on-chain order has a run of payment
   calls and steps in which it, landing during the dispatch, is overwritten. A
   supplier's rejection cannot land there: the settler only finds orders with a
   supplier reference or a retry clock, and the park is the first to write either.
   */
  lemma IntrusionDisturbs(o: Order, a: Action) returns (acts: seq<Action>)
    requires PaysLater(o) && (a.AdminRefund? || a.Complete?)
    ensures Plain(acts) && InFlight(Run(Created(o), acts))
    ensures Run(Created(o), acts + [a] + [Step(1, Good, o.fulfillment)]).anomalies.overwrote
  {
    if CodePath(Route(o.items)) {
      acts := AboutToDeliver(o);
      DeliveryMeetsMove(Run(Created(o), acts), a, o.fulfillment);
    } else {
      acts := AboutToPark(o);
      ParkMeetsMove(Run(Created(o), acts), a, o.fulfillment);
    }
    assert PaidDispatch(Run(Created(o), acts).jobs[1]);
    RunExtends(Created(o), acts, a);
    RunExtends(Created(o), acts + [a], Step(1, Good, o.fulfillment));
  }

  // ----- calls apart never overlap -----

  /** No call rereads while another dispatches, and none has. */
  ghost predicate Apart(c: Cell) {
    && !c.anomalies.overlapped
    && forall i, k :: 0 <= i < |c.jobs| && 0 <= k < |c.jobs| ==> !(c.jobs[i].Rereading? && PaidDispatch(c.jobs[k]))
  }

  lemma StepApart(c: Cell, i: nat, out: Outcome, f: Fulfillment)
    requires Apart(c) && i < |c.jobs|
    ensures Apart(StepJob(c, i, out, f))
  {
    if c.jobs[i].Rereading? {
      assert StepJob(c, i, out, f) == Reread(c, i);
    }
  }

  lemma ArrivalApart(c: Cell, a: Action)
    requires Apart(c) && !a.Step? && !(a.PaidCall? && CallOpen(c))
    ensures Apart(Apply(c, a))
  {
    var d := Apply(c, a);
    if a.PaidCall? {
      assert forall i :: 0 <= i < |c.jobs| ==> !PaidDispatch(c.jobs[i]) && !c.jobs[i].Rereading?;
      assert forall i :: 0 <= i < |c.jobs| ==> d.jobs[i] == c.jobs[i];
    }
  }

  lemma ApplyApart(c: Cell, a: Action)
    requires Apart(c) && !(a.PaidCall? && CallOpen(c))
    ensures Apart(Apply(c, a))
  {
    if a.Step? {
      if a.i < |c.jobs| {
        StepApart(c, a.i, a.out, a.copy);
      }
    } else {
      ArrivalApart(c, a);
    }
  }

  lemma CallsApartPrefix(o: Order, acts: seq<Action>)
    requires CallsApart(o, acts) && acts != []
    ensures CallsApart(o, acts[..|acts| - 1])
    ensures !(acts[|acts| - 1].PaidCall? && CallOpen(Run(Created(o), acts[..|acts| - 1])))
  {
    var last := |acts| - 1;
    assert forall k :: 0 <= k < last ==> acts[..last][..k] == acts[..k];
  }

  lemma {:induction false} CallsApartNeverOverlap(o: Order, acts: seq<Action>)
    requires CallsApart(o, acts)
    ensures Apart(Run(Created(o), acts))
    decreases |acts|
  {
    if acts != [] {
      var last := |acts| - 1;
      CallsApartPrefix(o, acts);
      CallsApartNeverOverlap(o, acts[..last]);
      ApplyApart(Run(Created(o), acts[..last]), acts[last]);
    }
  }
}
