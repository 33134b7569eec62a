/**
 One order in both machines at once, over whole runs: its dispatching thread takes
 the same steps in the pool's protocol and in the settlement machine, while
 everyone else works on the pool and on the order's document.
 */
module DispatchRuns {
  import opened Basics
  import opened Orders
  import opened Codes
  import opened DispatchCodes
  import S = Settlement
  import P = PoolProtocol
  import PoolSafety
  import SettlementSafety
  import T = SettlementTheorems
  import E = SettlementExact

  /** What has happened so far in each machine. */
  datatype History = History(pool: seq<P.Action>, order: seq<S.Action>)

  /** The dispatching thread's next step, anyone's work on the pool, or anyone else's on the document. */
  datatype Move =
    | Own(step: P.Step, back: S.Outcome, copy: Fulfillment)
    | Pool(work: P.Action)
    | Document(write: S.Action)

  /** The thread is on its way through the dispatch; its steps are steps of both machines. */
  predicate Driven(p: P.Phase) {
    p.Waiting? || p.Claiming? || p.Recording? || p.Parking? || p.Sending? || p.Freeing? || p.Closing?
  }

  /** Thread i's steps with these outcomes, one after another. */
  function Played(i: nat, outs: seq<S.Outcome>, f: Fulfillment): seq<S.Action> {
    if outs == [] then [] else Played(i, outs[..|outs| - 1], f) + [S.Step(i, outs[|outs| - 1], f)]
  }

  /** The order's document is one: a status written in the settlement machine is seen by the pool's. */
  function Extended(h: History, ord: Order, o: OrderId, i: nat, m: Move): History {
    var s, c := P.Run(h.pool), S.Run(S.Created(ord), h.order);
    if o >= |s.entries| || i >= |c.jobs| then h
    else
      match m
      case Own(step, back, copy) =>
        if step.Move? then h
        else History(h.pool + [P.Advance(o, step)], h.order + Played(i, Outcomes(s, o, step, c.jobs[i], back), copy))
      case Pool(a) => if a.Advance? && a.o == o then h else h.(pool := h.pool + [a])
      case Document(a) =>
        if a.Step? && a.i == i && Driven(s.entries[o].phase) then h
        else History(h.pool + [P.Advance(o, P.Move(S.Apply(c, a).doc.status))], h.order + [a])
  }

  function Joint(h: History, ord: Order, o: OrderId, i: nat, moves: seq<Move>): History {
    if moves == [] then h else Extended(Joint(h, ord, o, i, moves[..|moves| - 1]), ord, o, i, moves[|moves| - 1])
  }

  // ----- no other thread handles the codes -----

  /** About to dispatch, or able to change how many codes are held later. */
  predicate Handles(j: S.Job) {
    j.Charging? || j.Dispatching? || Handling(j)
  }

  predicate Handling(j: S.Job) {
    j.Parking? || j.Sending? || j.Releasing? || j.Recalling?
  }

  /** Thread i has the order's one ticket to dispatch, or has used it; no other thread handles the codes. */
  ghost predicate Alone(c: S.Cell, i: nat) {
    && i < |c.jobs| && T.OneTicket(c) && (c.jobs[i].Dispatching? || c.dispatches >= 1)
    && forall k :: 0 <= k < |c.jobs| && k != i ==> !Handles(c.jobs[k])
  }

  /** The last writes of a dispatch, and the steps of the actors that follow it. */
  predicate Writes(j: S.Job) {
    j.Closing? || j.Delivering? || j.Finishing? || j.Failing?
  }

  predicate Repays(j: S.Job) {
    j.Reversing? || j.Repaying? || j.Withdrawing? || j.Rewarding?
  }

  lemma WriteAside(c: S.Cell, k: nat, out: S.Outcome, f: Fulfillment)
    requires k < |c.jobs| && Writes(c.jobs[k])
    ensures var d := S.StepJob(c, k, out, f); d.held == c.held && !Handles(d.jobs[k])
  {
  }

  lemma RepayAside(c: S.Cell, k: nat, out: S.Outcome, f: Fulfillment)
    requires k < |c.jobs| && Repays(c.jobs[k])
    ensures var d := S.StepJob(c, k, out, f); d.held == c.held && !Handles(d.jobs[k])
  {
  }

  lemma ActorAside(c: S.Cell, k: nat, out: S.Outcome, f: Fulfillment)
    requires k < |c.jobs| && !Handles(c.jobs[k]) && !Writes(c.jobs[k]) && !Repays(c.jobs[k])
    ensures var d := S.StepJob(c, k, out, f); d.held == c.held && !Handles(d.jobs[k])
  {
  }

  lemma StepAside(c: S.Cell, k: nat, out: S.Outcome, f: Fulfillment, d: S.Cell)
    requires k < |c.jobs| && !Handles(c.jobs[k]) && d == S.StepJob(c, k, out, f)
    ensures d.held == c.held && !Handles(d.jobs[k])
  {
    if Writes(c.jobs[k]) {
      WriteAside(c, k, out, f);
    } else if Repays(c.jobs[k]) {
      RepayAside(c, k, out, f);
    } else {
      ActorAside(c, k, out, f);
    }
  }

  /** What work on the document by someone other than thread i leaves as it is. */
  predicate Spared(c: S.Cell, d: S.Cell, i: nat) {
    && i < |c.jobs| && i < |d.jobs| && d.jobs[i] == c.jobs[i] && d.held == c.held && d.doc.items == c.doc.items
    && (d.doc.status == Pending ==> c.doc.status == Pending)
  }

  lemma TicketStays(c: S.Cell, a: S.Action)
    requires T.OneTicket(c)
    ensures T.OneTicket(S.Apply(c, a))
  {
    if a.Step? {
      if a.i < |c.jobs| {
        T.StepTicket(c, a.i, a.out, a.copy);
      }
    } else {
      T.ArrivalTicket(c, a);
    }
  }

  lemma StepSpares(c: S.Cell, i: nat, k: nat, out: S.Outcome, f: Fulfillment)
    requires Alone(c, i) && k < |c.jobs| && k != i
    ensures Spared(c, S.StepJob(c, k, out, f), i) && Alone(S.StepJob(c, k, out, f), i)
  {
    StepAside(c, k, out, f, S.StepJob(c, k, out, f));
    T.StepTicket(c, k, out, f);
    assert T.TicketOk(c, k);
    NeverPendingAgain(c, k, out, f);
  }

  /** No step brings an order back to pending. */
  lemma NeverPendingAgain(c: S.Cell, k: nat, out: S.Outcome, f: Fulfillment)
    requires k < |c.jobs| && T.TicketOk(c, k)
    ensures S.StepJob(c, k, out, f).doc.status == Pending ==> c.doc.status == Pending
  {
    if c.jobs[k].Charging? || c.jobs[k].Dispatching? {
      TicketStep(c, k, out, f);
    } else if S.Refunding(c.jobs[k]) {
      RefundNotPending(c, k, out, f);
    }
  }

  lemma RefundNotPending(c: S.Cell, k: nat, out: S.Outcome, f: Fulfillment)
    requires k < |c.jobs| && T.TicketOk(c, k) && S.Refunding(c.jobs[k])
    ensures S.StepJob(c, k, out, f).doc.status == Pending ==> c.doc.status == Pending
  {
    match c.jobs[k]
    case Crediting(before) => assert S.StepJob(c, k, out, f) == S.Credit(c, k, before, out);
    case Reverting(before) => assert S.StepJob(c, k, out, f) == S.Revert(c, k, before);
  }

  /** A charge or a dispatch leaves the status, and only a dispatch counts codes. */
  lemma TicketStep(c: S.Cell, i: nat, out: S.Outcome, f: Fulfillment)
    requires i < |c.jobs| && (c.jobs[i].Charging? || c.jobs[i].Dispatching?)
    ensures var d := S.StepJob(c, i, out, f);
            && d.doc.status == c.doc.status
            && (d == c || d.dispatches > 0 || (d.held == c.held && !Handling(d.jobs[i])))
            && (c.jobs[i].Charging? || !Claims(c.doc.items) ==> d.held == c.held)
  {
    match c.jobs[i]
    case Charging => assert S.StepJob(c, i, out, f) == S.Charge(c, i, out);
    case Dispatching(charged, paid) => DispatchTicketStep(c, i, charged, paid, out);
  }

  lemma DispatchTicketStep(c: S.Cell, i: nat, charged: bool, paid: bool, out: S.Outcome)
    requires i < |c.jobs|
    ensures var d := S.Dispatch(c, i, charged, paid, out);
            && d.doc.status == c.doc.status && (d == c || d.dispatches > 0) && (!Claims(c.doc.items) ==> d.held == c.held)
  {
  }

  lemma HandlingStep(c: S.Cell, k: nat, out: S.Outcome, f: Fulfillment)
    requires k < |c.jobs| && Handling(c.jobs[k])
    ensures S.StepJob(c, k, out, f).held in {0, c.held}
  {
  }

  lemma ArrivalSpares(c: S.Cell, i: nat, a: S.Action)
    requires Alone(c, i) && !a.Step?
    ensures Spared(c, S.Apply(c, a), i) && Alone(S.Apply(c, a), i)
  {
    var d := S.Apply(c, a);
    TicketStays(c, a);
    ArrivalShape(c, a);
    if |d.jobs| > |c.jobs| {
      assert T.TicketOk(d, |c.jobs|) && T.TicketOk(d, i);
    }
  }

  /** At most one thread more, which may have the ticket but does not handle codes yet. */
  predicate Arrived(c: S.Cell, d: S.Cell) {
    && d.held == c.held && d.dispatches == c.dispatches && (d.doc.status == Pending ==> c.doc.status == Pending)
    && (d.jobs == c.jobs
        || (|d.jobs| == |c.jobs| + 1 && d.jobs[..|c.jobs|] == c.jobs
            && !d.jobs[|c.jobs|].Charging? && !Handling(d.jobs[|c.jobs|])))
  }

  lemma WinArrives(c: S.Cell, from: set<Status>, to: Status, e: Event, x: Extra, j: S.Job)
    requires to != Pending && !j.Charging? && !Handling(j)
    ensures Arrived(c, S.Win(c, from, to, e, x, j))
  {
    match Transition(c.doc, from, to, e, x)
    case Some(doc) => SpawnArrives(c, S.Late(c, |c.jobs| > 0 && S.Recall(c.jobs[0])).(doc := doc), j);
    case None =>
  }

  lemma SpawnArrives(c: S.Cell, m: S.Cell, j: S.Job)
    requires m.jobs == c.jobs && m.held == c.held && m.dispatches == c.dispatches && m.doc.status != Pending
    requires !j.Charging? && !Handling(j)
    ensures Arrived(c, S.Spawn(m, j))
  {
  }

  lemma ArrivalShape(c: S.Cell, a: S.Action)
    requires !a.Step?
    ensures Arrived(c, S.Apply(c, a))
  {
    match a
    case AdminRefund(reason) =>
      WinArrives(c, {Processing, Completed}, Refunded, Event("refunded", reason), NoExtra, S.Crediting(c.doc));
    case SupplierReject(reason) =>
      WinArrives(c, {Processing}, Refunded, Event("refunded", reason), NoExtra, S.Crediting(c.doc));
    case Complete(x) => WinArrives(c, {Processing}, Completed, Event("completed", ""), x, S.Rewarding(false));
    case MarkFailed(reason) =>
      WinArrives(c, {Pending}, Failed, Event("failed", reason), NoExtra, S.Returned(S.Success, false));
    case PaidCall(txRef) =>
      WinArrives(c, {Pending}, Processing, Event("payment_confirmed", ""), PaidBy(txRef), S.Dispatching(false, true));
    case Keep(b) =>
  }

  /** The ticket holder's own steps leave it alone with the codes. */
  lemma OwnStepAlone(c: S.Cell, i: nat, out: S.Outcome, f: Fulfillment)
    requires Alone(c, i)
    ensures Alone(S.Apply(c, S.Step(i, out, f)), i)
  {
    TicketStays(c, S.Step(i, out, f));
  }

  lemma {:induction false} OwnStepsAlone(c: S.Cell, i: nat, outs: seq<S.Outcome>, f: Fulfillment)
    requires Alone(c, i)
    ensures Alone(Steps(c, i, outs, f), i)
  {
    if outs != [] {
      var last := |outs| - 1;
      OwnStepsAlone(c, i, outs[..last], f);
      OwnStepAlone(Steps(c, i, outs[..last], f), i, outs[last], f);
    }
  }

  lemma {:induction false} PlayedRuns(c: S.Cell, acts: seq<S.Action>, i: nat, outs: seq<S.Outcome>, f: Fulfillment)
    ensures S.Run(c, acts + Played(i, outs, f)) == Steps(S.Run(c, acts), i, outs, f)
  {
    if outs == [] {
      assert acts + [] == acts;
    } else {
      var last := |outs| - 1;
      PlayedRuns(c, acts, i, outs[..last], f);
      T.RunExtends(c, acts + Played(i, outs[..last], f), S.Step(i, outs[last], f));
      assert acts + Played(i, outs, f) == acts + Played(i, outs[..last], f) + [S.Step(i, outs[last], f)];
    }
  }

  // ----- work on the document -----

  /** Someone else wrote the document: the entry with the new status still matches. */
  lemma SparedMatches(e: P.Entry, owned: nat, c: S.Cell, d: S.Cell, i: nat)
    requires Matches(e, owned, c, i) && Spared(c, d, i)
    ensures Matches(e.(status := d.doc.status), owned, d, i)
  {
  }

  /** Past its dispatch, or on a path without codes, the thread's own steps change no count either. */
  lemma UndrivenStep(e: P.Entry, owned: nat, c: S.Cell, i: nat, out: S.Outcome, f: Fulfillment)
    requires Matches(e, owned, c, i) && !Driven(e.phase)
    ensures Matches(e.(status := S.StepJob(c, i, out, f).doc.status), owned, S.StepJob(c, i, out, f), i)
  {
    if e.phase.Codeless? {
      CodelessStep(c, i, out, f);
    }
  }

  lemma CodelessStep(c: S.Cell, i: nat, out: S.Outcome, f: Fulfillment)
    requires i < |c.jobs| && c.held == 0 && (c.jobs[i].Returned? || !Claims(c.doc.items))
    ensures var d := S.StepJob(c, i, out, f);
            d.held == 0 && (d.jobs[i].Returned? || !Claims(d.doc.items)) && d.doc.items == c.doc.items
  {
    if Handling(c.jobs[i]) {
      HandlingStep(c, i, out, f);
    } else if Handles(c.jobs[i]) {
      TicketStep(c, i, out, f);
    } else {
      StepAside(c, i, out, f, S.StepJob(c, i, out, f));
    }
  }

  /** The pool's protocol sees the new status and nothing else; none is pending that was not. */
  lemma MoveSeen(s: P.State, o: OrderId, to: Status)
    requires o < |s.entries| && (to == Pending ==> s.entries[o].status == Pending)
    ensures var s' := P.OrderStep(s, o, P.Move(to));
            |s'.entries| == |s.entries| && s'.entries[o] == s.entries[o].(status := to) && Owned(s', o) == Owned(s, o)
  {
  }

  // ----- joint runs -----

  /** The two machines agree on the order, and thread i is alone with its codes. */
  ghost predicate Agree(s: P.State, c: S.Cell, o: OrderId, i: nat) {
    o < |s.entries| && Alone(c, i) && Matches(s.entries[o], Owned(s, o), c, i)
  }

  ghost predicate Joined(h: History, ord: Order, o: OrderId, i: nat) {
    Agree(P.Run(h.pool), S.Run(S.Created(ord), h.order), o, i)
  }

  lemma OwnKeeps(h: History, ord: Order, o: OrderId, i: nat, step: P.Step, back: S.Outcome, f: Fulfillment)
    requires Joined(h, ord, o, i) && !step.Move?
    ensures Joined(Extended(h, ord, o, i, Own(step, back, f)), ord, o, i)
  {
    var s, c := P.Run(h.pool), S.Run(S.Created(ord), h.order);
    var outs := Outcomes(s, o, step, c.jobs[i], back);
    DispatchHoldsRows(h.pool, o, step, c, i, back, f);
    PlayedRuns(S.Created(ord), h.order, i, outs, f);
    OwnStepsAlone(c, i, outs, f);
  }

  lemma PoolKeeps(h: History, ord: Order, o: OrderId, i: nat, a: P.Action)
    requires Joined(h, ord, o, i) && (a.Advance? ==> a.o != o)
    ensures Joined(h.(pool := h.pool + [a]), ord, o, i)
  {
    OthersKeepRows(h.pool, o, a, S.Run(S.Created(ord), h.order), i);
  }

  lemma DocumentMatches(e: P.Entry, owned: nat, c: S.Cell, i: nat, a: S.Action)
    requires Alone(c, i) && Matches(e, owned, c, i) && !(a.Step? && a.i == i && Driven(e.phase))
    ensures var d := S.Apply(c, a);
            Alone(d, i) && Matches(e.(status := d.doc.status), owned, d, i) && (d.doc.status == Pending ==> c.doc.status == Pending)
  {
    if !a.Step? {
      ArrivalSpares(c, i, a);
      SparedMatches(e, owned, c, S.Apply(c, a), i);
    } else if a.i == i {
      UndrivenStep(e, owned, c, i, a.out, a.copy);
      OwnStepAlone(c, i, a.out, a.copy);
      assert T.TicketOk(c, i);
      NeverPendingAgain(c, i, a.out, a.copy);
    } else if a.i < |c.jobs| {
      StepSpares(c, i, a.i, a.out, a.copy);
      SparedMatches(e, owned, c, S.Apply(c, a), i);
    } else {
      SparedMatches(e, owned, c, c, i);
    }
  }

  lemma DocumentAgrees(s: P.State, c: S.Cell, o: OrderId, i: nat, a: S.Action)
    requires Agree(s, c, o, i) && !(a.Step? && a.i == i && Driven(s.entries[o].phase))
    ensures Agree(P.OrderStep(s, o, P.Move(S.Apply(c, a).doc.status)), S.Apply(c, a), o, i)
  {
    DocumentMatches(s.entries[o], Owned(s, o), c, i, a);
    MoveSeen(s, o, S.Apply(c, a).doc.status);
  }

  lemma MoveRuns(acts: seq<P.Action>, o: OrderId, to: Status)
    requires o < |P.Run(acts).entries|
    ensures P.Run(acts + [P.Advance(o, P.Move(to))]) == P.OrderStep(P.Run(acts), o, P.Move(to))
  {
    assert (acts + [P.Advance(o, P.Move(to))])[..|acts|] == acts;
  }

  lemma DocumentKeeps(h: History, ord: Order, o: OrderId, i: nat, a: S.Action)
    requires Joined(h, ord, o, i)
    ensures Joined(Extended(h, ord, o, i, Document(a)), ord, o, i)
  {
    var s, c := P.Run(h.pool), S.Run(S.Created(ord), h.order);
    if !(a.Step? && a.i == i && Driven(s.entries[o].phase)) {
      DocumentAgrees(s, c, o, i, a);
      MoveRuns(h.pool, o, S.Apply(c, a).doc.status);
      T.RunExtends(S.Created(ord), h.order, a);
    }
  }

  lemma {:induction false} JointKeeps(h: History, ord: Order, o: OrderId, i: nat, moves: seq<Move>)
    requires Joined(h, ord, o, i)
    ensures Joined(Joint(h, ord, o, i, moves), ord, o, i)
  {
    if moves != [] {
      var last := |moves| - 1;
      var m := Joint(h, ord, o, i, moves[..last]);
      JointKeeps(h, ord, o, i, moves[..last]);
      match moves[last]
      case Own(step, back, copy) => if !step.Move? { OwnKeeps(m, ord, o, i, step, back, copy); }
      case Pool(a) => if !(a.Advance? && a.o == o) { PoolKeeps(m, ord, o, i, a); }
      case Document(a) => DocumentKeeps(m, ord, o, i, a);
    }
  }

  // ----- the start of a dispatch -----

  /** Until it is dispatched an order holds no codes, and no thread handles any. */
  ghost predicate Untouched(c: S.Cell) {
    c.dispatches == 0 ==> c.held == 0 && forall k :: 0 <= k < |c.jobs| ==> !Handling(c.jobs[k])
  }

  lemma UntouchedStep(c: S.Cell, i: nat, out: S.Outcome, f: Fulfillment)
    requires i < |c.jobs| && c.held == 0 && !Handling(c.jobs[i])
    ensures var d := S.StepJob(c, i, out, f); d.dispatches == 0 ==> d.held == 0 && !Handling(d.jobs[i])
  {
    if Handles(c.jobs[i]) {
      TicketStep(c, i, out, f);
    } else {
      StepAside(c, i, out, f, S.StepJob(c, i, out, f));
    }
  }

  lemma UntouchedKept(c: S.Cell, a: S.Action)
    requires Untouched(c)
    ensures Untouched(S.Apply(c, a))
  {
    if c.dispatches == 0 {
      if !a.Step? {
        ArrivalShape(c, a);
      } else if a.i < |c.jobs| {
        UntouchedStep(c, a.i, a.out, a.copy);
      }
    }
  }

  lemma {:induction false} RunUntouched(ord: Order, acts: seq<S.Action>)
    ensures Untouched(S.Run(S.Created(ord), acts))
    decreases |acts|
  {
    if acts != [] {
      RunUntouched(ord, acts[..|acts| - 1]);
      UntouchedKept(S.Run(S.Created(ord), acts[..|acts| - 1]), acts[|acts| - 1]);
    }
  }

  /** Anywhere in the lives of the pool and of the order, a thread is about to dispatch it. */
  predicate Starts(h: History, ord: Order, o: OrderId, i: nat) {
    var s, c := P.Run(h.pool), S.Run(S.Created(ord), h.order);
    && o < |s.entries| && s.entries[o].phase == P.Waiting
    && s.entries[o].items == c.doc.items && s.entries[o].status == c.doc.status
    && i < |c.jobs| && c.jobs[i].Dispatching?
  }

  lemma StartJoins(h: History, ord: Order, o: OrderId, i: nat)
    requires Starts(h, ord, o, i)
    ensures Joined(h, ord, o, i)
  {
    var c := S.Run(S.Created(ord), h.order);
    T.DispatchedOnce(ord, h.order);
    RunUntouched(ord, h.order);
    assert T.TicketOk(c, i);
    forall k | 0 <= k < |c.jobs| && k != i
      ensures !Handles(c.jobs[k])
    {
      assert T.TicketOk(c, k);
    }
  }

  // ----- what is counted is what is owned -----

  /**
   From the start of a dispatch on, in every joint run: once the claims are through
   and unless the codes are just being given back, the codes the settlement machine
   counts as held are exactly the rows the order owns.
   */
  lemma HeldAreOwned(h: History, ord: Order, o: OrderId, i: nat, moves: seq<Move>)
    requires Starts(h, ord, o, i)
    ensures var r := Joint(h, ord, o, i, moves);
            var s, c := P.Run(r.pool), S.Run(S.Created(ord), r.order);
            && o < |s.entries| && i < |c.jobs| && s.entries[o].status == c.doc.status
            && (PoolSafety.ClaimsThrough(s.entries[o]) ==> c.held == |OwnedIds(s.pool, o)|)
            && (c.jobs[i].Returned? ==> c.held == |OwnedIds(s.pool, o)|)
  {
    StartJoins(h, ord, o, i);
    JointKeeps(h, ord, o, i, moves);
    var r := Joint(h, ord, o, i, moves);
    var s, c := P.Run(r.pool), S.Run(S.Created(ord), r.order);
    ReachedNoRowsYet(r.pool, o);
    CountedOnceThrough(s.entries[o], Owned(s, o), c, i);
  }

  lemma CountedOnceThrough(e: P.Entry, owned: nat, c: S.Cell, i: nat)
    requires Matches(e, owned, c, i) && (e.phase == P.Waiting ==> owned == 0)
    ensures PoolSafety.ClaimsThrough(e) || c.jobs[i].Returned? ==> c.held == owned
  {
  }

  /** A payment call that dispatched and answered NotPayable, apart and unintruded, leaves no row with the order. */
  lemma NotPayableOwnsNothing(h: History, ord: Order, o: OrderId, i: nat, moves: seq<Move>)
    requires Starts(h, ord, o, i) && SettlementSafety.PaysLater(ord)
    requires var r := Joint(h, ord, o, i, moves);
             S.CallsApart(ord, r.order) && S.Unintruded(ord, r.order)
    requires var c := S.Run(S.Created(ord), Joint(h, ord, o, i, moves).order);
             i < |c.jobs| && c.jobs[i] == S.Returned(S.NotPayable, true)
    ensures OwnedIds(P.Run(Joint(h, ord, o, i, moves).pool).pool, o) == {}
  {
    HeldAreOwned(h, ord, o, i, moves);
    E.PaymentVerdicts(ord, Joint(h, ord, o, i, moves).order);
  }
}
