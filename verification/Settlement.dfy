/**
 The life of one order under every actor at once.

 A Cell is the order's document together with the threads working on it.
 The last thread seen holding each of the three locks (a refund to pay out, an
 award to make, a payment dispatch to finish) is remembered beside the threads;
 that it is the only one is proved, not assumed.
 Apply performs one atomic step: a thread's next database or gateway call, or
 the arrival of another actor. A run is any finite sequence of steps, so a
 statement about Run covers every interleaving of any number of actors.
 */
module Settlement {
  import opened Basics
  import opened Orders

  /** What a placement or payment call finally answered its caller. */
  datatype Verdict = Success | Failure | NotPayable

  /**
   A thread, at the step it will take next. `paid` marks the dispatch run by a
   confirmed on-chain payment rather than by the placement itself; `charged`
   tells compensation whether there is a charge to reverse.
   */
  datatype Job =
    | Charging
    | Closing
    | Dispatching(charged: bool, paid: bool)
    | Delivering(paid: bool)
    | Parking(charged: bool, paid: bool, sends: bool)
    | Sending(charged: bool, paid: bool)
    | Finishing(paid: bool)
    | Releasing(charged: bool, paid: bool)
    | Reversing
    | Failing(paid: bool)
    | Recalling(charged: bool)
    | Repaying
    | Withdrawing
    | Rewarding(paid: bool)
    | Crediting(before: Order)
    | Reverting(before: Order)
    | Rereading
    | Returned(verdict: Verdict, paid: bool)

  /** How an external call or a claim came out. */
  datatype Outcome =
    | Good
    | Bad
    | NoGateway
    | Claimed(units: nat)
    | Short(units: nat)
    | Parks
    | Succeeds
    | Rejects

  datatype Bookkeeping =
    | Bump(count: nat, next: Time)
    | Promote(ref: string)
    | Stick(at: Time)
    | Note(event: Event)

  /** Thread i steps, writing its own in-memory fulfillment where the step writes one; or an actor arrives. */
  datatype Action =
    | Step(i: nat, out: Outcome, copy: Fulfillment)
    | AdminRefund(reason: string)
    | SupplierReject(reason: string)
    | Complete(extra: Extra)
    | MarkFailed(reason: string)
    | PaidCall(txRef: string)
    | Keep(book: Bookkeeping)

  /**
   The exact ways a run can leave the protocol's guarantees, each the absence
   of one guard in the code:
   overwrote        a dispatch write of a payment call found the order moved by another actor;
   late             a parked order whose bridge command was refused was moved by another
                    actor before its unguarded compensation had finished;
   overlapped       a payment call answered from an order another payment call was dispatching;
   lostDelivery     an order was marked failed while its codes were being delivered;
   lostReversal     a compensating credit failed, and its error is ignored.
   */
  datatype Anomalies = Anomalies(overwrote: bool, late: bool, overlapped: bool, lostDelivery: bool, lostReversal: bool)

  datatype Cell = Cell(
    doc: Order,
    charges: nat,
    credits: nat,
    awards: nat,
    held: nat,
    dispatches: nat,
    jobs: seq<Job>,
    refunder: Option<nat>,
    rewarder: Option<nat>,
    dispatcher: Option<nat>,
    anomalies: Anomalies)

  /** An order just inserted by its placement thread. */
  function Created(o: Order): Cell {
    Cell(o.(status := Pending), 0, 0, 0, 0, 0, [Charging], None, None, None,
         Anomalies(false, false, false, false, false))
  }

  /** The thread working for a placement before any other actor can move the order. */
  predicate Private(j: Job) {
    match j
    case Charging => true
    case Closing => true
    case Dispatching(_, paid) => !paid
    case Delivering(paid) => !paid
    case Parking(_, paid, _) => !paid
    case Finishing(paid) => !paid
    case Releasing(_, paid) => !paid
    case Reversing => true
    case Failing(paid) => !paid
    case _ => false
  }

  /** The thread dispatching a confirmed payment. */
  predicate PaidDispatch(j: Job) {
    match j
    case Dispatching(_, paid) => paid
    case Delivering(paid) => paid
    case Parking(_, paid, _) => paid
    case Sending(_, paid) => paid
    case Finishing(paid) => paid
    case Releasing(_, paid) => paid
    case Failing(paid) => paid
    case _ => false
  }

  /** A placement taking back an order it had already parked. */
  predicate Recall(j: Job) {
    j.Recalling? || j.Repaying? || j.Withdrawing?
  }

  predicate Refunding(j: Job) {
    j.Crediting? || j.Reverting?
  }

  /** The statuses a dispatching thread can find when nobody disturbed it. */
  predicate Undisturbed(c: Cell, paid: bool) {
    if paid then c.doc.status == Processing else c.doc.status == Pending || c.doc.status == Failed
  }

  /** Who placed an order, its lines, how it is paid, its total and its key never change. */
  predicate SameTerms(o: Order, r: Order) {
    r.user == o.user && r.key == o.key && r.total == o.total && r.payment == o.payment && r.items == o.items
  }

  predicate Grows(a: Anomalies, b: Anomalies) {
    && (a.overwrote ==> b.overwrote) && (a.late ==> b.late) && (a.overlapped ==> b.overlapped)
    && (a.lostDelivery ==> b.lostDelivery) && (a.lostReversal ==> b.lostReversal)
  }

  /** What no step undoes. */
  predicate Later(c: Cell, d: Cell) {
    && SameTerms(c.doc, d.doc) && Grows(c.anomalies, d.anomalies)
    && c.charges <= d.charges && c.credits <= d.credits && c.awards <= d.awards && c.dispatches <= d.dispatches
    && |c.jobs| <= |d.jobs|
  }

  /** One step moves money at most once. */
  predicate OneMove(c: Cell, d: Cell) {
    && d.charges <= c.charges + 1 && d.credits <= c.credits + 1
    && (d.charges == c.charges || d.credits == c.credits)
  }

  /** A step changes its own thread only, and charging is nobody's next step but the first. */
  predicate OnlyThread(c: Cell, i: nat, d: Cell)
    requires i < |c.jobs|
  {
    && |d.jobs| == |c.jobs|
    && (forall k :: 0 <= k < |c.jobs| && k != i ==> d.jobs[k] == c.jobs[k])
    && (d == c || !d.jobs[i].Charging?)
  }

  /** Neither a dispatch nor the start of one, and no return to pending. */
  predicate NoDispatch(c: Cell, i: nat, d: Cell)
    requires i < |d.jobs|
  {
    && d.dispatches == c.dispatches && (d.doc.status == Pending ==> c.doc.status == Pending)
    && !d.jobs[i].Dispatching? && !Refunding(d.jobs[i])
  }

  /** No thread starts to reread, and one dispatches a payment only if it was doing so. */
  predicate InRole(c: Cell, i: nat, paid: bool, d: Cell)
    requires i < |d.jobs|
  {
    !d.jobs[i].Rereading? && d.anomalies.overlapped == c.anomalies.overlapped && (PaidDispatch(d.jobs[i]) ==> paid)
  }

  /** Notes whether an unguarded write is about to hit an order someone else has moved. */
  function Watched(c: Cell, paid: bool): Cell {
    if Undisturbed(c, paid) then c else c.(anomalies := c.anomalies.(overwrote := true))
  }

  /** The holder of a lock after thread i becomes a job that holds it, or does not. */
  function Seat(held: Option<nat>, i: nat, holds: bool): Option<nat> {
    if holds then Some(i) else if held == Some(i) then None else held
  }

  function Seated(c: Cell, i: nat, j: Job): Cell {
    c.(refunder := Seat(c.refunder, i, Refunding(j)),
       rewarder := Seat(c.rewarder, i, j.Rewarding?),
       dispatcher := Seat(c.dispatcher, i, PaidDispatch(j)))
  }

  function At(c: Cell, i: nat, j: Job): Cell
    requires i < |c.jobs|
  {
    Seated(c, i, j).(jobs := c.jobs[i := j])
  }

  function Spawn(c: Cell, j: Job): Cell {
    Seated(c, |c.jobs|, j).(jobs := c.jobs + [j])
  }

  // ----- the steps of a thread -----

  /** Wallet debit, gateway charge, or payment intent; a zero total needs none. */
  function Charge(c: Cell, i: nat, out: Outcome): (d: Cell)
    requires i < |c.jobs|
    ensures Later(c, d) && OneMove(c, d)
    ensures OnlyThread(c, i, d)
    ensures InRole(c, i, false, d)
  {
    if c.doc.total == 0 then At(c, i, Dispatching(false, false))
    else if !out.Good? then At(c, i, Closing)
    else
      match c.doc.payment
      case Wallet => At(c.(charges := c.charges + 1), i, Dispatching(true, false))
      case Card => At(c.(charges := c.charges + 1, doc := c.doc.(paymentRef := Some("txn"))), i, Dispatching(true, false))
      case Usdt => At(c, i, Returned(Success, false))
  }

  /** One of the five paths; a claim that falls short has already given its codes back or will. */
  function Dispatch(c: Cell, i: nat, charged: bool, paid: bool, out: Outcome): (d: Cell)
    requires i < |c.jobs|
    ensures Later(c, d) && OneMove(c, d)
    ensures OnlyThread(c, i, d) && d.charges == c.charges
    ensures d == c || InRole(c, i, paid, d)
  {
    var e := c.(dispatches := c.dispatches + 1);
    match (Route(c.doc.items), out)
    case (ManualPath, _) => At(e, i, Parking(charged, paid, false))
    case (InventoryPath, Claimed(n)) => At(e.(held := e.held + n), i, Delivering(paid))
    case (MixedPath, Claimed(n)) => At(e.(held := e.held + n), i, Delivering(paid))
    case (BridgePath, Claimed(n)) => At(e.(held := e.held + n), i, Parking(charged, paid, true))
    case (BridgePath, Parks) => At(e, i, Parking(charged, paid, false))
    case (ApiPath, Parks) => At(e, i, Parking(charged, paid, false))
    case (ApiPath, Succeeds) => At(e, i, Finishing(paid))
    case (ApiPath, Rejects) => At(e, i, Releasing(charged, paid))
    case (InventoryPath, Short(n)) => At(e.(held := e.held + n), i, Releasing(charged, paid))
    case (MixedPath, Short(n)) => At(e.(held := e.held + n), i, Releasing(charged, paid))
    case (BridgePath, Short(n)) => At(e.(held := e.held + n), i, Releasing(charged, paid))
    case _ => c
  }

  /** This machine counts codes; which ones a line gets is the pool's protocol. */
  function NoCodes(n: nat): seq<Option<seq<string>>> {
    seq(n, _ => None)
  }

  /** The guarded write of codes and status; a lost race answers with an error and keeps the codes. */
  function Deliver(c: Cell, i: nat, paid: bool, f: Fulfillment): (d: Cell)
    requires i < |c.jobs|
    ensures Later(c, d) && OneMove(c, d)
    ensures OnlyThread(c, i, d) && d.charges == c.charges && NoDispatch(c, i, d)
    ensures InRole(c, i, paid, d)
  {
    var whole := Route(c.doc.items) == InventoryPath;
    var to := if whole then Completed else Processing;
    match DeliverCodes(c.doc, to, f, NoCodes(|c.doc.items|))
    case Some(doc) =>
      assert doc.items == c.doc.items;
      At(Watched(c, paid).(doc := doc), i, if whole then Rewarding(paid) else Returned(Success, paid))
    case None =>
      At(c.(anomalies := if paid then c.anomalies.(overwrote := true) else c.anomalies.(lostDelivery := true)), i,
         Returned(if paid then NotPayable else Failure, paid))
  }

  /** An unguarded write of status and fulfillment. */
  function Overwrite(c: Cell, paid: bool, to: Status, f: Fulfillment): Cell {
    Watched(c, paid).(doc := SetFulfillment(c.doc, to, f))
  }

  /** Nothing was charged: the order just fails. */
  function Close(c: Cell, i: nat): (d: Cell)
    requires i < |c.jobs|
    ensures Later(c, d) && OneMove(c, d)
    ensures OnlyThread(c, i, d) && d.charges == c.charges && NoDispatch(c, i, d)
    ensures InRole(c, i, false, d)
  {
    At(Watched(c, false).(doc := SetStatus(c.doc, Failed)), i, Returned(Failure, false))
  }

  /** Queue the order, before any command for it becomes visible. */
  function Park(c: Cell, i: nat, charged: bool, paid: bool, sends: bool, f: Fulfillment): (d: Cell)
    requires i < |c.jobs|
    ensures Later(c, d) && OneMove(c, d)
    ensures OnlyThread(c, i, d) && d.charges == c.charges && NoDispatch(c, i, d)
    ensures InRole(c, i, paid, d)
  {
    At(Overwrite(c, paid, Processing, f), i, if sends then Sending(charged, paid) else Returned(Success, paid))
  }

  function Send(c: Cell, i: nat, charged: bool, paid: bool, out: Outcome): (d: Cell)
    requires i < |c.jobs|
    ensures Later(c, d) && OneMove(c, d)
    ensures OnlyThread(c, i, d) && d.charges == c.charges && NoDispatch(c, i, d)
    ensures InRole(c, i, paid, d)
  {
    if out.Good? then At(c, i, Returned(Success, paid))
    else if paid then At(c, i, Releasing(charged, true))
    else At(Late(c, c.doc.status != Processing), i, Recalling(charged))
  }

  function Late(c: Cell, moved: bool): Cell {
    c.(anomalies := c.anomalies.(late := c.anomalies.late || moved))
  }

  function Finish(c: Cell, i: nat, paid: bool, f: Fulfillment): (d: Cell)
    requires i < |c.jobs|
    ensures Later(c, d) && OneMove(c, d)
    ensures OnlyThread(c, i, d) && d.charges == c.charges && NoDispatch(c, i, d)
    ensures InRole(c, i, false, d)
  {
    At(Overwrite(c, paid, Completed, f), i, Rewarding(paid))
  }

  // Compensation: codes back, charge back, status failed.

  function Release(c: Cell, i: nat, charged: bool, paid: bool): (d: Cell)
    requires i < |c.jobs|
    ensures Later(c, d) && OneMove(c, d)
    ensures OnlyThread(c, i, d) && d.charges == c.charges && NoDispatch(c, i, d)
    ensures InRole(c, i, paid, d)
  {
    At(c.(held := 0), i, if charged then Reversing else Failing(paid))
  }

  function Reverse(c: Cell, i: nat, out: Outcome): (d: Cell)
    requires i < |c.jobs|
    ensures Later(c, d) && OneMove(c, d)
    ensures OnlyThread(c, i, d) && d.charges == c.charges && NoDispatch(c, i, d)
    ensures InRole(c, i, false, d)
  {
    if out.Good? then At(c.(credits := c.credits + 1), i, Failing(false))
    else At(c.(anomalies := c.anomalies.(lostReversal := true)), i, Failing(false))
  }

  function Fail(c: Cell, i: nat, paid: bool): (d: Cell)
    requires i < |c.jobs|
    ensures Later(c, d) && OneMove(c, d)
    ensures OnlyThread(c, i, d) && d.charges == c.charges && NoDispatch(c, i, d)
    ensures InRole(c, i, false, d)
  {
    At(Watched(c, paid).(doc := SetStatus(c.doc, Failed)), i, Returned(if paid then NotPayable else Failure, paid))
  }

  // The same compensation, of an order already parked: other actors may see it meanwhile.

  function Withhold(c: Cell, i: nat, charged: bool): (d: Cell)
    requires i < |c.jobs|
    ensures Later(c, d) && OneMove(c, d)
    ensures OnlyThread(c, i, d) && d.charges == c.charges && NoDispatch(c, i, d)
    ensures InRole(c, i, false, d)
  {
    At(c.(held := 0), i, if charged then Repaying else Withdrawing)
  }

  function Repay(c: Cell, i: nat, out: Outcome): (d: Cell)
    requires i < |c.jobs|
    ensures Later(c, d) && OneMove(c, d)
    ensures OnlyThread(c, i, d) && d.charges == c.charges && NoDispatch(c, i, d)
    ensures InRole(c, i, false, d)
  {
    if out.Good? then At(c.(credits := c.credits + 1), i, Withdrawing)
    else At(c.(anomalies := c.anomalies.(lostReversal := true)), i, Withdrawing)
  }

  function Withdraw(c: Cell, i: nat): (d: Cell)
    requires i < |c.jobs|
    ensures Later(c, d) && OneMove(c, d)
    ensures OnlyThread(c, i, d) && d.charges == c.charges && NoDispatch(c, i, d)
    ensures InRole(c, i, false, d)
  {
    At(c.(doc := SetStatus(c.doc, Failed)), i, Returned(Failure, false))
  }

  /** The effects of a completion: customer notification and loyalty award. */
  function Reward(c: Cell, i: nat, paid: bool): (d: Cell)
    requires i < |c.jobs|
    ensures Later(c, d) && OneMove(c, d)
    ensures OnlyThread(c, i, d) && d.charges == c.charges && NoDispatch(c, i, d)
    ensures InRole(c, i, false, d)
  {
    At(c.(awards := c.awards + 1), i, Returned(Success, paid))
  }

  // A refund after its winning transition: credit, or put the status back.

  function Credit(c: Cell, i: nat, before: Order, out: Outcome): (d: Cell)
    requires i < |c.jobs|
    ensures Later(c, d) && OneMove(c, d)
    ensures OnlyThread(c, i, d) && d.charges == c.charges
    ensures InRole(c, i, false, d)
  {
    if !Reversible(before) || (out.NoGateway? && before.payment != Wallet) then At(c, i, Returned(Success, false))
    else if out.Good? then At(c.(credits := c.credits + 1), i, Returned(Success, false))
    else At(c, i, Reverting(before))
  }

  function Revert(c: Cell, i: nat, before: Order): (d: Cell)
    requires i < |c.jobs|
    ensures Later(c, d) && OneMove(c, d)
    ensures OnlyThread(c, i, d) && d.charges == c.charges
    ensures InRole(c, i, false, d)
  {
    var back := Transition(c.doc, {Refunded}, before.status, Event("refund_reverted", "charge reversal failed"), NoExtra);
    At(if back.Some? then c.(doc := back.value) else c, i, Returned(Failure, false))
  }

  /** A payment call that lost its claim answers from the order's current status. */
  function Reread(c: Cell, i: nat): (d: Cell)
    requires i < |c.jobs|
    ensures Later(c, d) && OneMove(c, d)
    ensures OnlyThread(c, i, d) && d.charges == c.charges && NoDispatch(c, i, d)
  {
    var busy := exists k :: 0 <= k < |c.jobs| && PaidDispatch(c.jobs[k]);
    At(c.(anomalies := c.anomalies.(overlapped := c.anomalies.overlapped || busy)), i,
       Returned(if c.doc.status == Failed then NotPayable else Success, true))
  }

  function StepJob(c: Cell, i: nat, out: Outcome, f: Fulfillment): (d: Cell)
    requires i < |c.jobs|
    ensures Later(c, d) && OneMove(c, d)
    ensures OnlyThread(c, i, d) && (c.jobs[i].Charging? || d.charges == c.charges)
    ensures c.jobs[i].Charging? || c.jobs[i].Dispatching? || Refunding(c.jobs[i]) || d == c || NoDispatch(c, i, d)
    ensures c.jobs[i].Rereading? || d == c || InRole(c, i, PaidDispatch(c.jobs[i]), d)
  {
    match c.jobs[i]
    case Charging => Charge(c, i, out)
    case Closing => Close(c, i)
    case Dispatching(charged, paid) => Dispatch(c, i, charged, paid, out)
    case Delivering(paid) => Deliver(c, i, paid, f)
    case Parking(charged, paid, sends) => Park(c, i, charged, paid, sends, f)
    case Sending(charged, paid) => Send(c, i, charged, paid, out)
    case Finishing(paid) => Finish(c, i, paid, f)
    case Releasing(charged, paid) => Release(c, i, charged, paid)
    case Reversing => Reverse(c, i, out)
    case Failing(paid) => Fail(c, i, paid)
    case Recalling(charged) => Withhold(c, i, charged)
    case Repaying => Repay(c, i, out)
    case Withdrawing => Withdraw(c, i)
    case Rewarding(paid) => Reward(c, i, paid)
    case Crediting(before) => Credit(c, i, before, out)
    case Reverting(before) => Revert(c, i, before)
    case Rereading => Reread(c, i)
    case Returned(_, _) => c
  }

  // ----- the arrival of an actor: one guarded transition, then a thread if it won -----

  function Win(c: Cell, from: set<Status>, to: Status, e: Event, x: Extra, j: Job): (d: Cell)
    ensures Later(c, d) && OneMove(c, d)
  {
    match Transition(c.doc, from, to, e, x)
    case Some(doc) => Spawn(Late(c, |c.jobs| > 0 && Recall(c.jobs[0])).(doc := doc), j)
    case None => c
  }

  function Book(o: Order, b: Bookkeeping): (r: Order)
    ensures r.status == o.status && SameTerms(r, o)
  {
    match b
    case Bump(count, next) => BumpRetry(o, count, next)
    case Promote(ref) => SetSupplierRef(o, ref, Event("processing", "awaiting upstream provider"))
    case Stick(at) =>
      (match MarkStuck(o, at, Event("stuck_upstream", "needs attention")) case Some(s) => s case None => o)
    case Note(e) => AppendEvent(o, e)
  }

  /** A payment call exists only for an on-chain order whose placement returned its intent. */
  predicate AwaitsPayment(c: Cell) {
    c.doc.payment == Usdt && c.doc.total > 0 && |c.jobs| > 0 && c.jobs[0] == Returned(Success, false)
  }

  function Apply(c: Cell, a: Action): (d: Cell)
    ensures Later(c, d) && OneMove(c, d)
  {
    match a
    case Step(i, out, copy) => if i < |c.jobs| then StepJob(c, i, out, copy) else c
    case AdminRefund(reason) =>
      Win(c, {Processing, Completed}, Refunded, Event("refunded", reason), NoExtra, Crediting(c.doc))
    case SupplierReject(reason) =>
      Win(c, {Processing}, Refunded, Event("refunded", reason), NoExtra, Crediting(c.doc))
    case Complete(x) =>
      Win(c, {Processing}, Completed, Event("completed", ""), x, Rewarding(false))
    case MarkFailed(reason) =>
      Win(c, {Pending}, Failed, Event("failed", reason), NoExtra, Returned(Success, false))
    case PaidCall(txRef) =>
      if !AwaitsPayment(c) then c
      else if c.doc.status == Pending then
        Win(c, {Pending}, Processing, Event("payment_confirmed", ""), PaidBy(txRef), Dispatching(false, true))
      else Spawn(c, Rereading)
    case Keep(b) => c.(doc := Book(c.doc, b))
  }

  function Run(c: Cell, acts: seq<Action>): (d: Cell)
    ensures Later(c, d)
  {
    if acts == [] then c else Apply(Run(c, acts[..|acts| - 1]), acts[|acts| - 1])
  }

  // ----- what an actor may check when it arrives -----

  /** A confirmed payment is being dispatched. */
  predicate InFlight(c: Cell) {
    exists i :: 0 <= i < |c.jobs| && PaidDispatch(c.jobs[i])
  }

  /** A payment call has not answered yet. */
  predicate CallOpen(c: Cell) {
    exists i :: 0 <= i < |c.jobs| && (PaidDispatch(c.jobs[i]) || c.jobs[i].Rereading?)
  }

  /** A refund, a supplier's rejection, or a completion. */
  predicate Moves(a: Action) {
    a.AdminRefund? || a.SupplierReject? || a.Complete?
  }

  /** No refund, rejection or completion lands while a payment's dispatch is in flight. */
  ghost predicate Unintruded(o: Order, acts: seq<Action>) {
    forall k :: 0 <= k < |acts| ==> !(Moves(acts[k]) && InFlight(Run(Created(o), acts[..k])))
  }

  /** No payment call arrives before the one before it has answered. */
  ghost predicate CallsApart(o: Order, acts: seq<Action>) {
    forall k :: 0 <= k < |acts| ==> !(acts[k].PaidCall? && CallOpen(Run(Created(o), acts[..k])))
  }
}
