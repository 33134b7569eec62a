/** The supplier settler's pass: poll what the supplier accepted, re-dispatch what it could not take. */
module SupplierService {
  import opened Basics
  import opened Orders
  import opened Database
  import SupplierRetry

  /** How many orders each half of a pass handles at most. */
  const BATCH_LIMIT: nat := 100

  /** What a status check came back with; `back` is how a refund's money went. */
  datatype Check = Accepts(codes: Option<string>) | Rejects(back: Back) | Waits | Unreachable

  /** What a second dispatch came back with. */
  datatype Reply = Finishes(ref: string, codes: Option<string>) | Works(ref: string) | CannotTake | Refuses(back: Back)

  datatype Visit = Poll(check: Check) | Redispatch(reply: Reply)

  /** How the money of a refund went, where the visit brings one. */
  function BackOf(v: Visit): Back {
    match v
    case Poll(Rejects(back)) => back
    case Redispatch(Refuses(back)) => back
    case _ => Given
  }

  /** One order after a visit, with the effects it had: an award, or money paid back. */
  datatype Settled = Settled(doc: Order, award: bool, paid: bool)

  predicate HasApiLine(o: Order) {
    exists i :: 0 <= i < |o.items| && o.items[i].mode == Some(Api)
  }

  predicate Pollable(o: Order) {
    o.status == Processing && o.fulfillment.providerRef.Some? && o.fulfillment.providerRef.value != "" && HasApiLine(o)
  }

  predicate Retryable(o: Order, now: Time) {
    o.status == Processing && o.fulfillment.nextRetryAt.Some? && o.fulfillment.nextRetryAt.value <= now
  }

  // ----- what each outcome does to one order -----

  function Accepted(o: Order, ref: string, codes: Option<string>, note: string): Settled {
    match Transition(o, {Processing}, Completed, Event("completed", note), SuppliedBy(ref, codes))
    case Some(doc) => Settled(doc, true, false)
    case None => Settled(AppendEvent(o, LATE_DELIVERY), false, false)
  }

  const LATE_DELIVERY := Event("info", "supplier delivered after order left processing")

  /** Transition first, money second, and the status back when the money could not be returned. */
  function Rejected(o: Order, reason: string, back: Back): Settled {
    match Transition(o, {Processing}, Refunded, Event("refunded", reason), NoExtra)
    case None => Settled(o, false, false)
    case Some(doc) =>
      if Declines(o, back) then
        match Transition(doc, {Refunded}, o.status, REVERTED, NoExtra)
        case Some(back) => Settled(back, false, false)
        case None => Settled(doc, false, false)
      else Settled(doc, false, PaysBack(o, back))
  }

  /** What a rejection that won its transition did to the order, its money, and nothing else. */
  lemma RejectSettles(b: View, a: View, id: OrderId, reason: string, back: Back)
    requires id in b.orders && b.orders[id].status == Processing
    requires var o := b.orders[id];
             && a == b.(orders := b.orders[id := Rejected(o, reason, back).doc], wallets := a.wallets, captured := a.captured)
             && a.wallets == (if PaysBack(o, back) && o.payment == Wallet then Credited(b.wallets, o.user, o.total) else b.wallets)
             && a.captured == (if PaysBack(o, back) && o.payment != Wallet then b.captured - multiset{id} else b.captured)
    ensures a == After(b, id, Rejected(b.orders[id], reason, back))
  {
  }

  lemma RejectIgnored(b: View, id: OrderId, reason: string, back: Back)
    requires id in b.orders && b.orders[id].status != Processing
    ensures b == After(b, id, Rejected(b.orders[id], reason, back))
  {
    assert b.orders[id := b.orders[id]] == b.orders;
  }

  function Stuck(o: Order, now: Time): Settled {
    match MarkStuck(o, now, Event("stuck_upstream", "needs attention"))
    case Some(doc) => Settled(doc, false, false)
    case None => Settled(o, false, false)
  }

  function MaybeStuck(o: Order, now: Time, giveUp: Time): Settled {
    if o.fulfillment.stuckAt.None? && SupplierRetry.PastWindow(o, now, giveUp) then Stuck(o, now) else Settled(o, false, false)
  }

  function Ref(o: Order): string {
    if o.fulfillment.providerRef.Some? then o.fulfillment.providerRef.value else ""
  }

  function Polled(o: Order, check: Check, now: Time, giveUp: Time): Settled {
    match check
    case Accepts(codes) => Accepted(o, Ref(o), codes, "completed by supplier check")
    case Rejects(back) => Rejected(o, "rejected upstream", back)
    case Waits => MaybeStuck(o, now, giveUp)
    case Unreachable => MaybeStuck(o, now, giveUp)
  }

  function Redispatched(o: Order, reply: Reply, now: Time, giveUp: Time): Settled {
    if SupplierRetry.PastWindow(o, now, giveUp) || !HasApiLine(o) then Stuck(o, now)
    else
      match reply
      case Finishes(ref, codes) => Accepted(o, ref, codes, "completed by supplier re-dispatch")
      case Works(ref) => Settled(SetSupplierRef(o, ref, Event("processing", "awaiting upstream provider")), false, false)
      case Refuses(back) => Rejected(o, "rejected upstream on re-dispatch", back)
      case CannotTake =>
        var n := o.fulfillment.retryCount + 1;
        Settled(BumpRetry(o, n, now + SupplierRetry.BackoffDelay(n)), false, false)
  }

  function Visited(o: Order, v: Visit, now: Time, giveUp: Time): Settled {
    match v
    case Poll(check) => Polled(o, check, now, giveUp)
    case Redispatch(reply) => Redispatched(o, reply, now, giveUp)
  }

  /**
   One settlement: it completes exactly when it awards, refunds exactly when it
   pays back what was due, and otherwise leaves the status; it starts from
   processing only, and flags an order stuck at most once.
   */
  predicate SettlesOnce(o: Order, s: Settled, mayFlag: bool, back: Back) {
    && s.doc.user == o.user && s.doc.total == o.total && s.doc.payment == o.payment && s.doc.items == o.items
    && (s.award <==> o.status == Processing && s.doc.status == Completed)
    && (s.paid <==> o.status == Processing && s.doc.status == Refunded && PaysBack(o, back))
    && (s.doc.status != o.status ==> o.status == Processing && (s.doc.status == Completed || s.doc.status == Refunded))
    && (o.fulfillment.stuckAt.Some? || !mayFlag ==> s.doc.fulfillment.stuckAt == o.fulfillment.stuckAt)
  }

  lemma VisitSettlesOnce(o: Order, v: Visit, now: Time, giveUp: Time)
    ensures SettlesOnce(o, Visited(o, v, now, giveUp), SupplierRetry.PastWindow(o, now, giveUp) || (v.Redispatch? && !HasApiLine(o)), BackOf(v))
  {
    match v
    case Poll(check) => PollSettlesOnce(o, check, now, giveUp);
    case Redispatch(reply) => RedispatchSettlesOnce(o, reply, now, giveUp);
  }

  lemma PollSettlesOnce(o: Order, check: Check, now: Time, giveUp: Time)
    ensures SettlesOnce(o, Polled(o, check, now, giveUp), SupplierRetry.PastWindow(o, now, giveUp), BackOf(Poll(check)))
  {
  }

  lemma RedispatchSettlesOnce(o: Order, reply: Reply, now: Time, giveUp: Time)
    ensures SettlesOnce(o, Redispatched(o, reply, now, giveUp), SupplierRetry.PastWindow(o, now, giveUp) || !HasApiLine(o), BackOf(Redispatch(reply)))
  {
  }

  // ----- what an answer leads to, told over documents, balances and captures -----

  /** The supplier delivered: a processing order is completed with what it delivered, any other only notes it. */
  predicate AcceptOutcome(b: View, a: View, id: OrderId, ref: string, codes: Option<string>) {
    && OnlyDocument(b, a, id) && MoneyStays(b, a)
    && var o, d := b.orders[id], a.orders[id];
       if o.status == Processing then
         && Told(o.(fulfillment := o.fulfillment.(transferRef := Some(ref), providerRef := Some(ref),
                                                  deliveredCode := if codes.Some? then codes else o.fulfillment.deliveredCode)),
                 d, Completed, ["completed"])
         && a.awarded == b.awarded + multiset{id}
       else Told(o, d, o.status, ["info"]) && a.awarded == b.awarded
  }

  /** The supplier refused: a processing order is refunded and its money goes back, unless it cannot, and then it waits as before. */
  ghost predicate RejectOutcome(b: View, a: View, id: OrderId, back: Back) {
    && OnlyDocument(b, a, id) && a.awarded == b.awarded
    && var o, d := b.orders[id], a.orders[id];
       if o.status != Processing then a == b
       else if CannotReturn(o, back) then Told(o, d, Processing, ["refunded", "refund_reverted"]) && MoneyStays(b, a)
       else Told(o, d, Refunded, ["refunded"]) && PaidInFull(b, a, id, back == Given)
  }

  /** Once overdue, a processing order is flagged, once, and its retry clock stops. */
  predicate StuckOutcome(b: View, a: View, id: OrderId, now: Time, due: bool) {
    && OnlyDocument(b, a, id) && MoneyStays(b, a) && a.awarded == b.awarded
    && var o, d := b.orders[id], a.orders[id];
       if due && o.status == Processing && o.fulfillment.stuckAt.None?
       then Told(o.(fulfillment := o.fulfillment.(stuckAt := Some(now), nextRetryAt := None, retryCount := 0)), d, Processing, ["stuck_upstream"])
       else d == o
  }

  ghost predicate PollOutcome(b: View, a: View, id: OrderId, check: Check, now: Time, giveUp: Time) {
    id in b.orders &&
    var f := b.orders[id].fulfillment;
    match check
    case Accepts(codes) => AcceptOutcome(b, a, id, if f.providerRef.Some? then f.providerRef.value else "", codes)
    case Rejects(back) => RejectOutcome(b, a, id, back)
    case Waits => StuckOutcome(b, a, id, now, now - b.orders[id].createdAt > giveUp)
    case Unreachable => StuckOutcome(b, a, id, now, now - b.orders[id].createdAt > giveUp)
  }

  /** The order waits at the supplier now, under its reference. */
  predicate PromoteOutcome(b: View, a: View, id: OrderId, ref: string) {
    && OnlyDocument(b, a, id) && MoneyStays(b, a) && a.awarded == b.awarded
    && var o, d := b.orders[id], a.orders[id];
       if o.status == Processing
       then Told(o.(fulfillment := o.fulfillment.(providerRef := Some(ref), nextRetryAt := None, retryCount := 0)), d, Processing, ["processing"])
       else d == o
  }

  /** One more try counted: the next in one, five, fifteen, and then sixty minutes. */
  predicate BumpOutcome(b: View, a: View, id: OrderId, now: Time) {
    && OnlyDocument(b, a, id) && MoneyStays(b, a) && a.awarded == b.awarded
    && var o, d := b.orders[id], a.orders[id];
       var n := o.fulfillment.retryCount + 1;
       var minutes := if n == 1 then 1 else if n == 2 then 5 else if n == 3 then 15 else 60;
       d == if o.status == Processing then o.(fulfillment := o.fulfillment.(retryCount := n, nextRetryAt := Some(now + 60 * minutes))) else o
  }

  ghost predicate RedispatchOutcome(b: View, a: View, id: OrderId, reply: Reply, now: Time, giveUp: Time) {
    id in b.orders &&
    var o := b.orders[id];
    if now - o.createdAt > giveUp || forall i :: 0 <= i < |o.items| ==> o.items[i].mode != Some(Api)
    then StuckOutcome(b, a, id, now, true)
    else
      match reply
      case Finishes(ref, codes) => AcceptOutcome(b, a, id, ref, codes)
      case Works(ref) => PromoteOutcome(b, a, id, ref)
      case CannotTake => BumpOutcome(b, a, id, now)
      case Refuses(back) => RejectOutcome(b, a, id, back)
  }

  lemma AcceptTold(b: View, id: OrderId, ref: string, codes: Option<string>, note: string)
    requires id in b.orders
    ensures AcceptOutcome(b, After(b, id, Accepted(b.orders[id], ref, codes, note)), id, ref, codes)
  {
  }

  lemma RejectTold(b: View, id: OrderId, reason: string, back: Back)
    requires id in b.orders
    ensures RejectOutcome(b, After(b, id, Rejected(b.orders[id], reason, back)), id, back)
  {
    if b.orders[id].status != Processing {
      RejectIgnored(b, id, reason, back);
    } else if CannotReturn(b.orders[id], back) {
      RevertedTold(b.orders[id], reason, back);
    } else {
      RefundedTold(b, id, reason, back);
    }
  }

  lemma RevertedTold(o: Order, reason: string, back: Back)
    requires o.status == Processing && CannotReturn(o, back)
    ensures var s := Rejected(o, reason, back);
            Told(o, s.doc, Processing, ["refunded", "refund_reverted"]) && !s.award && !s.paid
  {
  }

  lemma RefundedTold(b: View, id: OrderId, reason: string, back: Back)
    requires id in b.orders && b.orders[id].status == Processing && !CannotReturn(b.orders[id], back)
    ensures var s := Rejected(b.orders[id], reason, back);
            && Told(b.orders[id], s.doc, Refunded, ["refunded"]) && !s.award
            && PaidInFull(b, After(b, id, s), id, back == Given)
  {
  }

  lemma StuckTold(b: View, id: OrderId, now: Time)
    requires id in b.orders
    ensures StuckOutcome(b, After(b, id, Stuck(b.orders[id], now)), id, now, true)
  {
  }

  lemma MaybeStuckTold(b: View, id: OrderId, now: Time, giveUp: Time)
    requires id in b.orders
    ensures StuckOutcome(b, After(b, id, MaybeStuck(b.orders[id], now, giveUp)), id, now, now - b.orders[id].createdAt > giveUp)
  {
    StuckTold(b, id, now);
  }

  lemma PollTold(b: View, id: OrderId, check: Check, now: Time, giveUp: Time)
    requires id in b.orders
    ensures PollOutcome(b, After(b, id, Polled(b.orders[id], check, now, giveUp)), id, check, now, giveUp)
  {
    match check
    case Accepts(codes) => AcceptTold(b, id, Ref(b.orders[id]), codes, "completed by supplier check");
    case Rejects(back) => RejectTold(b, id, "rejected upstream", back);
    case Waits => MaybeStuckTold(b, id, now, giveUp);
    case Unreachable => MaybeStuckTold(b, id, now, giveUp);
  }

  lemma RedispatchTold(b: View, id: OrderId, reply: Reply, now: Time, giveUp: Time)
    requires id in b.orders
    ensures RedispatchOutcome(b, After(b, id, Redispatched(b.orders[id], reply, now, giveUp)), id, reply, now, giveUp)
  {
    if SupplierRetry.PastWindow(b.orders[id], now, giveUp) || !HasApiLine(b.orders[id]) {
      StuckTold(b, id, now);
    } else {
      match reply
      case Finishes(ref, codes) => AcceptTold(b, id, ref, codes, "completed by supplier re-dispatch");
      case Works(ref) => PromoteTold(b, id, ref);
      case CannotTake => BumpTold(b, id, now);
      case Refuses(back) => RejectTold(b, id, "rejected upstream on re-dispatch", back);
    }
  }

  lemma PromoteTold(b: View, id: OrderId, ref: string)
    requires id in b.orders
    ensures var doc := SetSupplierRef(b.orders[id], ref, Event("processing", "awaiting upstream provider"));
            PromoteOutcome(b, After(b, id, Settled(doc, false, false)), id, ref)
  {
  }

  lemma BumpTold(b: View, id: OrderId, now: Time)
    requires id in b.orders
    ensures var n := b.orders[id].fulfillment.retryCount + 1;
            BumpOutcome(b, After(b, id, Settled(BumpRetry(b.orders[id], n, now + SupplierRetry.BackoffDelay(n)), false, false)), id, now)
  {
  }

  // ----- a whole pass -----

  /** Everything after one order was settled. */
  function After(b: View, id: OrderId, s: Settled): View {
    b.(orders := b.orders[id := s.doc],
       awarded := if s.award then b.awarded + multiset{id} else b.awarded,
       wallets := if s.paid && s.doc.payment == Wallet then Credited(b.wallets, s.doc.user, s.doc.total) else b.wallets,
       captured := if s.paid && s.doc.payment != Wallet then b.captured - multiset{id} else b.captured)
  }

  /** Everything after the listed orders were visited, one after the other. */
  function Pass(b: View, ids: seq<OrderId>, visits: seq<Visit>, now: Time, giveUp: Time): (a: View)
    requires |visits| == |ids| && forall i :: 0 <= i < |ids| ==> ids[i] in b.orders
    ensures a.orders.Keys == b.orders.Keys
  {
    if ids == [] then b
    else
      var last := |ids| - 1;
      var m := Pass(b, ids[..last], visits[..last], now, giveUp);
      After(m, ids[last], Visited(m.orders[ids[last]], visits[last], now, giveUp))
  }

  /** What a pass pays back to one wallet: the total of each listed order it refunds. */
  function PaidTo(orders: map<OrderId, Order>, ids: seq<OrderId>, visits: seq<Visit>, now: Time, giveUp: Time, u: UserId): nat
    requires |visits| == |ids| && forall i :: 0 <= i < |ids| ==> ids[i] in orders
  {
    if ids == [] then 0
    else
      var last := |ids| - 1;
      var o := orders[ids[last]];
      PaidTo(orders, ids[..last], visits[..last], now, giveUp, u)
      + if Visited(o, visits[last], now, giveUp).paid && o.payment == Wallet && o.user == u then o.total else 0
  }

  predicate Distinct(ids: seq<OrderId>) {
    forall i, j :: 0 <= i < j < |ids| ==> ids[i] != ids[j]
  }

  lemma AfterPays(m: View, id: OrderId, o: Order, s: Settled, mayFlag: bool, back: Back, u: UserId)
    requires SettlesOnce(o, s, mayFlag, back)
    ensures Balance(After(m, id, s).wallets, u)
            == Balance(m.wallets, u) + if s.paid && o.payment == Wallet && o.user == u then o.total else 0
  {
  }

  lemma {:induction false} PassTouchesListed(b: View, ids: seq<OrderId>, visits: seq<Visit>, now: Time, giveUp: Time, o: OrderId)
    requires |visits| == |ids| && (forall i :: 0 <= i < |ids| ==> ids[i] in b.orders) && o in b.orders && o !in ids
    ensures Pass(b, ids, visits, now, giveUp).orders[o] == b.orders[o]
  {
    if ids != [] {
      PassTouchesListed(b, ids[..|ids| - 1], visits[..|ids| - 1], now, giveUp, o);
    }
  }

  /** A pass settles each listed order once, as if it were alone. */
  lemma {:induction false} PassSettlesEach(b: View, ids: seq<OrderId>, visits: seq<Visit>, now: Time, giveUp: Time, i: nat)
    requires |visits| == |ids| && Distinct(ids) && (forall j :: 0 <= j < |ids| ==> ids[j] in b.orders) && i < |ids|
    ensures Pass(b, ids, visits, now, giveUp).orders[ids[i]] == Visited(b.orders[ids[i]], visits[i], now, giveUp).doc
  {
    var last := |ids| - 1;
    if i < last {
      PassSettlesEach(b, ids[..last], visits[..last], now, giveUp, i);
    } else {
      PassTouchesListed(b, ids[..last], visits[..last], now, giveUp, ids[last]);
    }
  }

  /** Wallets are up by exactly what the pass pays back. */
  lemma {:induction false} PassPaysExactly(b: View, ids: seq<OrderId>, visits: seq<Visit>, now: Time, giveUp: Time, u: UserId)
    requires |visits| == |ids| && Distinct(ids) && forall j :: 0 <= j < |ids| ==> ids[j] in b.orders
    ensures Balance(Pass(b, ids, visits, now, giveUp).wallets, u) == Balance(b.wallets, u) + PaidTo(b.orders, ids, visits, now, giveUp, u)
  {
    if ids != [] {
      var last := |ids| - 1;
      var id, o, v := ids[last], b.orders[ids[last]], visits[last];
      PassPaysExactly(b, ids[..last], visits[..last], now, giveUp, u);
      PassTouchesListed(b, ids[..last], visits[..last], now, giveUp, id);
      VisitSettlesOnce(o, v, now, giveUp);
      AfterPays(Pass(b, ids[..last], visits[..last], now, giveUp), id, o, Visited(o, v, now, giveUp),
                SupplierRetry.PastWindow(o, now, giveUp) || (v.Redispatch? && !HasApiLine(o)), BackOf(v), u);
    }
  }

  /** And each order completed by the pass is awarded once. */
  lemma {:induction false} PassAwardsOnce(b: View, ids: seq<OrderId>, visits: seq<Visit>, now: Time, giveUp: Time, o: OrderId)
    requires |visits| == |ids| && Distinct(ids) && (forall j :: 0 <= j < |ids| ==> ids[j] in b.orders) && o in b.orders
    ensures var a := Pass(b, ids, visits, now, giveUp);
            a.awarded[o] == b.awarded[o] + if b.orders[o].status == Processing && a.orders[o].status == Completed then 1 else 0
  {
    if ids != [] {
      var last := |ids| - 1;
      PassAwardsOnce(b, ids[..last], visits[..last], now, giveUp, o);
      PassTouchesListed(b, ids[..last], visits[..last], now, giveUp, ids[last]);
      VisitSettlesOnce(b.orders[ids[last]], visits[last], now, giveUp);
    }
  }

  // ----- the settler -----

  function PollableIds(orders: map<OrderId, Order>): set<OrderId> {
    set o | o in orders && Pollable(orders[o])
  }

  function RetryableIds(orders: map<OrderId, Order>, now: Time): set<OrderId> {
    set o | o in orders && Retryable(orders[o], now)
  }

  /** A batch of the candidates: none twice, oldest first, all of them unless the limit is reached. */
  ghost predicate Batch(orders: map<OrderId, Order>, from: set<OrderId>, ids: seq<OrderId>) {
    && Distinct(ids) && |ids| <= BATCH_LIMIT
    && (forall i :: 0 <= i < |ids| ==> ids[i] in from && ids[i] in orders)
    && (forall i, j :: 0 <= i < j < |ids| ==> orders[ids[i]].createdAt <= orders[ids[j]].createdAt)
    && (forall o :: o in from && o !in ids ==>
          |ids| == BATCH_LIMIT && o in orders && forall i :: 0 <= i < |ids| ==> orders[ids[i]].createdAt <= orders[o].createdAt)
  }

  /** The candidates picked so far, oldest first, and those left, none of them older. */
  ghost predicate Picked(orders: map<OrderId, Order>, from: set<OrderId>, ids: seq<OrderId>, rest: set<OrderId>) {
    && rest <= from <= orders.Keys && Distinct(ids)
    && (forall i :: 0 <= i < |ids| ==> ids[i] in from && ids[i] !in rest)
    && (forall o :: o in from ==> o in rest || o in ids)
    && (forall i, j :: 0 <= i < j < |ids| ==> orders[ids[i]].createdAt <= orders[ids[j]].createdAt)
    && (forall i, o :: 0 <= i < |ids| && o in rest ==> orders[ids[i]].createdAt <= orders[o].createdAt)
  }

  lemma PickOneMore(orders: map<OrderId, Order>, from: set<OrderId>, ids: seq<OrderId>, rest: set<OrderId>, o: OrderId)
    requires Picked(orders, from, ids, rest)
    requires o in rest && forall x :: x in rest ==> orders[o].createdAt <= orders[x].createdAt
    ensures Picked(orders, from, ids + [o], rest - {o})
  {
    assert forall x :: x in ids ==> x in ids + [o];
  }

  /** A processing supplier order the supplier has given its reference for. */
  predicate AtSupplier(orders: map<OrderId, Order>, o: OrderId) {
    && o in orders && orders[o].status == Processing
    && orders[o].fulfillment.providerRef !in {None, Some("")}
    && exists i :: 0 <= i < |orders[o].items| && orders[o].items[i].mode == Some(Api)
  }

  /** A processing order whose retry clock has run out. */
  predicate DueAgain(orders: map<OrderId, Order>, o: OrderId, now: Time) {
    o in orders && orders[o].status == Processing
    && orders[o].fulfillment.nextRetryAt.Some? && orders[o].fulfillment.nextRetryAt.value <= now
  }

  class Settler {
    const db: Database
    const giveUp: Time

    constructor (db: Database, giveUp: Time)
      ensures this.db == db && this.giveUp == if giveUp <= 0 then 24 * 60 * MINUTE else giveUp
    {
      this.db := db;
      this.giveUp := if giveUp <= 0 then 24 * 60 * MINUTE else giveUp;
    }

    /** The oldest candidates, up to the limit. */
    method ListBatch(from: set<OrderId>) returns (ids: seq<OrderId>)
      requires from <= db.orders.Keys
      ensures Batch(db.orders, from, ids)
    {
      ids := [];
      var rest := from;
      while rest != {} && |ids| < BATCH_LIMIT
        invariant |ids| <= BATCH_LIMIT && Picked(db.orders, from, ids, rest)
        decreases rest
      {
        ghost var first := Oldest(db.orders, rest);
        var o :| o in rest && forall x :: x in rest ==> db.orders[o].createdAt <= db.orders[x].createdAt;
        PickOneMore(db.orders, from, ids, rest, o);
        ids, rest := ids + [o], rest - {o};
      }
    }

    /** Completes with the supplier's reference and codes, or notes a delivery that came too late. */
    method SettleAccept(id: OrderId, ref: string, codes: Option<string>, note: string)
      requires id in db.orders
      modifies db`orders, db`awarded
      ensures db.Now() == After(old(db.Now()), id, Accepted(old(db.orders)[id], ref, codes, note))
    {
      match Transition(db.orders[id], {Processing}, Completed, Event("completed", note), SuppliedBy(ref, codes))
      case Some(doc) =>
        db.orders := db.orders[id := doc];
        db.awarded := db.awarded + multiset{id};
      case None =>
        db.orders := db.orders[id := AppendEvent(db.orders[id], LATE_DELIVERY)];
    }

    /** Transition first, money second, and the remembered status back when the money could not be returned. */
    method SettleReject(id: OrderId, reason: string, back: Back)
      requires id in db.orders
      modifies db`orders, db`wallets, db`captured
      ensures db.Now() == After(old(db.Now()), id, Rejected(old(db.orders)[id], reason, back))
    {
      var before := db.orders[id];
      ghost var b := db.Now();
      var won := db.TransitionStatus(id, {Processing}, Refunded, Event("refunded", reason));
      if won {
        db.PayOrRevert(id, before, back);
        assert db.orders == b.orders[id := Rejected(before, reason, back).doc];
        RejectSettles(b, db.Now(), id, reason, back);
      } else {
        RejectIgnored(b, id, reason, back);
      }
    }

    method FlagStuck(id: OrderId, now: Time)
      requires id in db.orders
      modifies db`orders
      ensures db.Now() == After(old(db.Now()), id, Stuck(old(db.orders)[id], now))
    {
      match MarkStuck(db.orders[id], now, Event("stuck_upstream", "needs attention"))
      case Some(doc) => db.orders := db.orders[id := doc];
      case None => assert db.orders[id := db.orders[id]] == db.orders;
    }

    method MaybeFlagStuck(id: OrderId, now: Time)
      requires id in db.orders
      modifies db`orders
      ensures db.Now() == After(old(db.Now()), id, MaybeStuck(old(db.orders)[id], now, giveUp))
    {
      assert db.orders[id := db.orders[id]] == db.orders;
      if db.orders[id].fulfillment.stuckAt.None? && now - db.orders[id].createdAt > giveUp {
        FlagStuck(id, now);
      }
    }

    /** Reconciles an order the supplier accepted by its reference. */
    method PollOne(id: OrderId, check: Check, now: Time)
      requires id in db.orders
      modifies db`orders, db`awarded, db`wallets, db`captured
      ensures db.Now() == After(old(db.Now()), id, Polled(old(db.orders)[id], check, now, giveUp))
      ensures PollOutcome(old(db.Now()), db.Now(), id, check, now, giveUp)
    {
      PollTold(db.Now(), id, check, now, giveUp);
      match check
      case Unreachable => MaybeFlagStuck(id, now);
      case Accepts(codes) => SettleAccept(id, Ref(db.orders[id]), codes, "completed by supplier check");
      case Rejects(back) => SettleReject(id, "rejected upstream", back);
      case Waits => MaybeFlagStuck(id, now);
    }

    /** Gives up past the window; otherwise dispatches again and settles by the reply. */
    method RedispatchOne(id: OrderId, reply: Reply, now: Time)
      requires id in db.orders
      modifies db`orders, db`awarded, db`wallets, db`captured
      ensures db.Now() == After(old(db.Now()), id, Redispatched(old(db.orders)[id], reply, now, giveUp))
      ensures RedispatchOutcome(old(db.Now()), db.Now(), id, reply, now, giveUp)
    {
      RedispatchTold(db.Now(), id, reply, now, giveUp);
      var o := db.orders[id];
      if now - o.createdAt > giveUp {
        FlagStuck(id, now);
        return;
      }
      if !HasApiLine(o) {
        FlagStuck(id, now);
        return;
      }
      SettleReply(id, reply, now);
    }

    method SettleReply(id: OrderId, reply: Reply, now: Time)
      requires id in db.orders && !SupplierRetry.PastWindow(db.orders[id], now, giveUp) && HasApiLine(db.orders[id])
      modifies db`orders, db`awarded, db`wallets, db`captured
      ensures db.Now() == After(old(db.Now()), id, Redispatched(old(db.orders)[id], reply, now, giveUp))
    {
      var o := db.orders[id];
      match reply
      case Finishes(ref, codes) => SettleAccept(id, ref, codes, "completed by supplier re-dispatch");
      case Works(ref) =>
        db.orders := db.orders[id := SetSupplierRef(o, ref, Event("processing", "awaiting upstream provider"))];
      case CannotTake =>
        var n := o.fulfillment.retryCount + 1;
        db.orders := db.orders[id := BumpRetry(o, n, now + SupplierRetry.BackoffDelay(n))];
      case Refuses(back) => SettleReject(id, "rejected upstream on re-dispatch", back);
    }

    /**
     One pass: polls a batch of the accepted orders, then re-dispatches a batch of
     those whose retry clock has come due, as they stand after the polls.
     */
    method Tick(checks: OrderId -> Check, replies: OrderId -> Reply, now: Time)
      returns (ghost polled: seq<OrderId>, ghost middle: View, ghost retried: seq<OrderId>)
      modifies db`orders, db`awarded, db`wallets, db`captured
      ensures Batch(old(db.orders), PollableIds(old(db.orders)), polled)
      ensures forall o :: o in polled ==> AtSupplier(old(db.orders), o)
      ensures |polled| < 100 ==> forall o :: AtSupplier(old(db.orders), o) ==> o in polled
      ensures middle == Pass(old(db.Now()), polled, Polls(polled, checks), now, giveUp)
      ensures Batch(middle.orders, RetryableIds(middle.orders, now), retried)
      ensures forall o :: o in retried ==> DueAgain(middle.orders, o, now)
      ensures |retried| < 100 ==> forall o :: DueAgain(middle.orders, o, now) ==> o in retried
      ensures db.Now() == Pass(middle, retried, Redispatches(retried, replies), now, giveUp)
    {
      var pollable := ListBatch(PollableIds(db.orders));
      PollAll(pollable, checks, now);
      polled, middle := pollable, db.Now();
      var retryable := ListBatch(RetryableIds(db.orders, now));
      RedispatchAll(retryable, replies, now);
      retried := retryable;
    }

    method PollAll(ids: seq<OrderId>, checks: OrderId -> Check, now: Time)
      requires forall i :: 0 <= i < |ids| ==> ids[i] in db.orders
      modifies db`orders, db`awarded, db`wallets, db`captured
      ensures db.Now() == Pass(old(db.Now()), ids, Polls(ids, checks), now, giveUp)
    {
      for i := 0 to |ids|
        invariant db.orders.Keys == old(db.orders).Keys
        invariant db.Now() == Pass(old(db.Now()), ids[..i], Polls(ids, checks)[..i], now, giveUp)
      {
        PassOneMore(old(db.Now()), ids, Polls(ids, checks), i, now, giveUp);
        PollOne(ids[i], checks(ids[i]), now);
      }
      Prefix(ids, |ids|);
      Prefix(Polls(ids, checks), |ids|);
    }

    method RedispatchAll(ids: seq<OrderId>, replies: OrderId -> Reply, now: Time)
      requires forall i :: 0 <= i < |ids| ==> ids[i] in db.orders
      modifies db`orders, db`awarded, db`wallets, db`captured
      ensures db.Now() == Pass(old(db.Now()), ids, Redispatches(ids, replies), now, giveUp)
    {
      for i := 0 to |ids|
        invariant db.orders.Keys == old(db.orders).Keys
        invariant db.Now() == Pass(old(db.Now()), ids[..i], Redispatches(ids, replies)[..i], now, giveUp)
      {
        PassOneMore(old(db.Now()), ids, Redispatches(ids, replies), i, now, giveUp);
        RedispatchOne(ids[i], replies(ids[i]), now);
      }
      Prefix(ids, |ids|);
      Prefix(Redispatches(ids, replies), |ids|);
    }
  }

  function Polls(ids: seq<OrderId>, checks: OrderId -> Check): (r: seq<Visit>)
    ensures |r| == |ids|
  {
    seq(|ids|, i requires 0 <= i < |ids| => Poll(checks(ids[i])))
  }

  function Redispatches(ids: seq<OrderId>, replies: OrderId -> Reply): (r: seq<Visit>)
    ensures |r| == |ids|
  {
    seq(|ids|, i requires 0 <= i < |ids| => Redispatch(replies(ids[i])))
  }

  lemma PassOneMore(b: View, ids: seq<OrderId>, visits: seq<Visit>, i: nat, now: Time, giveUp: Time)
    requires |visits| == |ids| && i < |ids| && forall j :: 0 <= j < |ids| ==> ids[j] in b.orders
    ensures var m := Pass(b, ids[..i], visits[..i], now, giveUp);
            Pass(b, ids[..i + 1], visits[..i + 1], now, giveUp) == After(m, ids[i], Visited(m.orders[ids[i]], visits[i], now, giveUp))
  {
    assert ids[..i + 1][..i] == ids[..i] && visits[..i + 1][..i] == visits[..i];
  }

  lemma Oldest(orders: map<OrderId, Order>, s: set<OrderId>) returns (o: OrderId)
    requires s != {} && s <= orders.Keys
    ensures o in s && forall x :: x in s ==> orders[o].createdAt <= orders[x].createdAt
  {
    o :| o in s;
    if s != {o} {
      var rest := Oldest(orders, s - {o});
      o := if orders[rest].createdAt < orders[o].createdAt then rest else o;
    }
  }
}
