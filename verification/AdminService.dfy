/** Refunds by an operator, one or many at a time, and the other guarded moves of an order. */
module AdminService {
  import opened Basics
  import opened Orders
  import opened Database

  datatype Outcome = RefundedNow | Conflict | NotFound | CreditFailed

  /** Orders a refund may start from. */
  predicate Refundable(o: Order) {
    o.status == Processing || o.status == Completed
  }

  /** A refund changes an order's status and timeline, and nothing else about it. */
  predicate SameButStatus(o: Order, r: Order) {
    r == o.(status := r.status, fulfillment := o.fulfillment.(timeline := r.fulfillment.timeline))
  }

  /** The state after one attempt, answered with the outcome. */
  ghost predicate Attempted(b: View, a: View, id: OrderId, out: Outcome, back: Back) {
    && a == b.(orders := a.orders, wallets := a.wallets, captured := a.captured)
    && a.orders.Keys == b.orders.Keys
    && (forall o :: o in b.orders && o != id ==> a.orders[o] == b.orders[o])
    && (out == NotFound <==> id !in b.orders)
    && (id in b.orders ==>
          && SameButStatus(b.orders[id], a.orders[id])
          && (out == Conflict <==> !Refundable(b.orders[id]))
          && a.orders[id].status == if out == RefundedNow then Refunded else b.orders[id].status)
    && a.wallets == (if out == RefundedNow && b.orders[id].total > 0 && b.orders[id].payment == Wallet
                     then Credited(b.wallets, b.orders[id].user, b.orders[id].total) else b.wallets)
    && a.captured == (if out == RefundedNow && PaysBack(b.orders[id], back) && b.orders[id].payment != Wallet
                      then b.captured - multiset{id} else b.captured)
  }

  /** The order's document after an attempt. */
  function AttemptedDoc(o: Order, reason: string, back: Back): Order {
    match Transition(o, {Processing, Completed}, Refunded, Event("refunded", reason), NoExtra)
    case None => o
    case Some(doc) =>
      if Declines(o, back) then
        match Transition(doc, {Refunded}, o.status, REVERTED, NoExtra)
        case Some(reverted) => reverted
        case None => doc
      else doc
  }

  lemma RefundAttempted(b: View, a: View, id: OrderId, reason: string, back: Back)
    requires id in b.orders
    requires var o := b.orders[id];
             var paid := Refundable(o) && PaysBack(o, back);
             && a == b.(orders := a.orders, wallets := a.wallets, captured := a.captured)
             && a.orders == (if Refundable(o) then b.orders[id := AttemptedDoc(o, reason, back)] else b.orders)
             && a.wallets == (if paid && o.payment == Wallet then Credited(b.wallets, o.user, o.total) else b.wallets)
             && a.captured == (if paid && o.payment != Wallet then b.captured - multiset{id} else b.captured)
    ensures var o := b.orders[id];
            Attempted(b, a, id, if !Refundable(o) then Conflict else if Declines(o, back) then CreditFailed else RefundedNow, back)
  {
  }

  /** What the refunds listed so far paid back to a customer's wallet. */
  function PaidBack(orders: map<OrderId, Order>, ids: seq<OrderId>, outs: seq<Outcome>, u: UserId): nat
    requires |ids| == |outs|
  {
    if ids == [] then 0
    else
      var last := |ids| - 1;
      PaidBack(orders, ids[..last], outs[..last], u)
      + if outs[last] == RefundedNow && ids[last] in orders && orders[ids[last]].payment == Wallet && orders[ids[last]].user == u
        then orders[ids[last]].total else 0
  }

  function Count(outs: seq<Outcome>): nat {
    if outs == [] then 0 else Count(outs[..|outs| - 1]) + if outs[|outs| - 1] == RefundedNow then 1 else 0
  }

  /** The order was refunded earlier in the batch. */
  predicate Earlier(ids: seq<OrderId>, outs: seq<Outcome>, i: nat)
    requires i < |ids| && i <= |outs|
  {
    exists j :: 0 <= j < i && ids[j] == ids[i] && outs[j] == RefundedNow
  }

  /** The right outcome for entry i of a batch: each order pays back at most once, however often it is listed. */
  predicate OutcomeOk(orders: map<OrderId, Order>, ids: seq<OrderId>, outs: seq<Outcome>, backs: seq<Back>, i: nat)
    requires i < |ids| && i < |outs| && |backs| == |ids|
  {
    if ids[i] !in orders then outs[i] == NotFound
    else if !Refundable(orders[ids[i]]) || Earlier(ids, outs, i) then outs[i] == Conflict
    else if Declines(orders[ids[i]], backs[i]) then outs[i] == CreditFailed
    else outs[i] == RefundedNow
  }

  ghost predicate Outcomes(orders: map<OrderId, Order>, ids: seq<OrderId>, outs: seq<Outcome>, backs: seq<Back>) {
    |outs| <= |ids| && |backs| == |ids| && forall i :: 0 <= i < |outs| ==> OutcomeOk(orders, ids, outs, backs, i)
  }

  /** Refunded exactly where the batch paid, and as before everywhere else. */
  ghost predicate Statuses(b: map<OrderId, Order>, a: map<OrderId, Order>, ids: seq<OrderId>, outs: seq<Outcome>) {
    && |outs| <= |ids| && a.Keys == b.Keys
    && forall o :: o in b ==>
         SameButStatus(b[o], a[o]) && a[o].status == if PaidIn(ids, outs, o) then Refunded else b[o].status
  }

  /** Each wallet is up by what the batch paid back to it. */
  ghost predicate Wallets(orders: map<OrderId, Order>, b: map<UserId, nat>, a: map<UserId, nat>, ids: seq<OrderId>, outs: seq<Outcome>) {
    |outs| <= |ids| && forall u :: Balance(a, u) == Balance(b, u) + PaidBack(orders, ids[..|outs|], outs, u)
  }

  /** After the first entries of a batch: outcomes, statuses and wallets agree, and nothing else changed. */
  ghost predicate BatchSoFar(b: View, a: View, ids: seq<OrderId>, outs: seq<Outcome>, backs: seq<Back>) {
    && a == b.(orders := a.orders, wallets := a.wallets, captured := a.captured)
    && Outcomes(b.orders, ids, outs, backs)
    && Statuses(b.orders, a.orders, ids, outs)
    && Wallets(b.orders, b.wallets, a.wallets, ids, outs)
    && Captures(b.orders, b.captured, a.captured, ids, outs, backs)
  }

  predicate PaidIn(ids: seq<OrderId>, outs: seq<Outcome>, o: OrderId)
    requires |outs| <= |ids|
  {
    exists j :: 0 <= j < |outs| && ids[j] == o && outs[j] == RefundedNow
  }

  /**
   One refund, told over documents, balances and captures: each outcome in exactly
   its case, the money back in full, or the order where it was with both events told.
   */
  ghost predicate RefundOutcome(b: View, a: View, id: OrderId, out: Outcome, back: Back) {
    if id !in b.orders then out == NotFound && a == b
    else
      var o := b.orders[id];
      if o.status != Processing && o.status != Completed then out == Conflict && a == b
      else
        && OnlyDocument(b, a, id) && a.awarded == b.awarded
        && if CannotReturn(o, back)
           then out == CreditFailed && Told(o, a.orders[id], o.status, ["refunded", "refund_reverted"]) && MoneyStays(b, a)
           else out == RefundedNow && Told(o, a.orders[id], Refunded, ["refunded"]) && PaidInFull(b, a, id, back == Given)
  }

  lemma RefundTold(b: View, a: View, id: OrderId, reason: string, back: Back)
    requires id in b.orders
    requires var o := b.orders[id];
             var paid := Refundable(o) && PaysBack(o, back);
             && a == b.(orders := a.orders, wallets := a.wallets, captured := a.captured)
             && a.orders == (if Refundable(o) then b.orders[id := AttemptedDoc(o, reason, back)] else b.orders)
             && a.wallets == (if paid && o.payment == Wallet then Credited(b.wallets, o.user, o.total) else b.wallets)
             && a.captured == (if paid && o.payment != Wallet then b.captured - multiset{id} else b.captured)
    ensures var o := b.orders[id];
            RefundOutcome(b, a, id, if !Refundable(o) then Conflict else if Declines(o, back) then CreditFailed else RefundedNow, back)
  {
  }

  /** The gateway captures the refunds listed so far reversed. */
  function ReversedBy(orders: map<OrderId, Order>, ids: seq<OrderId>, outs: seq<Outcome>, backs: seq<Back>): multiset<OrderId>
    requires |ids| == |outs| == |backs|
  {
    if ids == [] then multiset{}
    else
      var last := |ids| - 1;
      ReversedBy(orders, ids[..last], outs[..last], backs[..last])
      + if outs[last] == RefundedNow && ids[last] in orders && ThroughGateway(orders[ids[last]], backs[last]) then multiset{ids[last]} else multiset{}
  }

  /** The refund of this order reverses a gateway charge. */
  predicate ThroughGateway(o: Order, back: Back) {
    o.payment != Wallet && o.total > 0 && o.paymentRef !in {None, Some("")} && back == Given
  }

  /** Captures are fewer by what the batch reversed. */
  predicate Captures(orders: map<OrderId, Order>, b: multiset<OrderId>, a: multiset<OrderId>, ids: seq<OrderId>, outs: seq<Outcome>, backs: seq<Back>) {
    |outs| <= |ids| == |backs| && a == b - ReversedBy(orders, ids[..|outs|], outs, backs[..|outs|])
  }

  lemma CapturesStep(orders: map<OrderId, Order>, b: multiset<OrderId>, m: multiset<OrderId>, a: multiset<OrderId>,
                     ids: seq<OrderId>, outs: seq<Outcome>, backs: seq<Back>, out: Outcome)
    requires |outs| < |ids| && Captures(orders, b, m, ids, outs, backs)
    requires var id := ids[|outs|];
             a == if out == RefundedNow && id in orders && ThroughGateway(orders[id], backs[|outs|]) then m - multiset{id} else m
    ensures Captures(orders, b, a, ids, outs + [out], backs)
  {
    var n := |outs|;
    var more := if out == RefundedNow && ids[n] in orders && ThroughGateway(orders[ids[n]], backs[n]) then multiset{ids[n]} else multiset{};
    var x := ReversedBy(orders, ids[..n], outs, backs[..n]);
    ReversedStep(orders, ids, outs, backs, out);
    assert m == b - x && a == m - more;
    MinusTwice(b, x, more);
    assert |outs + [out]| == n + 1;
  }

  lemma ReversedStep(orders: map<OrderId, Order>, ids: seq<OrderId>, outs: seq<Outcome>, backs: seq<Back>, out: Outcome)
    requires |outs| < |ids| == |backs|
    ensures var n := |outs|;
            ReversedBy(orders, ids[..n + 1], outs + [out], backs[..n + 1])
            == ReversedBy(orders, ids[..n], outs, backs[..n])
               + if out == RefundedNow && ids[n] in orders && ThroughGateway(orders[ids[n]], backs[n]) then multiset{ids[n]} else multiset{}
  {
    var n, all := |outs|, outs + [out];
    assert ids[..n + 1][..n] == ids[..n] && all[..n] == outs && backs[..n + 1][..n] == backs[..n];
  }

  lemma MinusTwice(b: multiset<OrderId>, x: multiset<OrderId>, y: multiset<OrderId>)
    ensures b - x - y == b - (x + y)
  {
  }

  /** The entries of a batch that were refunded. */
  function RefundedIn(outs: seq<Outcome>): set<nat> {
    set i: nat | i < |outs| && outs[i] == RefundedNow
  }

  /** Count is their number. */
  lemma {:induction false} CountIsSize(outs: seq<Outcome>)
    ensures Count(outs) == |RefundedIn(outs)|
  {
    if outs != [] {
      var last := |outs| - 1;
      CountIsSize(outs[..last]);
      assert RefundedIn(outs) == RefundedIn(outs[..last]) + if outs[last] == RefundedNow then {last} else {};
    }
  }

  class Service {
    const db: Database

    constructor (db: Database)
      ensures this.db == db
    {
      this.db := db;
    }

    /**
     Transition first, money second, and the remembered status back when the
     money could not be returned.
     */
    method DoRefund(id: OrderId, reason: string, back: Back) returns (out: Outcome)
      modifies db`orders, db`wallets, db`captured
      ensures Attempted(old(db.Now()), db.Now(), id, out, back)
      ensures out == CreditFailed <==> id in old(db.orders) && Refundable(old(db.orders)[id]) && Declines(old(db.orders)[id], back)
      ensures RefundOutcome(old(db.Now()), db.Now(), id, out, back)
    {
      if id !in db.orders {
        return NotFound;
      }
      var before := db.orders[id];
      ghost var b := db.Now();
      var won := db.TransitionStatus(id, {Processing, Completed}, Refunded, Event("refunded", reason));
      if won {
        db.PayOrRevert(id, before, back);
      }
      RefundAttempted(b, db.Now(), id, reason, back);
      RefundTold(b, db.Now(), id, reason, back);
      return if !won then Conflict else if Declines(before, back) then CreditFailed else RefundedNow;
    }

    /** Completes a processing order by hand: its only other effect is one award. */
    method Complete(id: OrderId, note: string, transferRef: Option<string>) returns (ok: bool)
      modifies db`orders, db`awarded
      ensures ok <==> id in old(db.orders) && old(db.orders)[id].status == Processing
      ensures !ok ==> db.Now() == old(db.Now())
      ensures ok ==> OnlyDocument(old(db.Now()), db.Now(), id) && db.awarded == old(db.awarded) + multiset{id}
                     && var o := old(db.orders)[id];
                        var ref := if transferRef.Some? then transferRef else o.fulfillment.transferRef;
                        Told(o.(fulfillment := o.fulfillment.(transferRef := ref)), db.orders[id], Completed, ["completed"])
    {
      if id !in db.orders {
        return false;
      }
      var extra := if transferRef.Some? then TransferredBy(transferRef.value) else NoExtra;
      match Transition(db.orders[id], {Processing}, Completed, Event("completed", note), extra)
      case None => return false;
      case Some(doc) =>
        db.orders := db.orders[id := doc];
        db.awarded := db.awarded + multiset{id};
        return true;
    }

    /** Fails an order stuck in pending, by an operator or the payment expiry sweep; no money moves. */
    method MarkFailed(id: OrderId, reason: string) returns (ok: bool)
      modifies db`orders
      ensures ok <==> id in old(db.orders) && old(db.orders)[id].status == Pending
      ensures if ok then OnlyDocument(old(db.Now()), db.Now(), id) && Told(old(db.orders)[id], db.orders[id], Failed, ["failed"])
              else db.orders == old(db.orders)
    {
      if id !in db.orders {
        return false;
      }
      match Transition(db.orders[id], {Pending}, Failed, Event("failed", reason), NoExtra)
      case None => return false;
      case Some(doc) =>
        db.orders := db.orders[id := doc];
        return true;
    }

    /** The next order of a batch; b is what everything was before the batch. */
    method RefundNext(ids: seq<OrderId>, reason: string, backs: seq<Back>, outs: seq<Outcome>, ghost b: View) returns (out: Outcome)
      requires BatchSoFar(b, db.Now(), ids, outs, backs) && |outs| < |ids|
      modifies db`orders, db`wallets, db`captured
      ensures BatchSoFar(b, db.Now(), ids, outs + [out], backs)
    {
      ghost var m := db.Now();
      out := DoRefund(ids[|outs|], reason, backs[|outs|]);
      BatchStep(b, m, db.Now(), ids, outs, backs, out);
    }

    /** Refunds each listed order on its own; one failure never stops the rest, and a repeated id is a conflict. */
    method RefundBulk(ids: seq<OrderId>, reason: string, backs: seq<Back>) returns (outs: seq<Outcome>, refunded: nat)
      requires |backs| == |ids|
      modifies db`orders, db`wallets, db`captured
      ensures |outs| == |ids| && refunded == Count(outs)
      ensures BatchSoFar(old(db.Now()), db.Now(), ids, outs, backs)
    {
      outs, refunded := [], 0;
      EmptyBatch(db.Now(), ids, backs);
      for i := 0 to |ids|
        invariant |outs| == i && refunded == Count(outs)
        invariant BatchSoFar(old(db.Now()), db.Now(), ids, outs, backs)
      {
        var out := RefundNext(ids, reason, backs, outs, old(db.Now()));
        CountGrows(outs, out);
        refunded := refunded + if out == RefundedNow then 1 else 0;
        outs := outs + [out];
      }
    }
  }

  lemma CountGrows(outs: seq<Outcome>, out: Outcome)
    ensures Count(outs + [out]) == Count(outs) + if out == RefundedNow then 1 else 0
  {
    assert (outs + [out])[..|outs + [out]| - 1] == outs;
  }

  lemma EmptyBatch(b: View, ids: seq<OrderId>, backs: seq<Back>)
    requires |backs| == |ids|
    ensures BatchSoFar(b, b, ids, [], backs)
  {
  }

  lemma BatchStep(b: View, m: View, a: View, ids: seq<OrderId>, outs: seq<Outcome>, backs: seq<Back>, out: Outcome)
    requires BatchSoFar(b, m, ids, outs, backs) && |outs| < |ids|
    requires var id := ids[|outs|];
             && Attempted(m, a, id, out, backs[|outs|])
             && (out == CreditFailed <==> id in m.orders && Refundable(m.orders[id]) && Declines(m.orders[id], backs[|outs|]))
    ensures BatchSoFar(b, a, ids, outs + [out], backs)
  {
    StatusesStep(b.orders, m.orders, a.orders, ids, outs, out);
    OutcomesStep(b.orders, m.orders, ids, outs, backs, out);
    MoneyStep(b, m, a, ids, outs, backs, out);
  }

  lemma MoneyStep(b: View, m: View, a: View, ids: seq<OrderId>, outs: seq<Outcome>, backs: seq<Back>, out: Outcome)
    requires BatchSoFar(b, m, ids, outs, backs) && |outs| < |ids| && Attempted(m, a, ids[|outs|], out, backs[|outs|])
    ensures Wallets(b.orders, b.wallets, a.wallets, ids, outs + [out])
    ensures Captures(b.orders, b.captured, a.captured, ids, outs + [out], backs)
  {
    var id := ids[|outs|];
    SameOwner(b, m, ids, outs, id);
    WalletsStep(b.orders, b.wallets, m.wallets, a.wallets, ids, outs, out);
    CapturesStep(b.orders, b.captured, m.captured, a.captured, ids, outs, backs, out);
  }

  /** Whose order it is and how it was paid have not changed. */
  lemma SameOwner(b: View, m: View, ids: seq<OrderId>, outs: seq<Outcome>, id: OrderId)
    requires Statuses(b.orders, m.orders, ids, outs)
    ensures id in b.orders <==> id in m.orders
    ensures id in b.orders ==>
              var o, o' := b.orders[id], m.orders[id];
              o'.user == o.user && o'.total == o.total && o'.payment == o.payment && o'.paymentRef == o.paymentRef
  {
    assert id in b.orders ==> SameButStatus(b.orders[id], m.orders[id]);
  }

  lemma OutcomesStep(b: map<OrderId, Order>, m: map<OrderId, Order>, ids: seq<OrderId>, outs: seq<Outcome>, backs: seq<Back>, out: Outcome)
    requires |outs| < |ids| && Outcomes(b, ids, outs, backs) && Statuses(b, m, ids, outs)
    requires var id := ids[|outs|];
             && (out == NotFound <==> id !in m)
             && (id in m ==> (out == Conflict <==> !Refundable(m[id])))
             && (out == CreditFailed <==> id in m && Refundable(m[id]) && Declines(m[id], backs[|outs|]))
    ensures Outcomes(b, ids, outs + [out], backs)
  {
    var n, all := |outs|, outs + [out];
    assert forall j :: 0 <= j < n ==> all[j] == outs[j];
    assert PaidIn(ids, outs, ids[n]) <==> Earlier(ids, all, n);
    forall i | 0 <= i < n
      ensures OutcomeOk(b, ids, all, backs, i)
    {
      assert OutcomeOk(b, ids, outs, backs, i);
      assert Earlier(ids, all, i) <==> Earlier(ids, outs, i);
    }
  }

  lemma StatusesStep(b: map<OrderId, Order>, m: map<OrderId, Order>, a: map<OrderId, Order>, ids: seq<OrderId>, outs: seq<Outcome>, out: Outcome)
    requires |outs| < |ids| && Statuses(b, m, ids, outs) && a.Keys == m.Keys
    requires forall o :: o in m && o != ids[|outs|] ==> a[o] == m[o]
    requires var id := ids[|outs|];
             id in m ==> SameButStatus(m[id], a[id]) && a[id].status == if out == RefundedNow then Refunded else m[id].status
    ensures Statuses(b, a, ids, outs + [out])
  {
    forall o | o in b
      ensures SameButStatus(b[o], a[o]) && a[o].status == if PaidIn(ids, outs + [out], o) then Refunded else b[o].status
    {
      PaidInGrows(ids, outs, out, o);
      assert SameButStatus(b[o], m[o]);
    }
  }

  lemma PaidInGrows(ids: seq<OrderId>, outs: seq<Outcome>, out: Outcome, o: OrderId)
    requires |outs| < |ids|
    ensures PaidIn(ids, outs + [out], o) <==> PaidIn(ids, outs, o) || (ids[|outs|] == o && out == RefundedNow)
  {
    var n, all := |outs|, outs + [out];
    assert forall j :: 0 <= j < n ==> all[j] == outs[j];
    if ids[n] == o && out == RefundedNow {
      assert ids[n] == o && all[n] == RefundedNow;
    }
  }

  lemma WalletsStep(orders: map<OrderId, Order>, b: map<UserId, nat>, m: map<UserId, nat>, a: map<UserId, nat>,
                    ids: seq<OrderId>, outs: seq<Outcome>, out: Outcome)
    requires |outs| < |ids| && Wallets(orders, b, m, ids, outs)
    requires var id := ids[|outs|];
             a == if out == RefundedNow && id in orders && orders[id].total > 0 && orders[id].payment == Wallet
                  then Credited(m, orders[id].user, orders[id].total) else m
    ensures Wallets(orders, b, a, ids, outs + [out])
  {
    var n, all := |outs|, outs + [out];
    assert ids[..n + 1][..n] == ids[..n] && all[..n] == outs;
  }
}
