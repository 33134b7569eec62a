/**
 What a dispatch and a placement leave behind, told over documents, rows,
 commands and balances: which answer of the outside world leads where, for each
 kind of cart.
 */
module Outcomes {
  import opened Basics
  import opened Orders
  import opened Codes
  import B = Bridge
  import opened Database
  import opened Placement

  /** A charge went back: into the wallet, or through the gateway where it left a reference. */
  ghost predicate MoneyBack(b: View, a: View, id: OrderId, charged: bool)
    requires id in b.orders
  {
    var o := b.orders[id];
    && WalletBy(b.wallets, a.wallets, o.user, if charged && o.payment == Wallet then o.total else 0)
    && a.captured == if charged && o.payment != Wallet && o.paymentRef.Some? && o.paymentRef.value != ""
                     then b.captured - multiset{id} else b.captured
  }

  /** Only this order's document changed, and not its terms. */
  ghost predicate OnlyThis(b: View, a: View, id: OrderId) {
    && id in b.orders && a.orders.Keys == b.orders.Keys && (forall o :: o in b.orders && o != id ==> a.orders[o] == b.orders[o])
    && var o, o' := b.orders[id], a.orders[id];
       && o'.user == o.user && o'.total == o.total && o'.payment == o.payment && o'.paymentRef == o.paymentRef
       && o'.key == o.key && o'.createdAt == o.createdAt
  }

  /** Failed, with nothing kept. */
  ghost predicate TakenBack(b: View, a: View, id: OrderId, charged: bool) {
    && OnlyThis(b, a, id) && a.orders[id].status == Failed && a.orders[id].items == b.orders[id].items
    && a.codes == b.codes && a.commands == b.commands && a.awarded == b.awarded && MoneyBack(b, a, id, charged)
  }

  /** Served or queued: no money moved, and an award exactly for a completed order. */
  ghost predicate Kept(b: View, a: View, id: OrderId, to: Status) {
    && OnlyThis(b, a, id) && a.orders[id].status == to && MoneyStays(b, a)
    && a.awarded == if to == Completed then b.awarded + multiset{id} else b.awarded
  }

  /** No code and no command, and the lines as placed. */
  ghost predicate Plain(b: View, a: View, id: OrderId) {
    id in b.orders && id in a.orders && a.codes == b.codes && a.commands == b.commands && a.orders[id].items == b.orders[id].items
  }

  /** References, codes and retry clock as they were. */
  ghost predicate SameAnswer(f: Fulfillment, g: Fulfillment) {
    g == f.(timeline := g.timeline)
  }

  // ----- one kind of cart at a time -----

  /** Supplier lines: the answer decides, and it is kept on the document. */
  ghost predicate ApiOutcome(b: View, a: View, id: OrderId, charged: bool, env: Env, ok: bool) {
    && id in b.orders && id in a.orders
    && var f, g := b.orders[id].fulfillment, a.orders[id].fulfillment;
       match env.answer
       case Done(ref, codes) =>
         && ok && Kept(b, a, id, Completed) && Plain(b, a, id)
         && g.transferRef == Some(ref) && g.providerRef == Some(ref)
         && g.deliveredCode == (if codes.Some? then codes else f.deliveredCode) && g.nextRetryAt == f.nextRetryAt
       case Working(ref) =>
         ok && Kept(b, a, id, Processing) && Plain(b, a, id) && SameAnswer(f.(providerRef := Some(ref)), g)
       case Unavailable =>
         ok && Kept(b, a, id, Processing) && Plain(b, a, id) && SameAnswer(f.(nextRetryAt := Some(env.now + 60)), g)
       case NotWired => ok && Kept(b, a, id, Processing) && Plain(b, a, id) && SameAnswer(f, g)
       case HardError => !ok && TakenBack(b, a, id, charged)
  }

  /** A recharge cannot be sent: no card left, or the command was not stored. */
  ghost predicate CannotSend(b: View, id: OrderId, env: Env) {
    && id in b.orders && b.orders[id].items != [] && env.bridgeOn && env.spec.Some?
    && (!env.stored || (env.spec.value.recharge
                        && forall k :: k in b.codes ==> !(b.codes[k].product == b.orders[id].items[0].product && b.codes[k].status == Available)))
  }

  /** One row of the product, available before, went to the order; it holds no other. */
  ghost predicate OneCardTaken(b: View, a: View, id: OrderId, k: CodeId) {
    && id in b.orders && b.orders[id].items != [] && k in b.codes && a.codes.Keys == b.codes.Keys
    && b.codes[k].status == Available && Serving(a.codes, k, id, b.orders[id].items[0].product, b.codes[k].value)
    && forall j :: j in b.codes && j != k ==> a.codes[j] == b.codes[j]
  }

  /** One fresh command for the order, queued, carrying this card. */
  ghost predicate OneCommand(b: View, a: View, id: OrderId, env: Env, c: B.CommandId, card: string) {
    && env.spec.Some? && c !in b.commands && a.commands.Keys == b.commands.Keys + {c}
    && (forall d :: d in b.commands ==> a.commands[d] == b.commands[d])
    && var cmd := a.commands[c];
       && cmd.order == Some(id) && cmd.provider == env.spec.value.provider && cmd.card == card
       && cmd.kind == (if env.spec.value.recharge then B.RechargeLine else B.TransferCredit)
       && cmd.status == B.Queued && cmd.attempts == 0 && cmd.result.None? && cmd.device.None? && cmd.createdAt == env.now
  }

  /** Recharge lines: parked with one command and one card, or by hand, whatever a supplier would say. */
  ghost predicate BridgeOutcome(b: View, a: View, id: OrderId, charged: bool, env: Env, ok: bool) {
    && id in b.orders && id in a.orders && (ok <==> !CannotSend(b, id, env))
    && if !ok then TakenBack(b, a, id, charged)
       else
         && Kept(b, a, id, Processing) && a.orders[id].items == b.orders[id].items
         && SameAnswer(b.orders[id].fulfillment, a.orders[id].fulfillment)
         && if !env.bridgeOn || env.spec.None? then Plain(b, a, id)
            else if env.spec.value.recharge then
              exists c, k :: OneCardTaken(b, a, id, k) && OneCommand(b, a, id, env, c, a.codes[k].value)
            else a.codes == b.codes && exists c :: OneCommand(b, a, id, env, c, "")
  }

  /** Code lines: served exactly when the pool covers them, each line with its own codes; the rest of a mixed cart waits. */
  ghost predicate CodesOutcome(b: View, a: View, id: OrderId, charged: bool, ok: bool) {
    && id in b.orders && id in a.orders
    && var o, o' := b.orders[id], a.orders[id];
       && (ok <==> forall p :: UnitsOf(o.items, p) <= |AvailableIds(b.codes, p)|)
       && if !ok then TakenBack(b, a, id, charged)
          else
            && Kept(b, a, id, if AllLines(o.items, Inventory) then Completed else Processing) && a.commands == b.commands
            && ClaimsOnly(b.codes, a.codes, id) && (forall p :: |OwnedOf(a.codes, id, p)| == UnitsOf(o.items, p))
            && LinesRecorded(a.codes, id, o.items, o'.items) && ShowsFirst(o'.items, o'.fulfillment.deliveredCode)
            && SameAnswer(o.fulfillment.(deliveredCode := o'.fulfillment.deliveredCode), o'.fulfillment)
  }

  ghost predicate ManualOutcome(b: View, a: View, id: OrderId, ok: bool) {
    && ok && Kept(b, a, id, Processing) && Plain(b, a, id)
    && SameAnswer(b.orders[id].fulfillment, a.orders[id].fulfillment)
  }

  /** The cart's lines decide who is asked. */
  ghost predicate DispatchOutcome(b: View, a: View, id: OrderId, charged: bool, env: Env, ok: bool) {
    && id in b.orders && id in a.orders
    && var items := b.orders[id].items;
       if AllLines(items, Api) then ApiOutcome(b, a, id, charged, env, ok)
       else if AllLines(items, BridgeDevice) then BridgeOutcome(b, a, id, charged, env, ok)
       else if AllLines(items, Inventory) || CodesAndManual(items) then CodesOutcome(b, a, id, charged, ok)
       else ManualOutcome(b, a, id, ok)
  }

  // ----- and that is what a dispatch does -----

  lemma UndoneIsTakenBack(b: View, a: View, id: OrderId, charged: bool)
    requires Undone(b, a, id, charged)
    ensures TakenBack(b, a, id, charged)
  {
  }

  lemma OwnsNoMore(before: Pool, now: Pool, id: OrderId)
    requires OwnedIds(before, id) == {} && ClaimsOnly(before, now, id) && forall p :: OwnedOf(now, id, p) == {}
    ensures now == before
  {
    forall k | k in before
      ensures now[k] == before[k]
    {
      assert k !in OwnedOf(now, id, before[k].product);
    }
  }

  lemma FulfilledKeeps(b: View, a: View, id: OrderId, env: Env)
    requires Fulfilled(b, a, id, env)
    ensures Kept(b, a, id, if Completes(b.orders[id].items, env) then Completed else Processing)
  {
  }

  /** Nothing needed, nothing taken. */
  lemma NoneNeeded(b: View, a: View, id: OrderId, env: Env)
    requires Fulfilled(b, a, id, env) && OwnedIds(b.codes, id) == {}
    requires forall p :: Needed(b.orders[id].items, env, p) == 0
    ensures a.codes == b.codes
  {
    OwnsNoMore(b.codes, a.codes, id);
  }

  lemma ApiFollowsAnswer(b: View, a: View, id: OrderId, charged: bool, env: Env, ok: bool)
    requires id in b.orders && AllLines(b.orders[id].items, Api) && OwnedIds(b.codes, id) == {}
    requires ok <==> !Fails(b.codes, b.orders[id].items, env)
    requires if ok then Fulfilled(b, a, id, env) else Undone(b, a, id, charged)
    ensures ApiOutcome(b, a, id, charged, env, ok)
  {
    RouteServes(b.orders[id].items, ApiPath);
    if ok {
      FulfilledKeeps(b, a, id, env);
      NoneNeeded(b, a, id, env);
    }
  }

  lemma ManualWaits(b: View, a: View, id: OrderId, env: Env, ok: bool)
    requires id in b.orders && Serves(ManualPath, b.orders[id].items) && OwnedIds(b.codes, id) == {}
    requires ok <==> !Fails(b.codes, b.orders[id].items, env)
    requires ok ==> Fulfilled(b, a, id, env)
    ensures ManualOutcome(b, a, id, ok)
  {
    RouteServes(b.orders[id].items, ManualPath);
    FulfilledKeeps(b, a, id, env);
    NoneNeeded(b, a, id, env);
  }

  lemma CodesDelivered(b: View, a: View, id: OrderId, charged: bool, env: Env, ok: bool)
    requires id in b.orders && (AllLines(b.orders[id].items, Inventory) || CodesAndManual(b.orders[id].items))
    requires ok <==> !Fails(b.codes, b.orders[id].items, env)
    requires if ok then Fulfilled(b, a, id, env) else Undone(b, a, id, charged)
    ensures CodesOutcome(b, a, id, charged, ok)
  {
    var items := b.orders[id].items;
    RouteServes(items, InventoryPath);
    RouteServes(items, MixedPath);
    if ok {
      FulfilledKeeps(b, a, id, env);
    }
  }

  lemma NoCardLeft(b: View, id: OrderId)
    requires id in b.orders && b.orders[id].items != []
    ensures AvailableIds(b.codes, b.orders[id].items[0].product) == {} <==>
            forall k :: k in b.codes ==> !(b.codes[k].product == b.orders[id].items[0].product && b.codes[k].status == Available)
  {
    var p := b.orders[id].items[0].product;
    forall k | k in b.codes && b.codes[k].product == p && b.codes[k].status == Available
      ensures AvailableIds(b.codes, p) != {}
    {
      assert k in AvailableIds(b.codes, p);
    }
  }

  /** The one code owed is the card. */
  lemma TheCard(b: View, a: View, id: OrderId, env: Env, k: CodeId)
    requires Fulfilled(b, a, id, env) && OwnedIds(b.codes, id) == {} && Route(b.orders[id].items) == BridgePath && SendsCard(env)
    requires k in a.codes && OwnedBy(a.codes[k], id)
    ensures OneCardTaken(b, a, id, k)
  {
    var p := b.orders[id].items[0].product;
    assert |OwnedOf(a.codes, id, p)| == 1;
    var q := a.codes[k].product;
    assert k in OwnedOf(a.codes, id, q);
    assert q == p;
    var only :| only in OwnedOf(a.codes, id, p);
    assert OwnedOf(a.codes, id, p) == {only} by {
      assert |OwnedOf(a.codes, id, p) - {only}| == 0;
    }
    forall j | j in b.codes && j != k
      ensures a.codes[j] == b.codes[j]
    {
      assert j !in OwnedOf(a.codes, id, p);
      assert j !in OwnedOf(a.codes, id, a.codes[j].product);
    }
    assert k !in OwnedIds(b.codes, id);
  }

  lemma BridgeSends(b: View, a: View, id: OrderId, env: Env)
    requires Fulfilled(b, a, id, env) && OwnedIds(b.codes, id) == {} && Route(b.orders[id].items) == BridgePath
    requires env.bridgeOn && env.spec.Some?
    ensures if env.spec.value.recharge then
              exists c, k :: OneCardTaken(b, a, id, k) && OneCommand(b, a, id, env, c, a.codes[k].value)
            else exists c :: OneCommand(b, a, id, env, c, "")
  {
    var c, card :| c !in b.commands && a.commands == b.commands[c := NewCommand(id, env.spec.value, card, env.now)]
                   && (if env.spec.value.recharge then exists k: CodeId :: k in a.codes && OwnedBy(a.codes[k], id) && a.codes[k].value == card
                       else card == "");
    assert OneCommand(b, a, id, env, c, card);
    if env.spec.value.recharge {
      var k: CodeId :| k in a.codes && OwnedBy(a.codes[k], id) && a.codes[k].value == card;
      TheCard(b, a, id, env, k);
      assert OneCardTaken(b, a, id, k) && OneCommand(b, a, id, env, c, a.codes[k].value);
    }
  }

  lemma BridgeParks(b: View, a: View, id: OrderId, charged: bool, env: Env, ok: bool)
    requires id in b.orders && AllLines(b.orders[id].items, BridgeDevice) && OwnedIds(b.codes, id) == {}
    requires ok <==> !Fails(b.codes, b.orders[id].items, env)
    requires if ok then Fulfilled(b, a, id, env) else Undone(b, a, id, charged)
    ensures BridgeOutcome(b, a, id, charged, env, ok)
  {
    RouteServes(b.orders[id].items, BridgePath);
    NoCardLeft(b, id);
    if ok {
      FulfilledKeeps(b, a, id, env);
      if !SendsCard(env) {
        NoneNeeded(b, a, id, env);
      }
      if env.bridgeOn && env.spec.Some? {
        BridgeSends(b, a, id, env);
      }
    }
  }

  /** Exactly when it fails, undone; otherwise fulfilled: told by the lines of the cart. */
  lemma DispatchTold(b: View, a: View, id: OrderId, charged: bool, env: Env, ok: bool)
    requires id in b.orders && OwnedIds(b.codes, id) == {}
    requires ok <==> !Fails(b.codes, b.orders[id].items, env)
    requires if ok then Fulfilled(b, a, id, env) else Undone(b, a, id, charged)
    ensures DispatchOutcome(b, a, id, charged, env, ok)
  {
    var items := b.orders[id].items;
    if AllLines(items, Api) {
      ApiFollowsAnswer(b, a, id, charged, env, ok);
    } else if AllLines(items, BridgeDevice) {
      BridgeParks(b, a, id, charged, env, ok);
    } else if AllLines(items, Inventory) || CodesAndManual(items) {
      CodesDelivered(b, a, id, charged, env, ok);
    } else {
      RouteServes(items, ManualPath);
      ManualWaits(b, a, id, env, ok);
    }
  }

  /** Why a dispatch failed. */
  ghost function WhyFailed(b: View, id: OrderId, env: Env): PlaceError
    requires id in b.orders
  {
    var items := b.orders[id].items;
    if AllLines(items, Api) then Upstream
    else if AllLines(items, BridgeDevice) && !(env.spec.Some? && env.spec.value.recharge && AvailableIds(b.codes, items[0].product) == {}) then NotStored
    else NoStock
  }

  // ----- whole placements -----

  /** The stored document is the caller's order, under the caller's key; its lines may have got their codes. */
  predicate StoredFor(d: Order, user: UserId, key: string, q: Quote, now: Time) {
    && d.user == user && d.key == key && d.total == q.total && d.payment == q.payment && d.createdAt == now
    && |d.items| == |q.items| && forall i :: 0 <= i < |q.items| ==> d.items[i] == q.items[i].(codes := d.items[i].codes)
  }

  /** A document nothing has happened to but the charge. */
  predicate Untouched(d: Order, q: Quote) {
    d.items == q.items && d.fulfillment == Fulfillment(None, None, None, 0, None, None, [Event("created", "")])
  }

  /** One new document, and either nothing else, or the money and exactly what its dispatch did. */
  ghost predicate PlacementOutcome(b: View, a: View, id: OrderId, user: UserId, key: string, q: Quote, env: Env, ok: bool) {
    && id !in b.orders && a.orders.Keys == b.orders.Keys + {id} && (forall o :: o in b.orders ==> a.orders[o] == b.orders[o])
    && StoredFor(a.orders[id], user, key, q, env.now)
    && if !ok then a == b.(orders := a.orders) && a.orders[id].status == Failed
       else if q.payment == Usdt && q.total > 0
       then a == b.(orders := a.orders) && a.orders[id].status == Pending && Untouched(a.orders[id], q)
       else
         && WalletBy(b.wallets, a.wallets, user, if q.payment == Wallet then 0 - q.total else 0)
         && a.captured == (if q.payment == Card && q.total > 0 then b.captured + multiset{id} else b.captured)
         && (q.payment == Card && q.total > 0 ==> a.orders[id].paymentRef.Some?)
         && a.awarded == (if a.orders[id].status == Completed then b.awarded + multiset{id} else b.awarded)
         && exists m: View :: ChargedState(b, m, id, q) && DispatchOutcome(m, a, id, q.total > 0, env, true)
  }

  /** The shop between the charge and the dispatch, as far as a dispatch looks at it. */
  predicate ChargedState(b: View, m: View, id: OrderId, q: Quote) {
    m.codes == b.codes && m.commands == b.commands && m.awarded == b.awarded && id in m.orders && Untouched(m.orders[id], q)
  }

  lemma ChargedTold(b: View, id: OrderId, o: Order, q: Quote)
    requires id !in b.orders && Untouched(o, q) && o.payment == q.payment && o.total == q.total
    requires o.payment == Wallet ==> Balance(b.wallets, o.user) >= o.total
    requires o.payment == Usdt ==> o.total == 0
    ensures var m := Charged(b, id, o);
            && ChargedState(b, m, id, q)
            && WalletBy(b.wallets, m.wallets, o.user, if q.payment == Wallet then 0 - q.total else 0)
            && m.captured == (if q.payment == Card && q.total > 0 then b.captured + multiset{id} else b.captured)
            && (q.payment == Card && q.total > 0 ==> m.orders[id].paymentRef.Some?)
            && m.orders.Keys == b.orders.Keys + {id} && (forall x :: x in b.orders ==> m.orders[x] == b.orders[x])
            && m.orders[id] == o.(paymentRef := m.orders[id].paymentRef)
  {
  }

  /** Served, an order's lines are the quoted ones, with codes. */
  lemma SameLines(pool: Pool, id: OrderId, before: Order, after: Order)
    requires ItemsOk(pool, id, before, after)
    ensures |after.items| == |before.items|
    ensures forall i :: 0 <= i < |before.items| ==> after.items[i] == before.items[i].(codes := after.items[i].codes)
  {
    if Route(before.items) == InventoryPath || Route(before.items) == MixedPath {
      var rows: seq<seq<CodeId>> :| RowsShown(pool, id, before.items, after.items, rows);
      forall i | 0 <= i < |before.items|
        ensures after.items[i] == before.items[i].(codes := after.items[i].codes)
      {
        assert LineShows(pool, id, before.items[i], after.items[i], rows[i]);
      }
    }
  }

  lemma PlacementTold(b: View, a: View, id: OrderId, user: UserId, key: string, q: Quote, env: Env, ok: bool)
    requires Placed(b, a, id, NewOrder(user, key, q, env.now), ok, env) && OwnedIds(b.codes, id) == {}
    requires ok && !(q.payment == Usdt && q.total > 0) ==> !Fails(b.codes, q.items, env)
    ensures PlacementOutcome(b, a, id, user, key, q, env, ok)
  {
    var o := NewOrder(user, key, q, env.now);
    if ok && !(q.payment == Usdt && q.total > 0) {
      var m := Charged(b, id, o);
      ChargedTold(b, id, o, q);
      DispatchTold(m, a, id, q.total > 0, env, true);
      SameLines(a.codes, id, m.orders[id], a.orders[id]);
      FulfilledKeeps(m, a, id, env);
    }
  }
}
