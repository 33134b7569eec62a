/** Placement, dispatch and compensation of orders, each write one step on the shared documents. */
module OrderService {
  import opened Basics
  import opened Orders
  import opened Codes
  import B = Bridge
  import Slugs
  import opened Database
  import CodeService
  import opened Placement
  import opened Outcomes

  datatype Verdict = Settled | NotPayable | Missing

  class Service {
    const db: Database
    const codes: CodeService.Service

    constructor (db: Database, codes: CodeService.Service)
      requires codes.db == db
      ensures this.db == db && this.codes == codes
    {
      this.db := db;
      this.codes := codes;
    }

    ghost predicate Wired()
    {
      codes.db == db
    }

    /** True between top-level operations: stock mirrors the pool, codes are held only by served orders, and a key names one order. */
    ghost predicate Valid()
      reads db
    {
      Wired() && codes.Valid() && OwnersOk(db.orders, db.codes) && KeysOk(db.orders)
    }

    // ----- compensation -----

    /** Gives the codes back, returns the charge, fails the order. */
    method Compensate(id: OrderId, claimed: seq<ProductId>, charged: bool)
      requires Wired() && id in db.orders
      modifies db`orders, db`codes, db`stock, db`wallets, db`captured
      ensures db.codes == Released(old(db.codes), id)
      ensures db.stock == Mirrored(old(db.stock), db.codes, Elements(claimed))
      ensures db.orders == old(db.orders)[id := SetStatus(old(db.orders)[id], Failed)]
      ensures Repaid(old(db.Now()), db.Now(), old(db.orders)[id], id, charged)
    {
      var o := db.orders[id];
      codes.ReleaseForOrder(id, claimed);
      if charged {
        if o.payment == Wallet {
          db.wallets := Credited(db.wallets, o.user, o.total);
        } else if HasRef(o) {
          db.captured := db.captured - multiset{id};
        }
      }
      db.orders := db.orders[id := SetStatus(o, Failed)];
    }

    // ----- claims across lines -----

    /**
     Claims a code per unit of every inventory line, or nothing: on the first
     shortage the whole order is compensated. It succeeds exactly when the pool
     covers the cart.
     */
    method ClaimInventoryLines(id: OrderId, charged: bool) returns (r: Result<seq<seq<CodeId>>, PlaceError>)
      requires Valid() && id in db.orders && OwnedIds(db.codes, id) == {}
      modifies db`orders, db`codes, db`stock, db`wallets, db`captured
      ensures PoolOk(db.codes) && StockTrue(db.stock, db.codes)
      ensures var items := old(db.orders)[id].items;
              && (r.Ok? <==> Coverable(old(db.codes), items))
              && (r.Ok? ==> Claimed(old(db.codes), db.codes, id, items, |items|, r.value)
                            && db.Now() == old(db.Now()).(codes := db.codes))
      ensures r.Err? ==> r.error == NoStock && Undone(old(db.Now()), db.Now(), id, charged)
      ensures r.Ok? ==> StampedFor(db.codes, id, Slugs.Decimal(old(db.orders)[id].user))
    {
      var items := db.orders[id].items;
      var holder := Slugs.Decimal(db.orders[id].user);
      ghost var before := db.codes;
      var lines: seq<seq<CodeId>> := [];
      var claimed: seq<ProductId> := [];
      NothingClaimed(before, id, items);
      NoneStamped(before, id, holder);
      for i := 0 to |items|
        invariant Progress(before, db.codes, db.stock, id, items, i, lines, claimed, holder)
        invariant db.Now() == old(db.Now()).(codes := db.codes)
      {
        if ItemMode(items[i]) != Inventory {
          SkipLine(before, db.codes, db.stock, id, items, i, lines, claimed, holder);
          lines := lines + [[]];
        } else {
          var pid := items[i].product;
          var got := ClaimLineCodes(id, items, i, lines, claimed, charged, holder, old(db.Now()));
          if got.Err? {
            return Err(NoStock);
          }
          claimed := claimed + [pid];
          lines := lines + [got.value];
        }
      }
      Covered(before, db.codes, id, items, lines);
      return Ok(lines);
    }

    /** Compensates a short order; the failed claim has already given its codes back, so b is the shop again. */
    method TakeBackClaims(id: OrderId, claimed: seq<ProductId>, charged: bool, ghost b: View)
      requires Wired() && id in db.orders && db.Now() == b && PoolOk(b.codes) && Released(b.codes, id) == b.codes
      requires StockTrue(Mirrored(db.stock, b.codes, Elements(claimed)), b.codes)
      modifies db`orders, db`codes, db`stock, db`wallets, db`captured
      ensures PoolOk(db.codes) && StockTrue(db.stock, db.codes) && Undone(b, db.Now(), id, charged)
    {
      Compensate(id, claimed, charged);
    }

    /** One inventory line's codes, or, on a shortage, the whole order compensated; b is what everything was before the first line. */
    method ClaimLineCodes(id: OrderId, items: seq<Item>, i: nat, lines: seq<seq<CodeId>>, claimed: seq<ProductId>, charged: bool,
                          holder: string, ghost b: View) returns (r: Result<seq<CodeId>, PlaceError>)
      requires Wired() && id in db.orders && db.orders[id].items == items && i < |items| && ItemMode(items[i]) == Inventory
      requires PoolOk(b.codes) && OwnedIds(b.codes, id) == {} && db.Now() == b.(codes := db.codes)
      requires Progress(b.codes, db.codes, db.stock, id, items, i, lines, claimed, holder)
      modifies db`orders, db`codes, db`stock, db`wallets, db`captured
      ensures r.Ok? ==>
                && Progress(b.codes, db.codes, db.stock, id, items, i + 1, lines + [r.value], claimed + [items[i].product], holder)
                && db.Now() == b.(codes := db.codes)
      ensures r.Err? ==> !Coverable(b.codes, items) && PoolOk(db.codes) && StockTrue(db.stock, db.codes) && Undone(b, db.Now(), id, charged)
    {
      ghost var now, stock := db.codes, db.stock;
      var pid := items[i].product;
      var got := codes.ClaimForOrder(pid, id, holder, items[i].qty);
      if got.Err? {
        FailLine(b.codes, now, stock, id, items, i, lines, claimed, holder);
        TakeBackClaims(id, claimed, charged, b);
        return Err(NoStock);
      }
      ProgressLine(b.codes, now, stock, id, items, i, lines, claimed, got.value, holder);
      return Ok(got.value);
    }

    // ----- document writes -----

    /** The guarded write of codes and status; refused once the order has left pending and processing. */
    method UpdateFulfillmentWithCodes(id: OrderId, to: Status, f: Fulfillment, itemCodes: seq<Option<seq<string>>>) returns (ok: bool)
      requires id in db.orders && |itemCodes| == |db.orders[id].items|
      modifies db`orders
      ensures ok <==> old(db.orders)[id].status in {Pending, Processing}
      ensures db.orders == if ok then old(db.orders)[id := DeliverCodes(old(db.orders)[id], to, f, itemCodes).value] else old(db.orders)
    {
      match DeliverCodes(db.orders[id], to, f, itemCodes)
      case Some(doc) =>
        db.orders := db.orders[id := doc];
        return true;
      case None => return false;
    }

    /** The unguarded write of status and fulfillment. */
    method UpdateFulfillment(id: OrderId, to: Status, f: Fulfillment)
      requires id in db.orders
      modifies db`orders
      ensures db.orders == old(db.orders)[id := SetFulfillment(old(db.orders)[id], to, f)]
    {
      db.orders := db.orders[id := SetFulfillment(db.orders[id], to, f)];
    }

    /** Queues the order with an explanatory note. */
    method Park(id: OrderId, f: Fulfillment, note: string) returns (g: Fulfillment)
      requires id in db.orders
      modifies db`orders
      ensures g == WithEvent(WithEvent(f, Event("submitted", "")), Event("processing", note))
      ensures db.orders == old(db.orders)[id := SetFulfillment(old(db.orders)[id], Processing, g)]
    {
      g := WithEvent(WithEvent(f, Event("submitted", "")), Event("processing", note));
      UpdateFulfillment(id, Processing, g);
    }

    /** The customer's notification and the loyalty award. */
    method Reward(id: OrderId)
      modifies db`awarded
      ensures db.awarded == old(db.awarded) + multiset{id}
    {
      db.awarded := db.awarded + multiset{id};
    }

    // ----- the five paths -----

    /** A cart of codes, alone or with lines left for an operator: claim all, record them, set the status. */
    method FulfillCodes(id: OrderId, charged: bool, env: Env) returns (r: Result<OrderId, PlaceError>)
      requires Valid() && id in db.orders && OwnedIds(db.codes, id) == {}
      requires db.orders[id].status in {Pending, Processing}
      requires Route(db.orders[id].items) in {InventoryPath, MixedPath}
      modifies db`orders, db`codes, db`stock, db`wallets, db`captured, db`awarded
      ensures PoolOk(db.codes) && StockTrue(db.stock, db.codes)
      ensures r.Err? <==> Fails(old(db.codes), old(db.orders)[id].items, env)
      ensures r.Err? ==> Undone(old(db.Now()), db.Now(), id, charged)
      ensures r.Ok? ==> r.value == id && Fulfilled(old(db.Now()), db.Now(), id, env)
      ensures r.Err? ==> r.error == NoStock
      ensures CodesOutcome(old(db.Now()), db.Now(), id, charged, r.Ok?)
      ensures r.Ok? ==> StampedFor(db.codes, id, Slugs.Decimal(old(db.orders)[id].user))
    {
      r := ClaimAndRecord(id, charged, env);
      RouteServes(old(db.orders)[id].items, InventoryPath);
      RouteServes(old(db.orders)[id].items, MixedPath);
      CodesDelivered(old(db.Now()), db.Now(), id, charged, env, r.Ok?);
    }

    method ClaimAndRecord(id: OrderId, charged: bool, env: Env) returns (r: Result<OrderId, PlaceError>)
      requires Valid() && id in db.orders && OwnedIds(db.codes, id) == {}
      requires db.orders[id].status in {Pending, Processing}
      requires Route(db.orders[id].items) in {InventoryPath, MixedPath}
      modifies db`orders, db`codes, db`stock, db`wallets, db`captured, db`awarded
      ensures PoolOk(db.codes) && StockTrue(db.stock, db.codes)
      ensures r.Err? <==> Fails(old(db.codes), old(db.orders)[id].items, env)
      ensures r.Err? ==> r.error == NoStock && Undone(old(db.Now()), db.Now(), id, charged)
      ensures r.Ok? ==> r.value == id && Fulfilled(old(db.Now()), db.Now(), id, env)
      ensures r.Ok? ==> StampedFor(db.codes, id, Slugs.Decimal(old(db.orders)[id].user))
    {
      var lines := ClaimInventoryLines(id, charged);
      if lines.Err? {
        return Err(lines.error);
      }
      ghost var f := RecordLines(id, lines.value, env);
      ghost var items := old(db.orders)[id].items;
      assert items[..|items|] == items;
      CodesShown(db.codes, id, old(db.orders)[id], db.orders[id], lines.value);
      CodesFulfilled(old(db.Now()), db.Now(), id, env, f);
      return Ok(id);
    }

    /** Writes each line's codes with the new status; an order of codes only is complete. */
    method RecordLines(id: OrderId, lines: seq<seq<CodeId>>, ghost env: Env) returns (ghost f: Fulfillment)
      requires id in db.orders && db.orders[id].status in {Pending, Processing} && |lines| == |db.orders[id].items|
      requires Route(db.orders[id].items) in {InventoryPath, MixedPath}
      modifies db`orders, db`awarded
      ensures FulfillmentOk(old(db.orders)[id], f, env)
      ensures var o := old(db.orders)[id];
              var first := FirstOf(Recorded(db.codes, o.items, lines));
              f.deliveredCode == if first == "" then None else Some(first)
      ensures var o := old(db.orders)[id];
              var whole := Route(o.items) == InventoryPath;
              && db.orders == old(db.orders)[id := o.(status := if whole then Completed else Processing, fulfillment := f,
                                                      items := WithCodes(o.items, Recorded(db.codes, o.items, lines)))]
              && db.awarded == (if whole then old(db.awarded) + multiset{id} else old(db.awarded))
    {
      var o := db.orders[id];
      var itemCodes := Recorded(db.codes, o.items, lines);
      var first := FirstCode(itemCodes);
      var whole := Route(o.items) == InventoryPath;
      var g := o.fulfillment.(deliveredCode := if first == "" then None else Some(first));
      g := if whole then WithEvent(g, Event("delivered", ""))
           else WithEvent(WithEvent(g, Event("submitted", "")), Event("processing", "codes delivered"));
      var ok := UpdateFulfillmentWithCodes(id, if whole then Completed else Processing, g, itemCodes);
      if whole {
        Reward(id);
      }
      f := g;
    }

    /** Queues an order an operator serves. */
    method FulfillProcessing(id: OrderId, env: Env) returns (r: Result<OrderId, PlaceError>)
      requires Valid() && id in db.orders && OwnedIds(db.codes, id) == {} && Route(db.orders[id].items) == ManualPath
      modifies db`orders
      ensures r == Ok(id) && Fulfilled(old(db.Now()), db.Now(), id, env)
      ensures ManualOutcome(old(db.Now()), db.Now(), id, r.Ok?)
    {
      var f := Park(id, db.orders[id].fulfillment, "");
      PlainlyFulfilled(old(db.Now()), db.Now(), id, env, f);
      RouteServes(old(db.orders)[id].items, ManualPath);
      ManualWaits(old(db.Now()), db.Now(), id, env, true);
      return Ok(id);
    }

    /** Compensates an order that holds no codes. */
    method TakeBack(id: OrderId, charged: bool)
      requires Valid() && id in db.orders && OwnedIds(db.codes, id) == {}
      modifies db`orders, db`codes, db`stock, db`wallets, db`captured
      ensures PoolOk(db.codes) && StockTrue(db.stock, db.codes)
      ensures Undone(old(db.Now()), db.Now(), id, charged)
    {
      ReleaseNothing(db.codes, id);
      Compensate(id, [], charged);
    }

    /** Asks the supplier: completed, queued for a later answer, or taken back. */
    method FulfillApi(id: OrderId, charged: bool, env: Env) returns (r: Result<OrderId, PlaceError>)
      requires Valid() && id in db.orders && OwnedIds(db.codes, id) == {} && Route(db.orders[id].items) == ApiPath
      modifies db`orders, db`codes, db`stock, db`wallets, db`captured, db`awarded
      ensures PoolOk(db.codes) && StockTrue(db.stock, db.codes)
      ensures r.Err? <==> Fails(old(db.codes), old(db.orders)[id].items, env)
      ensures r.Err? ==> Undone(old(db.Now()), db.Now(), id, charged)
      ensures r.Ok? ==> r.value == id && Fulfilled(old(db.Now()), db.Now(), id, env)
      ensures r.Err? ==> r.error == Upstream
      ensures ApiOutcome(old(db.Now()), db.Now(), id, charged, env, r.Ok?)
    {
      r := Ok(id);
      if env.answer.HardError? {
        TakeBack(id, charged);
        r := Err(Upstream);
      } else if env.answer.Done? {
        CompleteAnswered(id, env);
      } else {
        ParkAnswered(id, env);
      }
      RouteServes(old(db.orders)[id].items, ApiPath);
      ApiFollowsAnswer(old(db.Now()), db.Now(), id, charged, env, r.Ok?);
    }

    /** The supplier delivered at once. */
    method CompleteAnswered(id: OrderId, env: Env)
      requires Wired() && id in db.orders && OwnedIds(db.codes, id) == {}
      requires Route(db.orders[id].items) == ApiPath && env.answer.Done?
      modifies db`orders, db`awarded
      ensures Fulfilled(old(db.Now()), db.Now(), id, env)
    {
      var f := db.orders[id].fulfillment;
      var ref, codes := env.answer.ref, env.answer.codes;
      f := f.(transferRef := Some(ref), providerRef := Some(ref), deliveredCode := if codes.Some? then codes else f.deliveredCode);
      f := WithEvent(f, Event("completed", ""));
      UpdateFulfillment(id, Completed, f);
      Reward(id);
      PlainlyFulfilled(old(db.Now()), db.Now(), id, env, f);
    }

    /** The supplier will answer later, could not be reached, or is not connected yet. */
    method ParkAnswered(id: OrderId, env: Env)
      requires Wired() && id in db.orders && OwnedIds(db.codes, id) == {}
      requires Route(db.orders[id].items) == ApiPath && !env.answer.Done? && !env.answer.HardError?
      modifies db`orders
      ensures Fulfilled(old(db.Now()), db.Now(), id, env)
    {
      var f := db.orders[id].fulfillment;
      match env.answer {
        case NotWired => f := Park(id, f, "awaiting provider integration");
        case Working(ref) => f := Park(id, f.(providerRef := Some(ref)), "awaiting upstream provider");
        case Unavailable => f := Park(id, f.(nextRetryAt := Some(env.now + MINUTE)), "upstream temporarily unavailable");
      }
      PlainlyFulfilled(old(db.Now()), db.Now(), id, env, f);
    }

    /** One card of the product for a recharge, if there is one. */
    method ClaimCard(id: OrderId, p: ProductId, holder: string) returns (r: Option<CodeId>)
      requires Valid() && OwnedIds(db.codes, id) == {}
      modifies db`codes, db`stock
      ensures PoolOk(db.codes) && StockTrue(db.stock, db.codes)
      ensures r.None? <==> AvailableIds(old(db.codes), p) == {}
      ensures r.None? ==> db.codes == old(db.codes)
      ensures r.Some? ==> OneClaimed(old(db.codes), db.codes, id, p, r.value)
    {
      ghost var before, stock := db.codes, db.stock;
      var got := codes.ClaimForOrder(p, id, holder, 1);
      if got.Err? {
        ReleaseNothing(before, id);
        MirrorRestores(stock, before, before, {p});
        return None;
      }
      OneCard(before, id, p, got.value, holder);
      StampAllKeeps(before, Elements(got.value), p, id, holder);
      MirrorRestores(stock, before, db.codes, {p});
      return Some(got.value[0]);
    }

    /**
     A recharge: claim the card first, park before the command can be seen,
     then send the command; a bridge that is off or misconfigured only parks.
     */
    method FulfillBridge(id: OrderId, charged: bool, env: Env) returns (r: Result<OrderId, PlaceError>)
      requires Valid() && id in db.orders && OwnedIds(db.codes, id) == {} && Route(db.orders[id].items) == BridgePath
      modifies db`orders, db`codes, db`stock, db`wallets, db`captured, db`commands
      ensures PoolOk(db.codes) && StockTrue(db.stock, db.codes)
      ensures r.Err? <==> Fails(old(db.codes), old(db.orders)[id].items, env)
      ensures r.Err? ==> Undone(old(db.Now()), db.Now(), id, charged)
      ensures r.Ok? ==> r.value == id && Fulfilled(old(db.Now()), db.Now(), id, env)
      ensures r.Err? ==> r.error == WhyFailed(old(db.Now()), id, env)
      ensures BridgeOutcome(old(db.Now()), db.Now(), id, charged, env, r.Ok?)
    {
      RouteServes(db.orders[id].items, BridgePath);
      BridgeLinesOnly(db.orders[id].items);
      r := ClaimParkSend(id, charged, env);
      BridgeParks(old(db.Now()), db.Now(), id, charged, env, r.Ok?);
    }

    method ClaimParkSend(id: OrderId, charged: bool, env: Env) returns (r: Result<OrderId, PlaceError>)
      requires Valid() && id in db.orders && OwnedIds(db.codes, id) == {} && Route(db.orders[id].items) == BridgePath
      modifies db`orders, db`codes, db`stock, db`wallets, db`captured, db`commands
      ensures PoolOk(db.codes) && StockTrue(db.stock, db.codes)
      ensures r.Err? <==> Fails(old(db.codes), old(db.orders)[id].items, env)
      ensures r.Err? ==> r.error == (if env.spec.value.recharge && AvailableIds(old(db.codes), old(db.orders)[id].items[0].product) == {} then NoStock else NotStored)
      ensures r.Err? ==> Undone(old(db.Now()), db.Now(), id, charged)
      ensures r.Ok? ==> r.value == id && Fulfilled(old(db.Now()), db.Now(), id, env)
    {
      var o := db.orders[id];
      if !env.bridgeOn || env.spec.None? {
        ghost var f := Park(id, o.fulfillment, if env.bridgeOn then "queued for manual recharge" else "queued for bridge device");
        ParkedForHand(old(db.Now()), db.Now(), id, env, f);
        return Ok(id);
      }
      var p := o.items[0].product;
      var card: Option<CodeId> := None;
      if env.spec.value.recharge {
        card := ClaimCard(id, p, "bridge");
        if card.None? {
          TakeBack(id, charged);
          return Err(NoStock);
        }
      }
      r := ParkAndSend(id, card, charged, env, old(db.Now()));
    }

    /** With the card in hand: park, then send; b is what everything was before the card was claimed. */
    method ParkAndSend(id: OrderId, card: Option<CodeId>, charged: bool, env: Env, ghost b: View) returns (r: Result<OrderId, PlaceError>)
      requires Wired() && id in db.orders && Route(db.orders[id].items) == BridgePath
      requires PoolOk(b.codes) && OwnedIds(b.codes, id) == {} && StockTrue(db.stock, db.codes) && PoolOk(db.codes)
      requires db.Now() == b.(codes := db.codes)
      requires env.bridgeOn && env.spec.Some? && (env.spec.value.recharge <==> card.Some?)
      requires CardTaken(b.codes, db.codes, id, db.orders[id].items[0].product, card)
      modifies db`orders, db`codes, db`stock, db`wallets, db`captured, db`commands
      ensures PoolOk(db.codes) && StockTrue(db.stock, db.codes)
      ensures r.Err? <==> !env.stored
      ensures r.Err? ==> r.error == NotStored && Undone(b, db.Now(), id, charged)
      ensures r.Ok? ==> r.value == id && Fulfilled(b, db.Now(), id, env)
    {
      ghost var f := Park(id, db.orders[id].fulfillment, "dispatched to bridge device");
      if !env.stored {
        TakeCardBack(id, card, charged, b);
        return Err(NotStored);
      }
      ghost var c := SendCommand(id, env.spec.value, if card.Some? then Value(db.codes, card.value) else "", env.now);
      Sent(b, db.Now(), id, env, f, card, c);
      return Ok(id);
    }

    /** Compensates a parked recharge; b is what everything was before the card was claimed. */
    method TakeCardBack(id: OrderId, card: Option<CodeId>, charged: bool, ghost b: View)
      requires Wired() && id in db.orders && id in b.orders && db.orders[id].items != []
      requires PoolOk(b.codes) && OwnedIds(b.codes, id) == {} && StockTrue(db.stock, db.codes)
      requires CardTaken(b.codes, db.codes, id, db.orders[id].items[0].product, card)
      requires exists f :: db.Now() == b.(codes := db.codes, orders := b.orders[id := SetFulfillment(b.orders[id], Processing, f)])
      modifies db`orders, db`codes, db`stock, db`wallets, db`captured
      ensures StockTrue(db.stock, db.codes) && Undone(b, db.Now(), id, charged)
    {
      var p := db.orders[id].items[0].product;
      BackFromCard(b.codes, db.codes, db.stock, id, p, card);
      Compensate(id, if card.Some? then [p] else [], charged);
    }

    method SendCommand(id: OrderId, spec: Spec, card: string, now: Time) returns (ghost c: B.CommandId)
      modifies db`commands
      ensures c !in old(db.commands) && db.commands == old(db.commands)[c := NewCommand(id, spec, card, now)]
    {
      var unused := FreshId(db.commands.Keys);
      var k: B.CommandId :| k !in db.commands;
      db.commands := db.commands[k := NewCommand(id, spec, card, now)];
      c := k;
    }

    /** Routes an order to its path: it fails exactly when its path must, and then leaves nothing behind. */
    method DispatchFulfillment(id: OrderId, charged: bool, env: Env) returns (r: Result<OrderId, PlaceError>)
      requires Valid() && id in db.orders && OwnedIds(db.codes, id) == {}
      requires db.orders[id].status in {Pending, Processing}
      modifies db`orders, db`codes, db`stock, db`wallets, db`captured, db`commands, db`awarded
      ensures PoolOk(db.codes) && StockTrue(db.stock, db.codes)
      ensures r.Err? <==> Fails(old(db.codes), old(db.orders)[id].items, env)
      ensures r.Err? ==> Undone(old(db.Now()), db.Now(), id, charged)
      ensures r.Ok? ==> r.value == id && Fulfilled(old(db.Now()), db.Now(), id, env)
      ensures DispatchOutcome(old(db.Now()), db.Now(), id, charged, env, r.Ok?)
      ensures r.Err? ==> r.error == WhyFailed(old(db.Now()), id, env)
    {
      var path := ResolveOrderMode(db.orders[id].items);
      OnePath(db.orders[id].items, path);
      match path {
        case InventoryPath => r := FulfillCodes(id, charged, env);
        case MixedPath => r := FulfillCodes(id, charged, env);
        case ApiPath => r := FulfillApi(id, charged, env);
        case BridgePath => r := FulfillBridge(id, charged, env);
        case ManualPath => r := FulfillProcessing(id, env);
      }
      DispatchTold(old(db.Now()), db.Now(), id, charged, env, r.Ok?);
    }

    // ----- placement -----

    /** Units each inventory product of the cart is asked for. */
    method CodeNeed(items: seq<Item>) returns (need: map<ProductId, nat>)
      ensures forall p :: UnitsOf(items, p) == if p in need then need[p] else 0
    {
      need := map[];
      for i := 0 to |items|
        invariant forall p :: UnitsOf(items[..i], p) == if p in need then need[p] else 0
      {
        var it := items[i];
        forall p ensures UnitsOf(items[..i + 1], p) == UnitsOf(items[..i], p) + if it.product == p then Want(it) else 0 {
          UnitsStep(items, i, p);
        }
        if ItemMode(it) == Inventory {
          need := need[it.product := (if it.product in need then need[it.product] else 0) + it.qty];
        }
      }
      assert items[..|items|] == items;
    }

    /** The quick look at stock before anything is stored. */
    method Short(items: seq<Item>) returns (short: bool)
      ensures short <==> !Coverable(db.codes, items)
    {
      var need := CodeNeed(items);
      short := exists p :: p in need && |AvailableIds(db.codes, p)| < need[p];
    }

    /** Debits the wallet or charges the card; a zero total needs neither. */
    method Charge(id: OrderId, env: Env) returns (ok: bool)
      requires id in db.orders
      requires db.orders[id].payment == Usdt ==> db.orders[id].total == 0
      modifies db`orders, db`wallets, db`captured
      ensures var o := old(db.orders)[id];
              && (ok <==> (o.total > 0 ==> if o.payment == Wallet then Balance(old(db.wallets), o.user) >= o.total else env.gateway))
              && db.Now() == if ok then Charged(old(db.Now()), id, o) else old(db.Now())
    {
      var o := db.orders[id];
      if o.total == 0 {
        assert db.orders[id := o] == db.orders;
        return true;
      }
      if o.payment == Wallet {
        if Balance(db.wallets, o.user) < o.total {
          return false;
        }
        db.wallets := db.wallets[o.user := Balance(db.wallets, o.user) - o.total];
        assert db.orders[id := o] == db.orders;
      } else {
        if !env.gateway {
          return false;
        }
        db.captured := db.captured + multiset{id};
        db.orders := db.orders[id := o.(paymentRef := Some("txn"))];
      }
      return true;
    }

    /** An order stored under a user's key. */
    method FindByKey(user: UserId, key: string) returns (r: Option<OrderId>)
      ensures r.Some? ==> HasKey(db.orders, r.value, user, key)
      ensures r.None? ==> forall id :: !HasKey(db.orders, id, user, key)
    {
      if id :| id in db.orders && db.orders[id].user == user && db.orders[id].key == key {
        return Some(id);
      }
      return None;
    }

    /**
     Places an order: refuse, return the one stored under the key, or store,
     charge and dispatch a new one. `placed` is the order it stored, if any. It
     stores one exactly when nothing is against it, under the caller's key; and a
     call with a known key changes nothing and answers with that key's order.
     */
    method PlaceOrder(user: UserId, key: string, gate: Option<string>, quote: Result<Quote, string>, env: Env)
      returns (r: Result<OrderId, PlaceError>, ghost placed: Option<OrderId>)
      requires Valid()
      modifies db
      ensures Valid()
      ensures placed.Some? <==> gate.None? && quote.Ok? && Coverable(old(db.codes), quote.value.items) && KeyFree(old(db.orders), user, key)
      ensures placed.None? ==> db.Now() == old(db.Now())
      ensures gate.Some? ==> r == Err(Rejected(gate.value))
      ensures gate.None? && key != "" ==> forall id: OrderId :: HasKey(old(db.orders), id, user, key) ==> r == Ok(id)
      ensures gate.None? && KeyFree(old(db.orders), user, key) && placed.None? ==>
                r == Err(if quote.Err? then Rejected(quote.error) else NoStock)
      ensures placed.Some? ==>
                && (r.Ok? ==> r.value == placed.value)
                && var q := quote.value;
                   && Placed(old(db.Now()), db.Now(), placed.value, NewOrder(user, key, q, env.now), r.Ok?, env)
                   && PlacementOutcome(old(db.Now()), db.Now(), placed.value, user, key, q, env, r.Ok?)
                   && (r.Ok? <==> Payable(old(db.Now()), user, q, env)
                                  && ((q.payment == Usdt && q.total > 0) || !Fails(old(db.codes), q.items, env)))
                   && (r.Err? && !Payable(old(db.Now()), user, q, env) ==> r.error == Unpaid(q.payment))
                   && (r.Err? && Payable(old(db.Now()), user, q, env) ==> r.error in {NoStock, Upstream, NotStored})
    {
      placed := None;
      if gate.Some? {
        return Err(Rejected(gate.value)), None;
      }
      if key != "" {
        var existing := FindByKey(user, key);
        if existing.Some? {
          return Ok(existing.value), None;
        }
        assert forall id :: id in db.orders ==> !HasKey(db.orders, id, user, key);
      }
      if quote.Err? {
        return Err(Rejected(quote.error)), None;
      }
      var short := Short(quote.value.items);
      if short {
        return Err(NoStock), None;
      }
      r, placed := Store(user, key, quote.value, env);
    }

    /** Stores the priced order, then charges and dispatches it. */
    method Store(user: UserId, key: string, q: Quote, env: Env) returns (r: Result<OrderId, PlaceError>, ghost placed: Option<OrderId>)
      requires Valid() && KeyFree(db.orders, user, key)
      modifies db
      ensures Valid() && placed.Some? && (r.Ok? ==> r.value == placed.value)
      ensures Placed(old(db.Now()), db.Now(), placed.value, NewOrder(user, key, q, env.now), r.Ok?, env)
      ensures PlacementOutcome(old(db.Now()), db.Now(), placed.value, user, key, q, env, r.Ok?)
      ensures r.Ok? <==> Payable(old(db.Now()), user, q, env)
                         && ((q.payment == Usdt && q.total > 0) || !Fails(old(db.codes), q.items, env))
      ensures r.Err? && !Payable(old(db.Now()), user, q, env) ==> r.error == Unpaid(q.payment)
      ensures r.Err? && Payable(old(db.Now()), user, q, env) ==> r.error in {NoStock, Upstream, NotStored}
    {
      var o := NewOrder(user, key, q, env.now);
      var unused := FreshId(db.orders.Keys);
      var id: OrderId :| id !in db.orders;
      ghost var b := db.Now();
      OwnsNothing(db.orders, db.codes, id);
      db.orders := db.orders[id := o];
      FailedOwners(b, db.Now(), id);
      KeyAdded(b.orders, id, o);
      placed := Some(id);
      if q.payment == Usdt && q.total > 0 {
        r := AwaitTransfer(id, env, b);
      } else {
        r := ChargeAndDispatch(id, env, b);
      }
      PlacementTold(b, db.Now(), id, user, key, q, env, r.Ok?);
    }

    /** An on-chain order waits for its payment, or fails if no deposit could be arranged; b is the shop before it. */
    method AwaitTransfer(id: OrderId, env: Env, ghost b: View) returns (r: Result<OrderId, PlaceError>)
      requires Valid() && id in db.orders && id !in b.orders && db.Now() == b.(orders := b.orders[id := db.orders[id]])
      requires db.orders[id].payment == Usdt && db.orders[id].total > 0 && OwnedIds(db.codes, id) == {}
      modifies db`orders
      ensures Valid()
      ensures r == if env.intent then Ok(id) else Err(NoIntent)
      ensures Placed(b, db.Now(), id, old(db.orders)[id], r.Ok?, env)
    {
      if !env.intent {
        ghost var m := db.Now();
        db.orders := db.orders[id := SetStatus(db.orders[id], Failed)];
        FailedOwners(m, db.Now(), id);
        KeysStay(m.orders, db.orders);
        return Err(NoIntent);
      }
      return Ok(id);
    }

    /** Takes the money, then dispatches; b is the shop before the order was stored. */
    method ChargeAndDispatch(id: OrderId, env: Env, ghost b: View) returns (r: Result<OrderId, PlaceError>)
      requires Valid() && id in db.orders && id !in b.orders && db.Now() == b.(orders := b.orders[id := db.orders[id]])
      requires var o := db.orders[id];
               o.status == Pending && o.paymentRef.None? && (o.payment == Usdt ==> o.total == 0) && OwnedIds(db.codes, id) == {}
      modifies db
      ensures Valid() && (r.Ok? ==> r.value == id)
      ensures var o := old(db.orders)[id];
              && Placed(b, db.Now(), id, o, r.Ok?, env)
              && (r.Ok? <==> Payable(b, o.user, Quote(o.items, o.total, o.payment), env) && !Fails(b.codes, o.items, env))
              && (r.Err? ==> if Payable(b, o.user, Quote(o.items, o.total, o.payment), env)
                             then r.error in {NoStock, Upstream, NotStored} else r.error == Unpaid(o.payment))
    {
      ghost var o := db.orders[id];
      var ok := Charge(id, env);
      if !ok {
        r := Refuse(id, b);
      } else {
        ChargedAfterStore(b, id, o);
        FailedOwners(b.(orders := b.orders[id := o]), db.Now(), id);
        KeysStay(old(db.orders), db.orders);
        r := DispatchCharged(id, env, b, o);
      }
    }

    /** The charge was refused: the order only fails. */
    method Refuse(id: OrderId, ghost b: View) returns (r: Result<OrderId, PlaceError>)
      requires Valid() && id in db.orders && id !in b.orders && db.Now() == b.(orders := b.orders[id := db.orders[id]])
      requires OwnedIds(db.codes, id) == {}
      modifies db`orders
      ensures Valid() && r.Err? && OnlyFailedOrder(b, db.Now(), id, old(db.orders)[id])
      ensures r.error == if old(db.orders)[id].payment == Wallet then Insufficient else Declined
    {
      ghost var m := db.Now();
      db.orders := db.orders[id := SetStatus(db.orders[id], Failed)];
      FailedOwners(m, db.Now(), id);
      KeysStay(m.orders, db.orders);
      return Err(if db.orders[id].payment == Wallet then Insufficient else Declined);
    }

    method DispatchCharged(id: OrderId, env: Env, ghost b: View, ghost o: Order) returns (r: Result<OrderId, PlaceError>)
      requires Valid() && id !in b.orders && (o.payment == Wallet ==> Balance(b.wallets, o.user) >= o.total)
      requires o.status == Pending && o.paymentRef.None? && (o.payment == Usdt ==> o.total == 0)
      requires db.Now() == Charged(b, id, o) && OwnedIds(db.codes, id) == {}
      modifies db
      ensures Valid() && (r.Ok? ==> r.value == id)
      ensures Placed(b, db.Now(), id, o, r.Ok?, env) && (r.Ok? <==> !Fails(b.codes, o.items, env))
      ensures r.Err? ==> r.error in {NoStock, Upstream, NotStored}
    {
      ghost var m := db.Now();
      assert m.orders[id].total == o.total && m.orders[id].items == o.items && m.codes == b.codes;
      r := DispatchFulfillment(id, db.orders[id].total > 0, env);
      StillValid(m, db.Now(), id, o.total > 0, env, r.Ok?);
      if r.Err? {
        UndoneCharge(b, db.Now(), id, o, o.total > 0);
      }
    }

    /**
     A confirmed on-chain payment: claims the order, then dispatches it with no
     charge to reverse. It answers NotPayable exactly when the order is then
     failed, and a call on an order that has left pending changes nothing.
     */
    method FulfillPaidOrder(id: OrderId, txRef: string, env: Env) returns (v: Verdict)
      requires Valid()
      modifies db
      ensures Valid()
      ensures v == Missing <==> id !in old(db.orders)
      ensures id in old(db.orders) ==> id in db.orders && (v == NotPayable <==> db.orders[id].status == Failed)
      ensures id !in old(db.orders) || old(db.orders)[id].status != Pending ==> db.Now() == old(db.Now())
      ensures id in old(db.orders) && old(db.orders)[id].status == Pending ==>
                var b := Confirmed(old(db.Now()), id, txRef);
                && (v == NotPayable <==> Fails(old(db.codes), old(db.orders)[id].items, env))
                && (v == NotPayable ==> Undone(b, db.Now(), id, false) && OwnedIds(db.codes, id) == {})
                && (v == Settled ==> Fulfilled(b, db.Now(), id, env))
                && DispatchOutcome(b, db.Now(), id, false, env, v == Settled)
                && PaidDocument(old(db.orders)[id], b.orders[id], txRef)
    {
      if id !in db.orders {
        return Missing;
      }
      match Transition(db.orders[id], {Pending}, Processing, PAID, PaidBy(txRef))
      case None =>
        return if db.orders[id].status == Failed then NotPayable else Settled;
      case Some(doc) =>
        OwnsNothing(db.orders, db.codes, id);
        db.orders := db.orders[id := doc];
        ghost var b := db.Now();
        FailedOwners(old(db.Now()), b, id);
        KeysStay(old(db.orders), b.orders);
        var r := DispatchFulfillment(id, false, env);
        StillValid(b, db.Now(), id, false, env, r.Ok?);
        return if r.Ok? then Settled else NotPayable;
    }
  }

  const PAID := Event("payment_confirmed", "USDT payment confirmed on-chain")

  /** The order claimed for a confirmed payment. */
  ghost function Confirmed(b: View, id: OrderId, txRef: string): View
    requires id in b.orders && b.orders[id].status == Pending
  {
    b.(orders := b.orders[id := Transition(b.orders[id], {Pending}, Processing, PAID, PaidBy(txRef)).value])
  }

  predicate HasKey(orders: map<OrderId, Order>, id: OrderId, user: UserId, key: string) {
    id in orders && orders[id].user == user && orders[id].key == key
  }

  /** The order's rows name who they were sold to. */
  predicate StampedFor(pool: Pool, id: OrderId, holder: string) {
    forall k :: k in pool && pool[k].status == Delivered && pool[k].owner == Some(id) ==> pool[k].holder == holder
  }

  lemma NoneStamped(pool: Pool, id: OrderId, holder: string)
    requires OwnedIds(pool, id) == {}
    ensures StampedFor(pool, id, holder)
  {
    assert forall k :: k in pool ==> k !in OwnedIds(pool, id);
  }

  lemma StampedMore(pool: Pool, ids: set<CodeId>, id: OrderId, holder: string)
    requires StampedFor(pool, id, holder)
    ensures StampedFor(StampAll(pool, ids, id, holder), id, holder)
  {
  }

  /** The payment is on the document, which is otherwise as it was. */
  predicate PaidDocument(o: Order, d: Order, txRef: string) {
    && d == o.(status := Processing, paymentRef := Some(txRef), fulfillment := d.fulfillment)
    && d.fulfillment == o.fulfillment.(timeline := o.fulfillment.timeline + [PAID])
  }

  /** No order of the user has the key; an empty one is never looked up. */
  predicate KeyFree(orders: map<OrderId, Order>, user: UserId, key: string) {
    key == "" || forall id :: id in orders ==> !(orders[id].user == user && orders[id].key == key)
  }

  /** The unique index on a user's non-empty keys. */
  predicate KeysOk(orders: map<OrderId, Order>) {
    forall i, j :: i in orders && j in orders && orders[i].user == orders[j].user && orders[i].key == orders[j].key && orders[i].key != "" ==> i == j
  }

  function Unpaid(payment: PaymentMethod): PlaceError {
    match payment
    case Wallet => Insufficient
    case Card => Declined
    case Usdt => NoIntent
  }

  lemma KeyAdded(orders: map<OrderId, Order>, id: OrderId, o: Order)
    requires KeysOk(orders) && id !in orders && KeyFree(orders, o.user, o.key)
    ensures KeysOk(orders[id := o])
  {
  }

  lemma KeysStay(b: map<OrderId, Order>, a: map<OrderId, Order>)
    requires KeysOk(b) && a.Keys == b.Keys && forall id :: id in b ==> a[id].user == b[id].user && a[id].key == b[id].key
    ensures KeysOk(a)
  {
  }

  /** After a dispatch, served or taken back, codes and keys are still with the orders they belong to. */
  lemma StillValid(b: View, a: View, id: OrderId, charged: bool, env: Env, ok: bool)
    requires OwnersOk(b.orders, b.codes) && PoolOk(b.codes) && OwnedIds(b.codes, id) == {} && KeysOk(b.orders)
    requires if ok then Fulfilled(b, a, id, env) else Undone(b, a, id, charged)
    ensures OwnersOk(a.orders, a.codes) && KeysOk(a.orders)
  {
    if ok {
      ServedOwners(b, a, id, env);
    } else {
      FailedOwners(b, a, id);
    }
    SameKeys(b, a, id, charged, env, ok);
    KeysStay(b.orders, a.orders);
  }

  lemma SameKeys(b: View, a: View, id: OrderId, charged: bool, env: Env, ok: bool)
    requires if ok then Fulfilled(b, a, id, env) else Undone(b, a, id, charged)
    ensures a.orders.Keys == b.orders.Keys
    ensures forall x :: x in b.orders ==> a.orders[x].user == b.orders[x].user && a.orders[x].key == b.orders[x].key
  {
  }

  /** The path of a cart is the only one that serves it. */
  lemma OnePath(items: seq<Item>, p: Path)
    requires p == Route(items)
    ensures AllLines(items, Api) <==> p == ApiPath
    ensures AllLines(items, BridgeDevice) <==> p == BridgePath
  {
    RouteServes(items, ApiPath);
    RouteServes(items, BridgePath);
  }

  lemma BridgeLinesOnly(items: seq<Item>)
    requires AllLines(items, BridgeDevice)
    ensures !AllLines(items, Api)
  {
    assert items[0] in items;
  }

  /**
   The same call made twice, under a key: whatever the second one is quoted, it
   stores nothing and answers with the order the first one stored.
   */
  method PlaceTwice(s: Service, user: UserId, key: string, quote: Result<Quote, string>, env: Env, again: Result<Quote, string>, later: Env)
    returns (r: Result<OrderId, PlaceError>, ghost placed: Option<OrderId>, ghost between: View)
    requires s.Valid() && key != "" && KeyFree(s.db.orders, user, key)
    modifies s.db
    ensures placed.Some? ==> placed.value !in old(s.db.orders) && r == Ok(placed.value) && s.db.Now() == between
  {
    var first;
    first, placed := s.PlaceOrder(user, key, None, quote, env);
    between := s.db.Now();
    assert placed.Some? ==> HasKey(s.db.orders, placed.value, user, key);
    ghost var none;
    r, none := s.PlaceOrder(user, key, None, again, later);
  }

  /** One row of the product went to the order, which held none. */
  ghost predicate OneClaimed(before: Pool, now: Pool, id: OrderId, p: ProductId, k: CodeId) {
    && ClaimsOnly(before, now, id) && k in now && OwnedBy(now[k], id)
    && (forall q :: |OwnedOf(now, id, q)| == if q == p then 1 else 0)
    && (forall q :: q != p ==> AvailableIds(now, q) == AvailableIds(before, q))
  }

  ghost predicate CardTaken(before: Pool, now: Pool, id: OrderId, p: ProductId, card: Option<CodeId>) {
    if card.Some? then OneClaimed(before, now, id, p, card.value) else now == before
  }

  lemma OneCard(before: Pool, id: OrderId, p: ProductId, got: seq<CodeId>, holder: string)
    requires PoolOk(before) && OwnedIds(before, id) == {}
    requires |got| == |Elements(got)| == 1 && Elements(got) <= AvailableIds(before, p)
    ensures OneClaimed(before, StampAll(before, Elements(got), id, holder), id, p, got[0])
  {
    var ids := Elements(got);
    assert got[0] in ids;
    OwnsNone(before, id);
    ClaimsCompose(before, before, id, ids, p, holder);
    OwnedGrows(before, id, ids, p, holder);
    StampAllKeeps(before, ids, p, id, holder);
    forall q | q != p
      ensures OwnedOf(StampAll(before, ids, id, holder), id, q) == {}
    {
      OwnedElsewhere(before, id, ids, p, holder, q);
    }
  }

  lemma ParkedForHand(b: View, a: View, id: OrderId, env: Env, f: Fulfillment)
    requires id in b.orders && OwnedIds(b.codes, id) == {}
    requires Route(b.orders[id].items) == BridgePath && (!env.bridgeOn || env.spec.None?)
    requires a == b.(orders := b.orders[id := SetFulfillment(b.orders[id], Processing, f)])
    requires FulfillmentOk(b.orders[id], f, env)
    ensures Fulfilled(b, a, id, env)
  {
    OwnsNone(b.codes, id);
  }

  /** Taking a refused recharge back restores the pool, and the stock with it. */
  lemma BackFromCard(before: Pool, now: Pool, stock: map<ProductId, nat>, id: OrderId, p: ProductId, card: Option<CodeId>)
    requires PoolOk(before) && OwnedIds(before, id) == {} && StockTrue(stock, now)
    requires CardTaken(before, now, id, p, card)
    ensures Released(now, id) == before
    ensures StockTrue(Mirrored(stock, before, Elements(if card.Some? then [p] else [])), before)
  {
    if card.Some? {
      ReleaseUndoesClaims(before, now, id);
      assert Elements([p]) == {p} by {
        assert [p][0] == p;
      }
      MirrorRestores(stock, now, before, {p});
    } else {
      ReleaseNothing(before, id);
    }
  }

  lemma Sent(b: View, a: View, id: OrderId, env: Env, f: Fulfillment, card: Option<CodeId>, c: B.CommandId)
    requires id in b.orders && Route(b.orders[id].items) == BridgePath && OwnedIds(b.codes, id) == {}
    requires env.bridgeOn && env.spec.Some? && (env.spec.value.recharge <==> card.Some?)
    requires CardTaken(b.codes, a.codes, id, b.orders[id].items[0].product, card)
    requires c !in b.commands && FulfillmentOk(b.orders[id], f, env)
    requires a == b.(codes := a.codes, orders := b.orders[id := SetFulfillment(b.orders[id], Processing, f)],
                     commands := b.commands[c := NewCommand(id, env.spec.value, if card.Some? then Value(a.codes, card.value) else "", env.now)])
    ensures Fulfilled(b, a, id, env)
  {
    if card.None? {
      OwnsNone(b.codes, id);
    }
  }

  /** Scans the lines for the first code. */
  method FirstCode(itemCodes: seq<Option<seq<string>>>) returns (r: string)
    ensures r == FirstOf(itemCodes)
  {
    for i := 0 to |itemCodes|
      invariant FirstOf(itemCodes) == FirstOf(itemCodes[i..])
    {
      if HasCode(itemCodes[i]) {
        return itemCodes[i].value[0];
      }
      assert itemCodes[i..][1..] == itemCodes[i + 1..];
    }
    return "";
  }

  /** Codes recorded on a code cart are the ones its dispatch owed. */
  lemma CodesFulfilled(b: View, a: View, id: OrderId, env: Env, f: Fulfillment)
    requires id in b.orders && id in a.orders && Route(b.orders[id].items) in {InventoryPath, MixedPath}
    requires var o, o' := b.orders[id], a.orders[id];
             var whole := Route(o.items) == InventoryPath;
             && o' == o.(status := if whole then Completed else Processing, fulfillment := f, items := o'.items)
             && a == b.(codes := a.codes, orders := b.orders[id := o'], awarded := if whole then b.awarded + multiset{id} else b.awarded)
             && ClaimsOnly(b.codes, a.codes, id) && (forall p :: |OwnedOf(a.codes, id, p)| == UnitsOf(o.items, p))
             && ItemsOk(a.codes, id, o, o') && FulfillmentOk(o, f, env)
    ensures Fulfilled(b, a, id, env)
  {
  }

  lemma CodesShown(pool: Pool, id: OrderId, before: Order, after: Order, lines: seq<seq<CodeId>>)
    requires Route(before.items) in {InventoryPath, MixedPath}
    requires |lines| == |before.items| && LinesOk(pool, id, before.items, lines)
    requires after.items == WithCodes(before.items, Recorded(pool, before.items, lines))
    requires var first := FirstOf(Recorded(pool, before.items, lines));
             after.fulfillment.deliveredCode == if first == "" then None else Some(first)
    ensures ItemsOk(pool, id, before, after)
  {
    RecordedShows(pool, id, before.items, lines);
    RecordedFirst(pool, before.items, lines);
  }

  /** An order served without codes. */
  lemma PlainlyFulfilled(b: View, a: View, id: OrderId, env: Env, f: Fulfillment)
    requires id in b.orders && OwnedIds(b.codes, id) == {}
    requires Route(b.orders[id].items) in {ApiPath, ManualPath}
    requires var o := b.orders[id];
             a == b.(orders := b.orders[id := SetFulfillment(o, if Completes(o.items, env) then Completed else Processing, f)],
                     awarded := if Completes(o.items, env) then b.awarded + multiset{id} else b.awarded)
    requires FulfillmentOk(b.orders[id], f, env)
    ensures Fulfilled(b, a, id, env)
  {
    OwnsNone(b.codes, id);
  }

  lemma OwnsNone(pool: Pool, id: OrderId)
    requires OwnedIds(pool, id) == {}
    ensures forall p :: OwnedOf(pool, id, p) == {}
    ensures ClaimsOnly(pool, pool, id)
  {
    forall p
      ensures OwnedOf(pool, id, p) == {}
    {
      assert OwnedOf(pool, id, p) <= OwnedIds(pool, id);
    }
  }

  lemma ReleaseNothing(pool: Pool, id: OrderId)
    requires OwnedIds(pool, id) == {}
    ensures Released(pool, id) == pool
  {
    forall k | k in pool
      ensures !OwnedBy(pool[k], id)
    {
      assert k !in OwnedIds(pool, id);
    }
  }

  /** What the first lines have claimed: their codes, and no others. */
  ghost predicate Claimed(before: Pool, now: Pool, id: OrderId, items: seq<Item>, i: nat, lines: seq<seq<CodeId>>) {
    && i <= |items| && |lines| == i
    && ClaimsOnly(before, now, id) && LinesOk(now, id, items, lines)
    && (forall p :: |OwnedOf(now, id, p)| == UnitsOf(items[..i], p))
  }

  /** Only the listed products have fewer codes available. */
  ghost predicate From(before: Pool, now: Pool, products: set<ProductId>) {
    forall p :: p !in products ==> AvailableIds(now, p) == AvailableIds(before, p)
  }

  ghost predicate Progress(before: Pool, now: Pool, stock: map<ProductId, nat>, id: OrderId, items: seq<Item>, i: nat,
                           lines: seq<seq<CodeId>>, claimed: seq<ProductId>, holder: string)
  {
    && Claimed(before, now, id, items, i, lines)
    && From(before, now, Elements(claimed)) && StampedFor(now, id, holder)
    && PoolOk(now) && StockTrue(stock, now)
  }

  lemma ProgressLine(before: Pool, now: Pool, stock: map<ProductId, nat>, id: OrderId, items: seq<Item>, i: nat,
                     lines: seq<seq<CodeId>>, claimed: seq<ProductId>, got: seq<CodeId>, holder: string)
    requires Progress(before, now, stock, id, items, i, lines, claimed, holder) && i < |items| && ItemMode(items[i]) == Inventory
    requires |got| == |Elements(got)| == items[i].qty
    requires Elements(got) <= AvailableIds(now, items[i].product)
    ensures var later := StampAll(now, Elements(got), id, holder);
            Progress(before, later, Mirrored(stock, later, {items[i].product}), id, items, i + 1, lines + [got],
                     claimed + [items[i].product], holder)
  {
    var ids, p := Elements(got), items[i].product;
    var later := StampAll(now, ids, id, holder);
    ClaimLine(before, now, id, items, i, lines, got, holder);
    StampAllKeeps(now, ids, p, id, holder);
    StampedMore(now, ids, id, holder);
    MirrorRestores(stock, now, later, {p});
    assert Elements(claimed + [p]) == Elements(claimed) + {p} by {
      var all := claimed + [p];
      assert forall k :: 0 <= k < |claimed| ==> all[k] == claimed[k];
      assert all[|claimed|] == p;
    }
    forall q | q !in Elements(claimed + [p])
      ensures AvailableIds(later, q) == AvailableIds(before, q)
    {
      assert AvailableIds(now, q) == AvailableIds(before, q);
    }
  }

  /** A line that cannot be claimed: the cart was not coverable, and taking everything back restores the pool and the stock. */
  lemma FailLine(before: Pool, now: Pool, stock: map<ProductId, nat>, id: OrderId, items: seq<Item>, i: nat,
                 lines: seq<seq<CodeId>>, claimed: seq<ProductId>, holder: string)
    requires Progress(before, now, stock, id, items, i, lines, claimed, holder) && i < |items| && ItemMode(items[i]) == Inventory
    requires items[i].qty > |AvailableIds(now, items[i].product)|
    requires PoolOk(before) && OwnedIds(before, id) == {}
    ensures !Coverable(before, items)
    ensures Released(now, id) == before && Released(before, id) == before
    ensures StockTrue(Mirrored(Mirrored(stock, before, {items[i].product}), before, Elements(claimed)), before)
  {
    NotCoverable(before, now, id, items, i, lines);
    ReleaseUndoesClaims(before, now, id);
    ReleaseNothing(before, id);
    UndoneStock(stock, before, now, id, items[i].product, claimed);
  }

  lemma NothingClaimed(before: Pool, id: OrderId, items: seq<Item>)
    requires OwnedIds(before, id) == {}
    ensures Claimed(before, before, id, items, 0, []) && From(before, before, {})
  {
    forall p
      ensures OwnedOf(before, id, p) == {}
    {
      assert OwnedOf(before, id, p) <= OwnedIds(before, id);
    }
  }

  lemma SkipLine(before: Pool, now: Pool, stock: map<ProductId, nat>, id: OrderId, items: seq<Item>, i: nat,
                 lines: seq<seq<CodeId>>, claimed: seq<ProductId>, holder: string)
    requires Progress(before, now, stock, id, items, i, lines, claimed, holder) && i < |items| && ItemMode(items[i]) != Inventory
    ensures Progress(before, now, stock, id, items, i + 1, lines + [[]], claimed, holder)
  {
    forall p
      ensures |OwnedOf(now, id, p)| == UnitsOf(items[..i + 1], p)
    {
      UnitsStep(items, i, p);
    }
    assert Elements<CodeId>([]) == {};
  }

  lemma ClaimLine(before: Pool, now: Pool, id: OrderId, items: seq<Item>, i: nat, lines: seq<seq<CodeId>>, got: seq<CodeId>, holder: string)
    requires i < |items| && ItemMode(items[i]) == Inventory && Claimed(before, now, id, items, i, lines)
    requires |got| == |Elements(got)| == items[i].qty
    requires Elements(got) <= AvailableIds(now, items[i].product)
    ensures Claimed(before, StampAll(now, Elements(got), id, holder), id, items, i + 1, lines + [got])
  {
    var ids, p0 := Elements(got), items[i].product;
    var later := StampAll(now, ids, id, holder);
    ClaimsCompose(before, now, id, ids, p0, holder);
    OwnedGrows(now, id, ids, p0, holder);
    forall p
      ensures |OwnedOf(later, id, p)| == UnitsOf(items[..i + 1], p)
    {
      UnitsStep(items, i, p);
      if p != p0 {
        OwnedElsewhere(now, id, ids, p0, holder, p);
      }
    }
    LineJoins(now, id, items, lines, got, holder);
  }

  lemma LineJoins(now: Pool, id: OrderId, items: seq<Item>, lines: seq<seq<CodeId>>, got: seq<CodeId>, holder: string)
    requires |lines| < |items| && LinesOk(now, id, items, lines)
    requires |got| == |Elements(got)| == Want(items[|lines|])
    requires Elements(got) <= AvailableIds(now, items[|lines|].product)
    ensures LinesOk(StampAll(now, Elements(got), id, holder), id, items, lines + [got])
  {
    var ids, all := Elements(got), lines + [got];
    var later := StampAll(now, ids, id, holder);
    OwnedGrows(now, id, ids, items[|lines|].product, holder);
    forall i | 0 <= i < |lines|
      ensures Elements(all[i]) <= OwnedOf(later, id, items[i].product) && Elements(all[i]) !! ids
    {
      assert all[i] == lines[i];
      assert Elements(lines[i]) <= OwnedOf(now, id, items[i].product);
    }
  }

  lemma StampAllKeeps(now: Pool, ids: set<CodeId>, p: ProductId, id: OrderId, holder: string)
    requires PoolOk(now)
    ensures PoolOk(StampAll(now, ids, id, holder))
    ensures ids <= AvailableIds(now, p) ==>
              forall q :: q != p ==> AvailableIds(StampAll(now, ids, id, holder), q) == AvailableIds(now, q)
  {
  }

  lemma NotCoverable(before: Pool, now: Pool, id: OrderId, items: seq<Item>, i: nat, lines: seq<seq<CodeId>>)
    requires i < |items| && ItemMode(items[i]) == Inventory && OwnedIds(before, id) == {}
    requires Claimed(before, now, id, items, i, lines) && items[i].qty > |AvailableIds(now, items[i].product)|
    ensures !Coverable(before, items)
  {
    var p := items[i].product;
    ClaimsTakeFromAvailable(before, now, id, p);
    UnitsStep(items, i, p);
    UnitsMonotone(items, i + 1, p);
  }

  lemma Covered(before: Pool, now: Pool, id: OrderId, items: seq<Item>, lines: seq<seq<CodeId>>)
    requires OwnedIds(before, id) == {} && Claimed(before, now, id, items, |items|, lines)
    ensures Coverable(before, items)
  {
    assert items[..|items|] == items;
    forall p
      ensures UnitsOf(items, p) <= |AvailableIds(before, p)|
    {
      ClaimsTakeFromAvailable(before, now, id, p);
    }
  }

  /** The failed claim recomputed its own product, the compensation the earlier ones: stock is true again. */
  lemma UndoneStock(stock: map<ProductId, nat>, before: Pool, now: Pool, id: OrderId, pid: ProductId, claimed: seq<ProductId>)
    requires StockTrue(stock, now) && Released(now, id) == before
    requires From(before, now, Elements(claimed))
    ensures StockTrue(Mirrored(Mirrored(stock, before, {pid}), before, Elements(claimed)), before)
  {
    MirrorTwice(stock, before, {pid}, Elements(claimed));
    MirrorRestores(stock, now, before, {pid} + Elements(claimed));
  }
}
