/**
 The placement saga: price, persist, charge, then fulfil down one of five paths,
 and take everything back when a step fails. Store writes succeed and nobody
 else is at work; the answers of the outside world are parameters.
 */
module Placement {
  import opened Basics
  import opened Orders
  import opened Codes
  import B = Bridge
  import opened Database
  import CodeService

  datatype PlaceError = Rejected(reason: string) | NoStock | Insufficient | Declined | Upstream | NotStored | NoIntent

  /** What the supplier answers to a dispatch. */
  datatype Answer = Done(ref: string, codes: Option<string>) | Working(ref: string) | Unavailable | NotWired | HardError

  /** How a product is recharged: with a card from the pool, or by transferring credit. */
  datatype Spec = Spec(provider: string, recharge: bool)

  /** The outside world during one placement. */
  datatype Env = Env(answer: Answer, bridgeOn: bool, spec: Option<Spec>, stored: bool, gateway: bool, intent: bool, now: Time)

  /** A priced cart. */
  datatype Quote = Quote(items: seq<Item>, total: Cents, payment: PaymentMethod)

  // ----- what a dispatch owes and does -----

  predicate SendsCard(env: Env) {
    env.bridgeOn && env.spec.Some? && env.spec.value.recharge
  }

  /** Codes of a product the order is owed now. */
  function Needed(items: seq<Item>, env: Env, p: ProductId): nat {
    match Route(items)
    case InventoryPath => UnitsOf(items, p)
    case MixedPath => UnitsOf(items, p)
    case BridgePath => if SendsCard(env) && items[0].product == p then 1 else 0
    case _ => 0
  }

  /** No product is asked for more codes than it has. */
  ghost predicate Coverable(pool: Pool, items: seq<Item>) {
    forall p :: UnitsOf(items, p) <= |AvailableIds(pool, p)|
  }

  /** Exactly when a dispatch fails. */
  ghost predicate Fails(pool: Pool, items: seq<Item>, env: Env) {
    match Route(items)
    case InventoryPath => !Coverable(pool, items)
    case MixedPath => !Coverable(pool, items)
    case ApiPath => env.answer.HardError?
    case BridgePath => env.bridgeOn && env.spec.Some? &&
                       (!env.stored || (env.spec.value.recharge && AvailableIds(pool, items[0].product) == {}))
    case ManualPath => false
  }

  predicate Completes(items: seq<Item>, env: Env) {
    Route(items) == InventoryPath || (Route(items) == ApiPath && env.answer.Done?)
  }

  /** The first lines' codes: as many as each wants, of its product, owned by the order, and no code twice. */
  ghost predicate LinesOk(pool: Pool, o: OrderId, items: seq<Item>, lines: seq<seq<CodeId>>) {
    && |lines| <= |items|
    && (forall i :: 0 <= i < |lines| ==>
          && |lines[i]| == |Elements(lines[i])| == Want(items[i])
          && Elements(lines[i]) <= OwnedOf(pool, o, items[i].product))
    && (forall i, j :: 0 <= i < j < |lines| ==> Elements(lines[i]) !! Elements(lines[j]))
  }

  /** What is recorded on each line: the values of its codes, on inventory lines only. */
  function Recorded(pool: Pool, items: seq<Item>, lines: seq<seq<CodeId>>): (r: seq<Option<seq<string>>>)
    ensures |r| == |lines|
  {
    seq(|lines|, i requires 0 <= i < |lines| =>
      if i < |items| && ItemMode(items[i]) == Inventory
      then Some(seq(|lines[i]|, j requires 0 <= j < |lines[i]| => Value(pool, lines[i][j]))) else None)
  }

  /** The first code of the first line that has one. */
  function FirstOf(itemCodes: seq<Option<seq<string>>>): string {
    if itemCodes == [] then ""
    else if HasCode(itemCodes[0]) then itemCodes[0].value[0]
    else FirstOf(itemCodes[1..])
  }

  predicate HasCode(line: Option<seq<string>>) {
    line.Some? && |line.value| > 0
  }

  /** A row delivered to the order, of this product and with this value. */
  predicate Serving(pool: Pool, k: CodeId, o: OrderId, p: ProductId, value: string) {
    k in pool && pool[k].status == Delivered && pool[k].owner == Some(o) && pool[k].product == p && pool[k].value == value
  }

  /** A line with the values of these rows, one for each unit; a line without codes is as it was placed. */
  predicate LineShows(pool: Pool, o: OrderId, before: Item, after: Item, rows: seq<CodeId>) {
    if ItemMode(before) != Inventory then rows == [] && after == before
    else
      && after == before.(codes := after.codes) && after.codes.Some?
      && |after.codes.value| == before.qty == |rows|
      && forall j :: 0 <= j < |rows| ==> Serving(pool, rows[j], o, before.product, after.codes.value[j])
  }

  /** No row is used twice, within a line or across lines. */
  predicate Unrepeated(rows: seq<seq<CodeId>>) {
    forall i, j, k, l ::
      0 <= i < |rows| && 0 <= j < |rows[i]| && 0 <= k < |rows| && 0 <= l < |rows[k]| && rows[i][j] == rows[k][l] ==> i == k && j == l
  }

  /** Every line shows codes the order owns, each of them once. */
  ghost predicate LinesRecorded(pool: Pool, o: OrderId, before: seq<Item>, after: seq<Item>) {
    |after| == |before| && exists rows: seq<seq<CodeId>> :: RowsShown(pool, o, before, after, rows)
  }

  predicate RowsShown(pool: Pool, o: OrderId, before: seq<Item>, after: seq<Item>, rows: seq<seq<CodeId>>) {
    && |after| == |before| == |rows| && Unrepeated(rows)
    && forall i :: 0 <= i < |rows| ==> LineShows(pool, o, before[i], after[i], rows[i])
  }

  /** The line came with codes of its own. */
  predicate ShowsCode(it: Item) {
    ItemMode(it) == Inventory && it.codes.Some? && |it.codes.value| > 0
  }

  /** The order mirrors the first code of the first line that has one. */
  predicate ShowsFirst(items: seq<Item>, shown: Option<string>) {
    if i :| 0 <= i < |items| && ShowsCode(items[i]) && forall j :: 0 <= j < i ==> !ShowsCode(items[j])
    then shown == if items[i].codes.value[0] == "" then None else Some(items[i].codes.value[0])
    else shown == None
  }

  /** Each line as placed, with its codes where it has any, and the first one mirrored on the order. */
  ghost predicate ItemsOk(pool: Pool, o: OrderId, before: Order, after: Order) {
    if Route(before.items) == InventoryPath || Route(before.items) == MixedPath
    then LinesRecorded(pool, o, before.items, after.items) && ShowsFirst(after.items, after.fulfillment.deliveredCode)
    else after.items == before.items
  }

  lemma ElementsUnrepeated<T>(s: seq<T>, i: nat, j: nat)
    requires |Elements(s)| == |s| && i < j < |s|
    ensures s[i] != s[j]
  {
    var rest := s[..j] + s[j + 1..];
    if s[i] == s[j] {
      assert s == s[..j] + [s[j]] + s[j + 1..];
      forall x | x in s
        ensures x in rest
      {
        assert rest[i] == s[j];
      }
      SubsetSize(Elements(s), Elements(rest));
      ElementsFit(rest);
    }
  }

  lemma {:induction false} ElementsFit<T>(s: seq<T>)
    ensures |Elements(s)| <= |s|
  {
    if s != [] {
      var last := |s| - 1;
      ElementsFit(s[..last]);
      ElementsGrow(s[..last], s[last]);
      assert s[..last] + [s[last]] == s;
    }
  }

  lemma LinesUnrepeated(pool: Pool, o: OrderId, items: seq<Item>, lines: seq<seq<CodeId>>)
    requires LinesOk(pool, o, items, lines)
    ensures Unrepeated(lines)
  {
    forall i, j, k, l | 0 <= i < |lines| && 0 <= j < |lines[i]| && 0 <= k < |lines| && 0 <= l < |lines[k]| && lines[i][j] == lines[k][l]
      ensures i == k && j == l
    {
      assert lines[i][j] in Elements(lines[i]) && lines[k][l] in Elements(lines[k]);
      if i == k && j < l {
        ElementsUnrepeated(lines[i], j, l);
      } else if i == k && l < j {
        ElementsUnrepeated(lines[i], l, j);
      }
    }
  }

  /** Claimed codes, recorded, are what the lines then show. */
  lemma RecordedShows(pool: Pool, o: OrderId, items: seq<Item>, lines: seq<seq<CodeId>>)
    requires |lines| == |items| && LinesOk(pool, o, items, lines)
    ensures LinesRecorded(pool, o, items, WithCodes(items, Recorded(pool, items, lines)))
  {
    var after := WithCodes(items, Recorded(pool, items, lines));
    LinesUnrepeated(pool, o, items, lines);
    forall i | 0 <= i < |lines|
      ensures LineShows(pool, o, items[i], after[i], lines[i])
    {
      RecordedLine(pool, o, items, lines, i);
    }
    assert RowsShown(pool, o, items, after, lines);
  }

  lemma RecordedLine(pool: Pool, o: OrderId, items: seq<Item>, lines: seq<seq<CodeId>>, i: nat)
    requires |lines| == |items| && i < |lines| && LinesOk(pool, o, items, lines)
    ensures LineShows(pool, o, items[i], WithCodes(items, Recorded(pool, items, lines))[i], lines[i])
  {
    forall j | 0 <= j < |lines[i]|
      ensures lines[i][j] in OwnedOf(pool, o, items[i].product)
    {
      assert lines[i][j] in Elements(lines[i]);
    }
  }

  lemma {:induction false} FirstOfFinds(itemCodes: seq<Option<seq<string>>>, i: nat)
    requires i < |itemCodes| && HasCode(itemCodes[i]) && forall j :: 0 <= j < i ==> !HasCode(itemCodes[j])
    ensures FirstOf(itemCodes) == itemCodes[i].value[0]
  {
    if i > 0 {
      FirstOfFinds(itemCodes[1..], i - 1);
    }
  }

  lemma {:induction false} FirstOfNone(itemCodes: seq<Option<seq<string>>>)
    requires forall j :: 0 <= j < |itemCodes| ==> !HasCode(itemCodes[j])
    ensures FirstOf(itemCodes) == ""
  {
    if itemCodes != [] {
      FirstOfNone(itemCodes[1..]);
    }
  }

  lemma RecordedFirst(pool: Pool, items: seq<Item>, lines: seq<seq<CodeId>>)
    requires |lines| == |items|
    ensures var codes := Recorded(pool, items, lines);
            ShowsFirst(WithCodes(items, codes), if FirstOf(codes) == "" then None else Some(FirstOf(codes)))
  {
    var codes := Recorded(pool, items, lines);
    var after := WithCodes(items, codes);
    assert forall i :: 0 <= i < |items| ==> (ShowsCode(after[i]) <==> HasCode(codes[i]));
    if i :| 0 <= i < |after| && ShowsCode(after[i]) && forall j :: 0 <= j < i ==> !ShowsCode(after[j]) {
      FirstOfFinds(codes, i);
    } else {
      NoneShown(after, |after|);
      FirstOfNone(codes);
    }
  }

  /** A cart without a first line that shows a code shows none. */
  lemma {:induction false} NoneShown(items: seq<Item>, n: nat)
    requires n <= |items|
    requires !exists i :: 0 <= i < |items| && ShowsCode(items[i]) && forall j :: 0 <= j < i ==> !ShowsCode(items[j])
    ensures forall j :: 0 <= j < n ==> !ShowsCode(items[j])
    decreases n
  {
    if n > 0 {
      NoneShown(items, n - 1);
    }
  }

  /** What the supplier's answer leaves on the order: its reference, its codes, or an armed retry clock. */
  function Answered(f: Fulfillment, env: Env): Fulfillment {
    match env.answer
    case Done(ref, codes) =>
      f.(transferRef := Some(ref), providerRef := Some(ref), deliveredCode := if codes.Some? then codes else f.deliveredCode)
    case Working(ref) => f.(providerRef := Some(ref))
    case Unavailable => f.(nextRetryAt := Some(env.now + MINUTE))
    case _ => f
  }

  /** The timeline tells what happened, after everything it told before. */
  predicate Told(o: Order, g: Fulfillment, env: Env) {
    var told, tells := o.fulfillment.timeline, g.timeline;
    && |told| < |tells| && tells[..|told|] == told
    && tells[|tells| - 1].status == if Route(o.items) == InventoryPath then "delivered"
                                  else if Completes(o.items, env) then "completed" else "processing"
  }

  /** Besides the timeline, only the path's own fields changed. */
  predicate FieldsOk(o: Order, g: Fulfillment, env: Env) {
    var f := o.fulfillment;
    match Route(o.items)
    case InventoryPath => g == f.(timeline := g.timeline, deliveredCode := g.deliveredCode)
    case MixedPath => g == f.(timeline := g.timeline, deliveredCode := g.deliveredCode)
    case ApiPath => g == Answered(f, env).(timeline := g.timeline)
    case _ => g == f.(timeline := g.timeline)
  }

  predicate FulfillmentOk(o: Order, g: Fulfillment, env: Env) {
    Told(o, g, env) && FieldsOk(o, g, env)
  }

  predicate OnlyOrder(before: map<OrderId, Order>, after: map<OrderId, Order>, id: OrderId) {
    after.Keys == before.Keys + {id} && forall o :: o in before && o != id ==> after[o] == before[o]
  }

  /** The command a bridge order sends, and nothing for any other. */
  ghost predicate CommandSent(b: View, a: View, id: OrderId, env: Env) {
    if id in b.orders && Route(b.orders[id].items) == BridgePath && env.bridgeOn && env.spec.Some? then
      exists c: B.CommandId, card: string :: c !in b.commands && a.commands == b.commands[c := NewCommand(id, env.spec.value, card, env.now)]
        && (if env.spec.value.recharge then exists k: CodeId :: k in a.codes && OwnedBy(a.codes[k], id) && a.codes[k].value == card
            else card == "")
    else a.commands == b.commands
  }

  function NewCommand(id: OrderId, spec: Spec, card: string, now: Time): B.Command {
    B.Command(Some(id), spec.provider, if spec.recharge then B.RechargeLine else B.TransferCredit, card,
              B.Queued, 0, None, None, None, "", now)
  }

  /** The dispatch came through: exactly the codes owed moved to the order, and its status says so. */
  ghost predicate Fulfilled(b: View, a: View, id: OrderId, env: Env) {
    && id in b.orders && OnlyOrder(b.orders, a.orders, id)
    && var o, o' := b.orders[id], a.orders[id];
       && o'.user == o.user && o'.total == o.total && o'.payment == o.payment && o'.key == o.key && o'.paymentRef == o.paymentRef
       && o'.createdAt == o.createdAt
       && o'.status == (if Completes(o.items, env) then Completed else Processing)
       && ClaimsOnly(b.codes, a.codes, id) && (forall p :: |OwnedOf(a.codes, id, p)| == Needed(o.items, env, p))
       && ItemsOk(a.codes, id, o, o') && FulfillmentOk(o, o'.fulfillment, env)
       && a.awarded == (if Completes(o.items, env) then b.awarded + multiset{id} else b.awarded)
       && a.wallets == b.wallets && a.captured == b.captured
       && CommandSent(b, a, id, env)
  }

  /** Everything back as it was, the charge returned, and the order failed. */
  ghost predicate Undone(b: View, a: View, id: OrderId, charged: bool) {
    && id in b.orders && OnlyOrder(b.orders, a.orders, id)
    && var o, o' := b.orders[id], a.orders[id];
       && o' == o.(status := Failed, fulfillment := o'.fulfillment)
       && a.codes == b.codes && a.commands == b.commands && a.awarded == b.awarded
       && Repaid(b, a, o, id, charged)
  }

  predicate Repaid(b: View, a: View, o: Order, id: OrderId, charged: bool) {
    && a.wallets == (if charged && o.payment == Wallet then Credited(b.wallets, o.user, o.total) else b.wallets)
    && a.captured == (if charged && o.payment != Wallet && HasRef(o) then b.captured - multiset{id} else b.captured)
  }

  /** Codes are held only by orders that have left placement, and not by failed ones. */
  ghost predicate OwnersOk(orders: map<OrderId, Order>, pool: Pool) {
    forall id :: id in pool && pool[id].owner.Some? ==>
      && pool[id].owner.value in orders
      && orders[pool[id].owner.value].status !in {Pending, Failed}
  }

  lemma OwnsNothing(orders: map<OrderId, Order>, pool: Pool, o: OrderId)
    requires OwnersOk(orders, pool) && PoolOk(pool)
    requires o in orders ==> orders[o].status == Pending || orders[o].status == Failed
    ensures OwnedIds(pool, o) == {}
  {
  }

  /** Units of a cart grow line by line. */
  lemma UnitsStep(items: seq<Item>, i: nat, p: ProductId)
    requires i < |items|
    ensures UnitsOf(items[..i + 1], p) == UnitsOf(items[..i], p) + if items[i].product == p then Want(items[i]) else 0
  {
    assert items[..i + 1][..i] == items[..i];
  }

  lemma {:induction false} UnitsMonotone(items: seq<Item>, i: nat, p: ProductId)
    requires i <= |items|
    ensures UnitsOf(items[..i], p) <= UnitsOf(items, p)
    decreases |items| - i
  {
    if i < |items| {
      UnitsStep(items, i, p);
      UnitsMonotone(items, i + 1, p);
    } else {
      assert items[..i] == items;
    }
  }

  // ----- whole placements -----

  function NewOrder(user: UserId, key: string, q: Quote, now: Time): Order {
    Order(user, q.items, q.total, q.payment, None, Pending,
          Fulfillment(None, None, None, 0, None, None, [Event("created", "")]), key, now)
  }

  predicate Payable(b: View, user: UserId, q: Quote, env: Env) {
    q.total > 0 ==>
      match q.payment
      case Wallet => Balance(b.wallets, user) >= q.total
      case Card => env.gateway
      case Usdt => env.intent
  }

  /** Everything once the order is stored and charged: the wallet lower by exactly its total, or a gateway charge captured. */
  function Charged(b: View, id: OrderId, o: Order): View
    requires o.payment == Wallet ==> Balance(b.wallets, o.user) >= o.total
  {
    if o.total == 0 then b.(orders := b.orders[id := o])
    else
      match o.payment
      case Wallet => b.(orders := b.orders[id := o], wallets := b.wallets[o.user := Balance(b.wallets, o.user) - o.total])
      case Card => b.(orders := b.orders[id := o.(paymentRef := Some("txn"))], captured := b.captured + multiset{id})
      case Usdt => b.(orders := b.orders[id := o])
  }

  lemma ChargedAfterStore(b: View, id: OrderId, o: Order)
    requires o.payment == Wallet ==> Balance(b.wallets, o.user) >= o.total
    ensures Charged(b.(orders := b.orders[id := o]), id, o) == Charged(b, id, o)
  {
    var x := o.(paymentRef := Some("txn"));
    assert b.orders[id := o][id := o] == b.orders[id := o];
    assert b.orders[id := o][id := x] == b.orders[id := x];
  }

  /** A failed placement: the order is kept, failed, and nothing else changed. */
  predicate OnlyFailedOrder(b: View, a: View, id: OrderId, o: Order) {
    && OnlyOrder(b.orders, a.orders, id)
    && a == b.(orders := a.orders)
    && a.orders[id].status == Failed && a.orders[id].items == o.items
    && a.orders[id].user == o.user && a.orders[id].total == o.total && a.orders[id].key == o.key
    && a.orders[id].payment == o.payment && a.orders[id].createdAt == o.createdAt
  }

  /** The trichotomy of a placement that stored an order (the fourth way, an on-chain order awaiting its payment, aside). */
  ghost predicate Placed(b: View, a: View, id: OrderId, o: Order, ok: bool, env: Env) {
    && id !in b.orders
    && if !ok then OnlyFailedOrder(b, a, id, o)
       else if o.payment == Usdt && o.total > 0 then a == b.(orders := b.orders[id := o])
       else (o.payment == Wallet ==> Balance(b.wallets, o.user) >= o.total) && Fulfilled(Charged(b, id, o), a, id, env)
  }

  /** Taking back a charged order leaves only its failed document. */
  lemma UndoneCharge(b: View, a: View, id: OrderId, o: Order, charged: bool)
    requires id !in b.orders && o.status == Pending && o.paymentRef.None?
    requires o.payment == Wallet ==> Balance(b.wallets, o.user) >= o.total
    requires charged <==> o.total > 0
    requires o.payment == Usdt ==> o.total == 0
    requires Undone(Charged(b, id, o), a, id, charged)
    ensures OnlyFailedOrder(b, a, id, o)
  {
    if charged && o.payment == Wallet {
      assert o.user in b.wallets;
      assert a.wallets == b.wallets;
    } else if charged {
      assert a.captured == b.captured;
    }
  }

  lemma ServedOwners(b: View, a: View, id: OrderId, env: Env)
    requires OwnersOk(b.orders, b.codes) && Fulfilled(b, a, id, env)
    ensures OwnersOk(a.orders, a.codes)
  {
  }

  lemma FailedOwners(b: View, a: View, id: OrderId)
    requires OwnersOk(b.orders, b.codes) && PoolOk(b.codes) && OwnedIds(b.codes, id) == {}
    requires a.codes == b.codes && OnlyOrder(b.orders, a.orders, id)
    ensures OwnersOk(a.orders, a.codes)
  {
    forall k | k in a.codes && a.codes[k].owner.Some?
      ensures a.codes[k].owner != Some(id)
    {
      assert k !in OwnedIds(b.codes, id) && StampOk(b.codes[k]);
    }
  }

  /**
   A wallet placement that stored an order: on success the customer's balance is
   lower by exactly the total and exactly the codes owed left the shelves; on
   failure no balance and no shelf changed. Either way, taking the order's codes
   back would restore the pool row by row.
   */
  lemma PlacedExactly(b: View, a: View, id: OrderId, o: Order, ok: bool, env: Env, u: UserId, p: ProductId)
    requires o.payment == Wallet && Placed(b, a, id, o, ok, env)
    requires PoolOk(b.codes) && OwnedIds(b.codes, id) == {}
    ensures Balance(a.wallets, u) == Balance(b.wallets, u) - (if ok && u == o.user then o.total else 0)
    ensures |AvailableIds(b.codes, p)| - |AvailableIds(a.codes, p)| == if ok then Needed(o.items, env, p) else 0
    ensures Released(a.codes, id) == b.codes
  {
    if ok {
      ClaimsTakeFromAvailable(b.codes, a.codes, id, p);
    }
    ReleaseUndoesClaims(b.codes, a.codes, id);
  }
}
