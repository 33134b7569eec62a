/**
 The order document and the single-document writes on it. The database offers
 nothing stronger than these: each is one guarded or unguarded update of one
 document, and every guarantee about money is built from them.
 */
module Orders {
  import opened Basics

  type OrderId = nat
  type UserId = nat
  type ProductId = nat

  /** Money in integer cents. */
  type Cents = nat

  datatype Status = Pending | Processing | Completed | Failed | Refunded

  datatype PaymentMethod = Wallet | Card | Usdt

  datatype FulfillmentType = Code | AccountCredit | Transfer

  datatype Mode = Inventory | ManualOperator | Api | BridgeDevice

  datatype Item = Item(
    product: ProductId,
    qty: nat,
    kind: FulfillmentType,
    mode: Option<Mode>,
    codes: Option<seq<string>>)

  datatype Event = Event(status: string, note: string)

  datatype Fulfillment = Fulfillment(
    deliveredCode: Option<string>,
    transferRef: Option<string>,
    providerRef: Option<string>,
    retryCount: nat,
    nextRetryAt: Option<Time>,
    stuckAt: Option<Time>,
    timeline: seq<Event>)

  datatype Order = Order(
    user: UserId,
    items: seq<Item>,
    total: Cents,
    payment: PaymentMethod,
    paymentRef: Option<string>,
    status: Status,
    fulfillment: Fulfillment,
    key: string,
    createdAt: Time)

  /** Extra fields a transition may set in the same write. */
  datatype Extra =
    | NoExtra
    | PaidBy(ref: string)
    | TransferredBy(ref: string)
    | SuppliedBy(ref: string, codes: Option<string>)

  function WithEvent(f: Fulfillment, e: Event): Fulfillment {
    f.(timeline := f.timeline + [e])
  }

  function WithExtra(o: Order, x: Extra): Order {
    match x
    case NoExtra => o
    case PaidBy(ref) => o.(paymentRef := Some(ref))
    case TransferredBy(ref) => o.(fulfillment := o.fulfillment.(transferRef := Some(ref)))
    case SuppliedBy(ref, codes) =>
      o.(fulfillment := o.fulfillment.(
           transferRef := Some(ref),
           providerRef := Some(ref),
           deliveredCode := if codes.Some? then codes else o.fulfillment.deliveredCode))
  }

  // ----- guarded writes: None means no document matched the guard -----

  function Transition(o: Order, from: set<Status>, to: Status, e: Event, x: Extra): Option<Order> {
    if o.status in from
    then Some(WithExtra(o, x).(status := to, fulfillment := WithEvent(WithExtra(o, x).fulfillment, e)))
    else None
  }

  function DeliverCodes(o: Order, to: Status, f: Fulfillment, codes: seq<Option<seq<string>>>): Option<Order>
    requires |codes| == |o.items|
  {
    if o.status in {Pending, Processing}
    then Some(o.(status := to, fulfillment := f, items := WithCodes(o.items, codes)))
    else None
  }

  function WithCodes(items: seq<Item>, codes: seq<Option<seq<string>>>): seq<Item>
    requires |codes| == |items|
  {
    seq(|items|, i requires 0 <= i < |items| =>
      if codes[i].Some? then items[i].(codes := codes[i]) else items[i])
  }

  function MarkStuck(o: Order, at: Time, e: Event): Option<Order> {
    if o.status == Processing && o.fulfillment.stuckAt.None?
    then Some(o.(fulfillment := WithEvent(o.fulfillment, e).(stuckAt := Some(at), retryCount := 0, nextRetryAt := None)))
    else None
  }

  function BumpRetry(o: Order, count: nat, next: Time): Order {
    if o.status == Processing
    then o.(fulfillment := o.fulfillment.(retryCount := count, nextRetryAt := Some(next)))
    else o
  }

  function SetSupplierRef(o: Order, ref: string, e: Event): Order {
    if o.status == Processing
    then o.(fulfillment := WithEvent(o.fulfillment, e).(providerRef := Some(ref), retryCount := 0, nextRetryAt := None))
    else o
  }

  // ----- unguarded writes -----

  function SetStatus(o: Order, to: Status): Order {
    o.(status := to)
  }

  function SetFulfillment(o: Order, to: Status, f: Fulfillment): Order {
    o.(status := to, fulfillment := f)
  }

  function AppendEvent(o: Order, e: Event): Order {
    o.(fulfillment := WithEvent(o.fulfillment, e))
  }

  /** There is money to send back and a way to send it. */
  predicate Reversible(o: Order) {
    o.total > 0 && (o.payment == Wallet || HasRef(o))
  }

  /** A gateway transaction is on record. */
  predicate HasRef(o: Order) {
    o.paymentRef.Some? && o.paymentRef.value != ""
  }

  /** How sending money back came out: done, refused, or no gateway configured for the payment method. */
  datatype Back = Given | Withheld | Unconfigured

  /** The refund has to be reverted: there was money to send and it could not be. */
  predicate Declines(o: Order, back: Back) {
    Reversible(o) && back == Withheld
  }

  /** Money went back; a wallet needs no gateway. */
  predicate PaysBack(o: Order, back: Back) {
    Reversible(o) && (back == Given || (o.payment == Wallet && back == Unconfigured))
  }

  // ----- the path an order takes -----

  datatype Path = InventoryPath | MixedPath | ApiPath | BridgePath | ManualPath

  function DeriveMode(kind: FulfillmentType): Mode {
    if kind == Code then Inventory else ManualOperator
  }

  /** The mode snapshotted on the line, or the one its type implies. */
  function ItemMode(it: Item): (m: Mode)
    ensures it.mode.Some? ==> m == it.mode.value
  {
    if it.mode.Some? then it.mode.value else DeriveMode(it.kind)
  }

  function PathOf(m: Mode): Path {
    match m
    case Inventory => InventoryPath
    case ManualOperator => ManualPath
    case Api => ApiPath
    case BridgeDevice => BridgePath
  }

  /**
   One path for the whole cart: the shared mode of a homogeneous cart, codes
   now and the rest by hand for a mix of exactly those two, by hand otherwise.
   */
  function Route(items: seq<Item>): Path {
    if items == [] then ManualPath
    else if forall it :: it in items ==> ItemMode(it) == ItemMode(items[0]) then PathOf(ItemMode(items[0]))
    else if forall it :: it in items ==> ItemMode(it) in {Inventory, ManualOperator} then MixedPath
    else ManualPath
  }

  /** A cart whose lines are all of one mode. */
  predicate AllLines(items: seq<Item>, m: Mode) {
    items != [] && forall it :: it in items ==> ItemMode(it) == m
  }

  /** Lines with codes and lines for an operator, and no others. */
  predicate CodesAndManual(items: seq<Item>) {
    && (exists it :: it in items && ItemMode(it) == Inventory)
    && (exists it :: it in items && ItemMode(it) == ManualOperator)
    && (forall it :: it in items ==> ItemMode(it) == Inventory || ItemMode(it) == ManualOperator)
  }

  /** Which carts go down a path, told by the modes of their lines. */
  predicate Serves(p: Path, items: seq<Item>) {
    match p
    case InventoryPath => AllLines(items, Inventory)
    case ApiPath => AllLines(items, Api)
    case BridgePath => AllLines(items, BridgeDevice)
    case MixedPath => CodesAndManual(items)
    case ManualPath => !AllLines(items, Inventory) && !AllLines(items, Api) && !AllLines(items, BridgeDevice) && !CodesAndManual(items)
  }

  /** Route finds that path, and no cart has two. */
  lemma RouteServes(items: seq<Item>, p: Path)
    ensures Serves(p, items) <==> p == Route(items)
  {
    if items != [] {
      assert items[0] in items;
      if AllLines(items, ItemMode(items[0])) {
        assert !CodesAndManual(items);
      } else if forall it :: it in items ==> ItemMode(it) in {Inventory, ManualOperator} {
        OtherLine(items);
      }
    }
  }

  /** A mixed cart has a line of another mode than its first. */
  lemma OtherLine(items: seq<Item>)
    requires items != [] && !AllLines(items, ItemMode(items[0]))
    ensures exists it :: it in items && ItemMode(it) != ItemMode(items[0])
  {
  }

  method ResolveOrderMode(items: seq<Item>) returns (p: Path)
    ensures Serves(p, items) && p == Route(items)
  {
    RouteServes(items, Route(items));
    var mode: Option<Mode> := None;
    var hasInventory, hasManual, other := false, false, false;
    for i := 0 to |items|
      invariant i > 0 ==>
                  mode == if forall j :: 0 <= j < i ==> ItemMode(items[j]) == ItemMode(items[0])
                          then Some(ItemMode(items[0])) else None
      invariant hasInventory <==> exists j :: 0 <= j < i && ItemMode(items[j]) == Inventory
      invariant hasManual <==> exists j :: 0 <= j < i && ItemMode(items[j]) == ManualOperator
      invariant other <==> exists j :: 0 <= j < i && ItemMode(items[j]) !in {Inventory, ManualOperator}
    {
      var m := ItemMode(items[i]);
      match m {
        case Inventory => hasInventory := true;
        case ManualOperator => hasManual := true;
        case _ => other := true;
      }
      if i == 0 {
        mode := Some(m);
      } else if Some(m) != mode {
        mode := None;
      }
    }
    if |items| == 0 {
      return ManualPath;
    }
    if mode.Some? {
      return PathOf(mode.value);
    }
    if hasInventory && hasManual && !other {
      return MixedPath;
    }
    return ManualPath;
  }

  /** Codes a line asks for. */
  function Want(it: Item): nat {
    if ItemMode(it) == Inventory then it.qty else 0
  }

  /** Total units the inventory lines ask of one product. */
  function UnitsOf(items: seq<Item>, p: ProductId): nat {
    if items == [] then 0
    else
      var last := |items| - 1;
      UnitsOf(items[..last], p) + if items[last].product == p then Want(items[last]) else 0
  }
}
