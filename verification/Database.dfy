/** The documents the services share; each update of one entry is one atomic write. */
module Database {
  import opened Basics
  import opened Orders
  import opened Codes
  import opened Bridge

  /** Everything but the stock fields, as one value. */
  datatype View = View(
    orders: map<OrderId, Order>,
    codes: Pool,
    wallets: map<UserId, nat>,
    commands: map<CommandId, Command>,
    captured: multiset<OrderId>,
    awarded: multiset<OrderId>)

  function Balance(wallets: map<UserId, nat>, u: UserId): nat {
    if u in wallets then wallets[u] else 0
  }

  function Credited(wallets: map<UserId, nat>, u: UserId, amount: nat): map<UserId, nat> {
    wallets[u := Balance(wallets, u) + amount]
  }

  /** One customer's balance changed by this much, and no other did. */
  ghost predicate WalletBy(b: map<UserId, nat>, a: map<UserId, nat>, user: UserId, amount: int) {
    forall u :: Balance(a, u) == Balance(b, u) + if u == user then amount else 0
  }

  predicate MoneyStays(b: View, a: View) {
    a.wallets == b.wallets && a.captured == b.captured
  }

  /** Only documents, money and awards may have changed, and of the documents only this one. */
  predicate OnlyDocument(b: View, a: View, id: OrderId) {
    && a == b.(orders := a.orders, wallets := a.wallets, captured := a.captured, awarded := a.awarded)
    && a.orders.Keys == b.orders.Keys && id in b.orders && forall o :: o in b.orders && o != id ==> a.orders[o] == b.orders[o]
  }

  /** What was paid for the order is back: in the wallet, or, through a gateway that has its reference, no longer captured. */
  ghost predicate PaidInFull(b: View, a: View, id: OrderId, gateway: bool)
    requires id in b.orders
  {
    var o := b.orders[id];
    && WalletBy(b.wallets, a.wallets, o.user, if o.payment == Wallet then o.total else 0)
    && a.captured == if gateway && o.payment != Wallet && o.total > 0 && o.paymentRef.Some? && o.paymentRef.value != ""
                     then b.captured - multiset{id} else b.captured
  }

  /** A refund that cannot go through: there is money to return, a way it came, and the way is refused. */
  predicate CannotReturn(o: Order, back: Back) {
    o.total > 0 && (o.payment == Wallet || (o.paymentRef.Some? && o.paymentRef.value != "")) && back == Withheld
  }

  /** Only the status changed, and these events were told after the ones before. */
  predicate Told(o: Order, d: Order, to: Status, told: seq<string>) {
    var before, after := o.fulfillment.timeline, d.fulfillment.timeline;
    && d == o.(status := to, fulfillment := o.fulfillment.(timeline := after))
    && |after| == |before| + |told| && after[..|before|] == before
    && forall k :: 0 <= k < |told| ==> after[|before| + k].status == told[k]
  }

  const REVERTED := Event("refund_reverted", "charge reversal failed")

  class Database {
    var orders: map<OrderId, Order>
    var codes: Pool
    var stock: map<ProductId, nat>
    var wallets: map<UserId, nat>
    var commands: map<CommandId, Command>
    /** Gateway charges captured and not reversed. */
    var captured: multiset<OrderId>
    /** Completion effects so far: one entry for each loyalty award and completed notification. */
    var awarded: multiset<OrderId>

    ghost function Now(): View
      reads this
    {
      View(orders, codes, wallets, commands, captured, awarded)
    }

    /** The guarded status write: it happens exactly when the order is in one of the given statuses. */
    method TransitionStatus(id: OrderId, from: set<Status>, to: Status, e: Event) returns (ok: bool)
      requires id in orders
      modifies this`orders
      ensures ok <==> old(orders)[id].status in from
      ensures orders == if ok then old(orders)[id := Transition(old(orders)[id], from, to, e, NoExtra).value] else old(orders)
    {
      match Transition(orders[id], from, to, e, NoExtra)
      case Some(doc) =>
        orders := orders[id := doc];
        return true;
      case None => return false;
    }

    /** Sends an order's money back to where it came from: the wallet, or through its gateway. */
    method GiveBack(id: OrderId, o: Order, back: Back)
      requires !Declines(o, back)
      modifies this`wallets, this`captured
      ensures wallets == if PaysBack(o, back) && o.payment == Wallet then Credited(old(wallets), o.user, o.total) else old(wallets)
      ensures captured == if PaysBack(o, back) && o.payment != Wallet then old(captured) - multiset{id} else old(captured)
    {
      if Reversible(o) {
        if o.payment == Wallet {
          wallets := Credited(wallets, o.user, o.total);
        } else if back == Given {
          captured := captured - multiset{id};
        }
      }
    }

    /** The second half of a refund that won its transition: the money, or, when it cannot be returned, the status it had before. */
    method PayOrRevert(id: OrderId, before: Order, back: Back)
      requires id in orders
      modifies this`orders, this`wallets, this`captured
      ensures orders == if Declines(before, back) && old(orders)[id].status == Refunded
                        then old(orders)[id := Transition(old(orders)[id], {Refunded}, before.status, REVERTED, NoExtra).value]
                        else old(orders)
      ensures wallets == if PaysBack(before, back) && before.payment == Wallet then Credited(old(wallets), before.user, before.total) else old(wallets)
      ensures captured == if PaysBack(before, back) && before.payment != Wallet then old(captured) - multiset{id} else old(captured)
    {
      if Declines(before, back) {
        var reverted := TransitionStatus(id, {Refunded}, before.status, REVERTED);
      } else {
        GiveBack(id, before, back);
      }
    }

    constructor ()
      ensures orders == map[] && codes == map[] && stock == map[] && wallets == map[] && commands == map[]
      ensures awarded == multiset{} && captured == multiset{}
    {
      orders, codes, stock, wallets, commands := map[], map[], map[], map[], map[];
      awarded, captured := multiset{}, multiset{};
    }
  }
}
