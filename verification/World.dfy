/**
 Many customers, many orders, many simultaneous placement calls: wallets
 balance, and an idempotency key stands for one order and one debit.
 */
module World {
  import opened Basics
  import opened Orders
  import opened Settlement
  import opened SettlementSafety
  import opened SettlementTheorems

  /** A placement call, at the step it will take next. */
  datatype Call =
    | Looking(user: UserId, key: string, draft: Order)
    | Inserting(user: UserId, key: string, draft: Order)
    | Refetching(user: UserId, key: string)
    | Placing(user: UserId, key: string, id: OrderId)
    | Answered(user: UserId, key: string, id: OrderId)
    | Refused(user: UserId, key: string)

  /** Orders are numbered by insertion; `funded` is what each wallet received from outside. */
  datatype World = World(
    cells: seq<Cell>,
    calls: seq<Call>,
    wallets: map<UserId, nat>,
    funded: map<UserId, nat>)

  datatype Event =
    | Deposit(user: UserId, amount: nat)
    | NewCall(user: UserId, key: string, draft: Order)
    | Advance(k: nat)
    | Act(id: OrderId, action: Action)

  const Empty: World := World([], [], map[], map[])

  function Amount(m: map<UserId, nat>, u: UserId): nat {
    if u in m then m[u] else 0
  }

  /** The order a user placed under a key, if any: at most one, by the unique index. */
  function Find(cells: seq<Cell>, user: UserId, key: string): (r: Option<OrderId>)
    ensures r.Some? ==> r.value < |cells| && cells[r.value].doc.user == user && cells[r.value].doc.key == key
    ensures r.None? ==> forall i :: 0 <= i < |cells| ==> !(cells[i].doc.user == user && cells[i].doc.key == key)
  {
    if cells == [] then None
    else
      var last := |cells| - 1;
      var rest := Find(cells[..last], user, key);
      if rest.Some? then rest
      else if cells[last].doc.user == user && cells[last].doc.key == key then Some(last) else None
  }

  /** The order a call is about to insert. */
  function Draft(call: Call): Order
    requires call.Inserting?
  {
    call.draft.(user := call.user, key := call.key)
  }

  /** One step of a placement call. */
  function AdvanceCall(w: World, k: nat): (r: World)
    requires k < |w.calls|
    ensures r.wallets == w.wallets && r.funded == w.funded
    ensures r.cells == w.cells || (w.calls[k].Inserting? && r.cells == w.cells + [Created(Draft(w.calls[k]))])
  {
    match w.calls[k]
    case Looking(user, key, draft) =>
      var found := if key == "" then None else Find(w.cells, user, key);
      w.(calls := w.calls[k := if found.Some? then Answered(user, key, found.value) else Inserting(user, key, draft)])
    case Inserting(user, key, draft) =>
      if key != "" && Find(w.cells, user, key).Some? then w.(calls := w.calls[k := Refetching(user, key)])
      else w.(cells := w.cells + [Created(Draft(w.calls[k]))],
              calls := w.calls[k := Placing(user, key, |w.cells|)])
    case Refetching(user, key) =>
      var found := Find(w.cells, user, key);
      w.(calls := w.calls[k := if found.Some? then Answered(user, key, found.value) else Refused(user, key)])
    case Placing(user, key, id) =>
      if id < |w.cells| && |w.cells[id].jobs| > 0 && w.cells[id].jobs[0].Returned? then
        w.(calls := w.calls[k := if w.cells[id].jobs[0].verdict == Success then Answered(user, key, id) else Refused(user, key)])
      else w
    case Answered(_, _, _) => w
    case Refused(_, _) => w
  }

  /** The wallet after one step of an order: a debit, a credit, or nothing. */
  function Paying(wallets: map<UserId, nat>, c: Cell, d: Cell): Option<map<UserId, nat>> {
    var u, total := c.doc.user, c.doc.total;
    if c.doc.payment != Wallet then Some(wallets)
    else if d.charges > c.charges then
      if Amount(wallets, u) >= total then Some(wallets[u := Amount(wallets, u) - total]) else None
    else if d.credits > c.credits then Some(wallets[u := Amount(wallets, u) + total])
    else Some(wallets)
  }

  /** A step that would overdraw the wallet is answered with a refusal instead. */
  function ActOn(w: World, id: OrderId, a: Action): World
    requires id < |w.cells|
  {
    var c := w.cells[id];
    match Paying(w.wallets, c, Apply(c, a))
    case Some(wallets) => w.(cells := w.cells[id := Apply(c, a)], wallets := wallets)
    case None =>
      if a.Step? && Paying(w.wallets, c, Apply(c, Step(a.i, Bad, a.copy))) == Some(w.wallets)
      then w.(cells := w.cells[id := Apply(c, Step(a.i, Bad, a.copy))]) else w
  }

  function Next(w: World, e: Event): World {
    match e
    case Deposit(user, amount) =>
      w.(wallets := w.wallets[user := Amount(w.wallets, user) + amount],
         funded := w.funded[user := Amount(w.funded, user) + amount])
    case NewCall(user, key, draft) => w.(calls := w.calls + [Looking(user, key, draft)])
    case Advance(k) => if k < |w.calls| then AdvanceCall(w, k) else w
    case Act(id, a) => if id < |w.cells| then ActOn(w, id, a) else w
  }

  function History(es: seq<Event>): World {
    if es == [] then Empty else Next(History(es[..|es| - 1]), es[|es| - 1])
  }

  // ----- conservation of wallet money -----

  /** What a wallet order currently keeps of its customer's money. */
  function Kept(c: Cell): int {
    if c.doc.payment == Wallet then c.doc.total * (c.charges - c.credits) else 0
  }

  function Outstanding(cells: seq<Cell>, u: UserId): int {
    if cells == [] then 0
    else
      var last := |cells| - 1;
      Outstanding(cells[..last], u) + if cells[last].doc.user == u then Kept(cells[last]) else 0
  }

  lemma {:induction false} OutstandingUpdate(cells: seq<Cell>, i: nat, d: Cell, u: UserId)
    requires i < |cells| && d.doc.user == cells[i].doc.user
    ensures Outstanding(cells[i := d], u)
            == Outstanding(cells, u) + if d.doc.user == u then Kept(d) - Kept(cells[i]) else 0
    decreases |cells|
  {
    var last := |cells| - 1;
    if i == last {
      assert cells[i := d][..last] == cells[..last];
    } else {
      assert cells[i := d][..last] == cells[..last][i := d];
      OutstandingUpdate(cells[..last], i, d, u);
    }
  }

  predicate Balanced(w: World, u: UserId) {
    Amount(w.wallets, u) + Outstanding(w.cells, u) == Amount(w.funded, u)
  }

  lemma KeptStep(c: Cell, d: Cell)
    requires SameTerms(c.doc, d.doc) && c.doc.payment == Wallet && Later(c, d) && OneMove(c, d)
    ensures Kept(d) - Kept(c)
            == if d.charges > c.charges then c.doc.total else if d.credits > c.credits then 0 - c.doc.total else 0
  {
    var n := (d.charges - d.credits) - (c.charges - c.credits);
    assert Kept(d) - Kept(c) == c.doc.total * n;
    assert n == 1 || n == 0 || n == -1;
  }

  lemma ActBalances(w: World, id: OrderId, d: Cell, wallets: map<UserId, nat>, u: UserId)
    requires id < |w.cells| && Later(w.cells[id], d) && OneMove(w.cells[id], d) && Balanced(w, u)
    requires Paying(w.wallets, w.cells[id], d) == Some(wallets)
    ensures Balanced(w.(cells := w.cells[id := d], wallets := wallets), u)
  {
    var c := w.cells[id];
    OutstandingUpdate(w.cells, id, d, u);
    if c.doc.payment == Wallet {
      KeptStep(c, d);
    }
  }

  lemma ActOnBalances(w: World, id: OrderId, a: Action, u: UserId)
    requires Balanced(w, u) && id < |w.cells|
    ensures Balanced(ActOn(w, id, a), u)
  {
    var c := w.cells[id];
    match Paying(w.wallets, c, Apply(c, a))
    case Some(wallets) => ActBalances(w, id, Apply(c, a), wallets, u);
    case None =>
      if a.Step? && Paying(w.wallets, c, Apply(c, Step(a.i, Bad, a.copy))) == Some(w.wallets) {
        ActBalances(w, id, Apply(c, Step(a.i, Bad, a.copy)), w.wallets, u);
      }
  }

  lemma AdvanceBalances(w: World, k: nat, u: UserId)
    requires Balanced(w, u) && k < |w.calls|
    ensures Balanced(AdvanceCall(w, k), u)
  {
    if w.calls[k].Inserting? {
      NewOrderKeepsNothing(w.cells, Draft(w.calls[k]), u);
    }
  }

  lemma NewOrderKeepsNothing(cells: seq<Cell>, o: Order, u: UserId)
    ensures Outstanding(cells + [Created(o)], u) == Outstanding(cells, u)
  {
    var all := cells + [Created(o)];
    assert all[..|all| - 1] == cells;
    assert Kept(Created(o)) == 0;
  }

  lemma NextBalances(w: World, e: Event, u: UserId)
    requires Balanced(w, u)
    ensures Balanced(Next(w, e), u)
  {
    match e
    case Act(id, a) => if id < |w.cells| { ActOnBalances(w, id, a, u); }
    case Advance(k) => if k < |w.calls| { AdvanceBalances(w, k, u); }
    case _ =>
  }

  /** At every moment a wallet holds exactly what it received less what its orders keep. */
  lemma {:induction false} WalletConservation(es: seq<Event>, u: UserId)
    ensures Balanced(History(es), u)
    decreases |es|
  {
    if es != [] {
      var last := |es| - 1;
      WalletConservation(es[..last], u);
      NextBalances(History(es[..last]), es[last], u);
    }
  }

  // ----- idempotency -----

  /** A cell is debited at most once: only its placement thread charges, and only as its first step. */
  predicate ChargesOnce(c: Cell) {
    && |c.jobs| > 0
    && (forall i :: 1 <= i < |c.jobs| ==> !c.jobs[i].Charging?)
    && c.charges <= 1 && (c.jobs[0].Charging? ==> c.charges == 0)
  }

  lemma ApplyChargesOnce(c: Cell, a: Action)
    requires ChargesOnce(c)
    ensures ChargesOnce(Apply(c, a))
  {
    if a.Step? {
      if a.i < |c.jobs| {
        StepChargesOnce(c, a.i, a.out, a.copy);
      }
    } else {
      ArrivalChargesOnce(c, a);
    }
  }

  lemma StepChargesOnce(c: Cell, i: nat, out: Outcome, f: Fulfillment)
    requires ChargesOnce(c) && i < |c.jobs|
    ensures ChargesOnce(StepJob(c, i, out, f))
  {
  }

  lemma ArrivalChargesOnce(c: Cell, a: Action)
    requires ChargesOnce(c) && !a.Step?
    ensures ChargesOnce(Apply(c, a))
  {
  }

  predicate SameKey(c: Cell, user: UserId, key: string) {
    c.doc.user == user && c.doc.key == key
  }

  predicate KeysUnique(cells: seq<Cell>) {
    forall i, j :: 0 <= i < j < |cells| ==> cells[i].doc.key == "" || !SameKey(cells[j], cells[i].doc.user, cells[i].doc.key)
  }

  /** A call that has an order has its own user's order under its own key. */
  predicate CallOk(cells: seq<Cell>, call: Call) {
    match call
    case Placing(user, key, id) => id < |cells| && SameKey(cells[id], user, key)
    case Answered(user, key, id) => id < |cells| && SameKey(cells[id], user, key)
    case Refetching(user, key) => key != "" && exists i :: 0 <= i < |cells| && SameKey(cells[i], user, key)
    case _ => true
  }

  ghost predicate WorldOk(w: World) {
    && KeysUnique(w.cells)
    && (forall k :: 0 <= k < |w.calls| ==> CallOk(w.cells, w.calls[k]))
    && (forall i :: 0 <= i < |w.cells| ==> ChargesOnce(w.cells[i]) && IsRun(w.cells[i]))
  }

  /** Every order of a history lives one of the runs the settlement theorems are about. */
  ghost predicate IsRun(c: Cell) {
    exists o, acts :: c == Run(Created(o), acts)
  }

  lemma RunGoesOn(c: Cell, a: Action)
    requires IsRun(c)
    ensures IsRun(Apply(c, a))
  {
    var o, acts :| c == Run(Created(o), acts);
    RunExtends(Created(o), acts, a);
  }

  lemma RunBegins(o: Order)
    ensures IsRun(Created(o))
  {
    assert Run(Created(o), []) == Created(o);
  }

  /** An order steps; keys and owners stay as they are. */
  lemma CellStepOk(w: World, id: OrderId, a: Action)
    requires WorldOk(w) && id < |w.cells|
    ensures WorldOk(w.(cells := w.cells[id := Apply(w.cells[id], a)]))
  {
    var cells := w.cells[id := Apply(w.cells[id], a)];
    ApplyChargesOnce(w.cells[id], a);
    RunGoesOn(w.cells[id], a);
    assert forall i :: 0 <= i < |cells| ==> SameTerms(w.cells[i].doc, cells[i].doc);
    forall k | 0 <= k < |w.calls|
      ensures CallOk(cells, w.calls[k])
    {
      CallKeepsOrder(w.cells, cells, w.calls[k]);
    }
  }

  /** Orders keep owner and key, so a call keeps the order it has. */
  lemma CallKeepsOrder(before: seq<Cell>, after: seq<Cell>, call: Call)
    requires CallOk(before, call) && |before| <= |after|
    requires forall i :: 0 <= i < |before| ==> SameTerms(before[i].doc, after[i].doc)
    ensures CallOk(after, call)
  {
    if call.Refetching? {
      var i :| 0 <= i < |before| && SameKey(before[i], call.user, call.key);
      assert SameKey(after[i], call.user, call.key);
    }
  }

  lemma CallStepOk(w: World, k: nat, call: Call)
    requires WorldOk(w) && k < |w.calls| && CallOk(w.cells, call)
    ensures WorldOk(w.(calls := w.calls[k := call]))
  {
  }

  /** A new order joins only under a fresh key. */
  lemma InsertOk(w: World, o: Order)
    requires WorldOk(w)
    requires o.key == "" || Find(w.cells, o.user, o.key).None?
    ensures WorldOk(w.(cells := w.cells + [Created(o)]))
  {
    var cells := w.cells + [Created(o)];
    RunBegins(o);
    forall k | 0 <= k < |w.calls|
      ensures CallOk(cells, w.calls[k])
    {
      CallKeepsOrder(w.cells, cells, w.calls[k]);
    }
  }

  lemma AdvanceOk(w: World, k: nat)
    requires WorldOk(w) && k < |w.calls|
    ensures WorldOk(AdvanceCall(w, k))
  {
    var call := AdvanceCall(w, k).calls[k];
    assert CallOk(w.cells, w.calls[k]);
    match w.calls[k]
    case Inserting(user, key, draft) =>
      var found := Find(w.cells, user, key);
      if key != "" && found.Some? {
        assert SameKey(w.cells[found.value], user, key);
        CallStepOk(w, k, call);
      } else {
        var o := draft.(user := user, key := key);
        InsertOk(w, o);
        CallStepOk(w.(cells := w.cells + [Created(o)]), k, call);
      }
    case Looking(user, key, draft) => CallStepOk(w, k, call);
    case Refetching(user, key) => CallStepOk(w, k, call);
    case Placing(user, key, id) => CallStepOk(w, k, call);
    case _ =>
  }

  lemma NextOk(w: World, e: Event)
    requires WorldOk(w)
    ensures WorldOk(Next(w, e))
  {
    match e
    case Act(id, a) =>
      if id < |w.cells| {
        CellStepOk(w, id, a);
        if a.Step? {
          CellStepOk(w, id, Step(a.i, Bad, a.copy));
        }
      }
    case Advance(k) => if k < |w.calls| { AdvanceOk(w, k); }
    case _ =>
  }

  lemma {:induction false} HistoryOk(es: seq<Event>)
    ensures WorldOk(History(es))
    decreases |es|
  {
    if es != [] {
      HistoryOk(es[..|es| - 1]);
      NextOk(History(es[..|es| - 1]), es[|es| - 1]);
    }
  }

  /**
   Whatever the interleaving: a user's non-empty key names at most one order,
   that order is debited at most once, every call answered under the key names
   it, and a call that lost the insertion race is always answered.
   */
  lemma OneOrderPerKey(es: seq<Event>, user: UserId, key: string)
    requires key != ""
    ensures var w := History(es);
            && (forall i, j | 0 <= i < |w.cells| && 0 <= j < |w.cells| ::
                  SameKey(w.cells[i], user, key) && SameKey(w.cells[j], user, key) ==> i == j)
            && (forall i :: 0 <= i < |w.cells| ==> w.cells[i].charges <= 1)
            && (forall k | 0 <= k < |w.calls| && w.calls[k].Answered? ::
                  w.calls[k].user == user && w.calls[k].key == key ==> Find(w.cells, user, key) == Some(w.calls[k].id))
            && (forall k :: 0 <= k < |w.calls| && w.calls[k].Refetching? ==> AdvanceCall(w, k).calls[k].Answered?)
  {
    HistoryOk(es);
    var w := History(es);
    assert forall k :: 0 <= k < |w.calls| ==> CallOk(w.cells, w.calls[k]);
  }

  /**
   A call that meets no other: a known key is answered with its order; any other
   call inserts the caller's order under the caller's key, and answers with it as
   soon as its placement has succeeded.
   */
  lemma CallAlone(w: World, user: UserId, key: string, draft: Order)
    ensures var k, c := |w.calls|, Next(Next(w, NewCall(user, key, draft)), Advance(|w.calls|));
            && |c.calls| == k + 1 && c.cells == w.cells
            && if key != "" && exists i :: 0 <= i < |w.cells| && SameKey(w.cells[i], user, key)
               then c.calls[k].Answered? && c.calls[k].id < |w.cells| && SameKey(w.cells[c.calls[k].id], user, key)
               else
                 var a := Next(c, Advance(k));
                 && a.cells == w.cells + [Created(draft.(user := user, key := key))]
                 && |a.calls| == k + 1 && a.calls[k] == Placing(user, key, |w.cells|)
  {
    var m := Next(w, NewCall(user, key, draft));
    assert m.calls[|w.calls|] == Looking(user, key, draft);
    var c := Next(m, Advance(|w.calls|));
    if !(key != "" && exists i :: 0 <= i < |w.cells| && SameKey(w.cells[i], user, key)) {
      assert c.calls[|w.calls|] == Inserting(user, key, draft);
    }
  }

  lemma PlacedAnswers(w: World, k: nat, user: UserId, key: string, id: OrderId)
    requires k < |w.calls| && w.calls[k] == Placing(user, key, id) && id < |w.cells| && |w.cells[id].jobs| > 0
    requires w.cells[id].jobs[0].Returned? && w.cells[id].jobs[0].verdict == Success
    ensures Next(w, Advance(k)).calls[k] == Answered(user, key, id)
  {
  }

  // ----- the wallet when everything has settled -----

  /** What a customer has bought and not been given back. */
  function Bought(cells: seq<Cell>, u: UserId): nat {
    if cells == [] then 0
    else
      var last := |cells| - 1;
      var o := cells[last].doc;
      Bought(cells[..last], u)
      + if o.user == u && o.payment == Wallet && Stands(cells[last]) then o.total else 0
  }

  /** Nobody is at work on the order, and no refused recharge was moved while it was being taken back. */
  ghost predicate Settled(c: Cell) {
    Quiet(c) && !c.anomalies.late
  }

  lemma KeptAtRest(c: Cell)
    requires IsRun(c) && c.doc.payment == Wallet && Settled(c)
    ensures Kept(c) == if Stands(c) then c.doc.total else 0
  {
    if c.doc.total == 0 {
      KeptNothing(c);
    } else {
      StandsAtRest(c);
      KeptAmount(c, Stands(c));
    }
  }

  lemma StandsAtRest(c: Cell)
    requires IsRun(c) && c.doc.payment == Wallet && c.doc.total > 0 && Settled(c)
    ensures c.charges - c.credits == if Stands(c) then 1 else 0
  {
    PromptIsCalm(c);
    CalmMoneyAtRest(c);
  }

  lemma KeptNothing(c: Cell)
    requires c.doc.total == 0
    ensures Kept(c) == 0
  {
  }

  lemma KeptAmount(c: Cell, stands: bool)
    requires c.doc.payment == Wallet && c.charges - c.credits == if stands then 1 else 0
    ensures Kept(c) == if stands then c.doc.total else 0
  {
  }

  lemma PromptIsCalm(c: Cell)
    requires IsRun(c) && !PaysLater(c.doc) && !c.anomalies.late
    ensures Calm(c) && Inv(c)
  {
    var o, acts :| c == Run(Created(o), acts);
    CalmUnlessLate(o, acts);
    CalmRunHolds(o, acts);
  }

  lemma {:induction false} OutstandingAtRest(cells: seq<Cell>, u: UserId)
    requires forall i :: 0 <= i < |cells| ==> IsRun(cells[i]) && (cells[i].doc.payment == Wallet ==> Settled(cells[i]))
    ensures Outstanding(cells, u) == Bought(cells, u)
  {
    if cells != [] {
      if cells[|cells| - 1].doc.payment == Wallet {
        KeptAtRest(cells[|cells| - 1]);
      }
      OutstandingAtRest(cells[..|cells| - 1], u);
    }
  }

  /** Once the wallet orders are settled, a wallet is short of its deposits by exactly what was bought. */
  lemma WalletAtRest(es: seq<Event>, u: UserId)
    requires forall i :: 0 <= i < |History(es).cells| && History(es).cells[i].doc.payment == Wallet ==> Settled(History(es).cells[i])
    ensures Amount(History(es).wallets, u) + Bought(History(es).cells, u) == Amount(History(es).funded, u)
  {
    HistoryOk(es);
    WalletConservation(es, u);
    OutstandingAtRest(History(es).cells, u);
  }
}
