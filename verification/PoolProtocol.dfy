/**
 The code pool under everyone at once: placements claiming line by line,
 compensations giving back row by row, operators editing the pool, actors
 moving orders, and devices working on recharge commands. A run is any finite
 sequence of atomic steps. `slots` remembers, beside the documents, which unit
 of which line each claimed row serves.
 */
module PoolProtocol {
  import opened Basics
  import opened Orders
  import opened Codes
  import B = Bridge

  datatype CardUse = NoBridge | Transfer | Recharge

  /** Where an order's placement thread stands. */
  datatype Phase =
    | Waiting
    | Claiming(line: nat)
    | Recording
    | Recorded
    | Stranded
    | Parking
    | Sending
    | Sent(command: nat)
    | Freeing
    | Closing
    | Closed
    | Codeless

  /** An order's document as far as codes go, with the thread's own memory of the codes each line got. */
  datatype Entry = Entry(
    items: seq<Item>,
    card: CardUse,
    status: Status,
    recorded: seq<Option<seq<string>>>,
    phase: Phase,
    lines: seq<seq<CodeId>>)

  datatype Slot = Slot(order: OrderId, line: nat, unit: nat)

  /** A recharge command and the row its card came from. */
  datatype Tracked = Tracked(cmd: B.Command, card: Option<CodeId>)

  datatype State = State(pool: Pool, slots: map<CodeId, Slot>, entries: seq<Entry>, commands: seq<Tracked>)

  const Empty := State(map[], map[], [], [])

  datatype CommandWrite =
    | DoLease(device: B.DeviceId, providers: seq<string>, expires: Time)
    | DoComplete(device: B.DeviceId, report: B.Report)
    | DoExhaust(now: Time, max: nat)
    | DoRequeue(now: Time)
    | DoTimeOut(cutoff: Time)
    | DoRetry
    | DoCancel

  /** The next step of an order's placement, or a status change by another actor. */
  datatype Step =
    | Begin
    | Claim(id: CodeId)
    | Record
    | Park
    | Send(stored: bool, provider: string, now: Time)
    | Free(id: CodeId)
    | Freed
    | Fail
    | Move(to: Status)

  datatype PoolEdit =
    | Insert(id: CodeId, product: ProductId, value: string, pin: string)
    | Edit(id: CodeId, value: string, pin: string)
    | Expire(id: CodeId)
    | Delete(id: CodeId)

  datatype Action =
    | Place(items: seq<Item>, card: CardUse)
    | Advance(o: OrderId, step: Step)
    | Change(edit: PoolEdit)
    | Device(k: nat, write: CommandWrite)

  // ----- what an order is owed -----

  /** Codes line i must get: its quantity on an inventory line, one card for a recharge. */
  function Wanted(e: Entry, i: nat): nat
    requires i < |e.items|
  {
    match Route(e.items)
    case InventoryPath => Want(e.items[i])
    case MixedPath => Want(e.items[i])
    case BridgePath => if e.card == Recharge && i == 0 then 1 else 0
    case _ => 0
  }

  function Values(pool: Pool, ids: seq<CodeId>): (r: seq<string>)
    ensures |r| == |ids|
  {
    seq(|ids|, j requires 0 <= j < |ids| => Value(pool, ids[j]))
  }

  /** What the recording write stores on each line. */
  function LineCodes(pool: Pool, e: Entry): (r: seq<Option<seq<string>>>)
    ensures |r| == |e.items|
  {
    seq(|e.items|, i requires 0 <= i < |e.items| =>
      if ItemMode(e.items[i]) == Inventory && i < |e.lines| then Some(Values(pool, e.lines[i])) else None)
  }

  function NoLines(n: nat): (r: seq<seq<CodeId>>)
    ensures |r| == n && forall i :: 0 <= i < n ==> r[i] == []
  {
    seq(n, _ => [])
  }

  function NoCodes(n: nat): (r: seq<Option<seq<string>>>)
    ensures |r| == n && forall i :: 0 <= i < n ==> r[i] == None
  {
    seq(n, _ => None)
  }

  // ----- the steps of a placement -----

  function At(s: State, o: OrderId, e: Entry): State
    requires o < |s.entries|
  {
    s.(entries := s.entries[o := e])
  }

  /** The thread gives up its codes: from here they are only to be freed. */
  function Abandon(s: State, o: OrderId): State
    requires o < |s.entries|
  {
    var e := s.entries[o];
    At(s, o, e.(phase := Freeing, lines := NoLines(|e.items|)))
    .(slots := map id | id in s.slots && s.slots[id].order != o :: s.slots[id])
  }

  function BeginStep(s: State, o: OrderId): State
    requires o < |s.entries|
  {
    var e := s.entries[o];
    if e.phase != Waiting then s
    else
      match Route(e.items)
      case InventoryPath => At(s, o, e.(phase := Claiming(0)))
      case MixedPath => At(s, o, e.(phase := Claiming(0)))
      case BridgePath => At(s, o, e.(phase := if e.card == Recharge then Claiming(0) else Parking))
      case _ => At(s, o, e.(phase := Codeless))
  }

  function Take(s: State, o: OrderId, i: nat, id: CodeId): State
    requires o < |s.entries| && i < |s.entries[o].lines| && id in s.pool
  {
    var e := s.entries[o];
    At(s, o, e.(lines := e.lines[i := e.lines[i] + [id]]))
    .(pool := s.pool[id := Stamp(s.pool[id], o, "")], slots := s.slots[id := Slot(o, i, |e.lines[i]|)])
  }

  /** One atomic claim, the move to the next line, or the discovery of a shortage. */
  function ClaimStep(s: State, o: OrderId, id: CodeId): State
    requires o < |s.entries|
  {
    var e := s.entries[o];
    match e.phase
    case Claiming(i) =>
      if i >= |e.items| || i >= |e.lines| then At(s, o, e.(phase := if Route(e.items) == BridgePath then Parking else Recording))
      else if |e.lines[i]| >= Wanted(e, i) then At(s, o, e.(phase := Claiming(i + 1)))
      else if AvailableIds(s.pool, e.items[i].product) == {} then Abandon(s, o)
      else if id in AvailableIds(s.pool, e.items[i].product) then Take(s, o, i, id)
      else s
    case _ => s
  }

  /** The guarded write of codes with the new status; refused, it strands the codes. */
  function RecordStep(s: State, o: OrderId): State
    requires o < |s.entries|
  {
    var e := s.entries[o];
    if e.phase != Recording then s
    else if e.status == Pending || e.status == Processing then
      At(s, o, e.(phase := Recorded, recorded := LineCodes(s.pool, e),
                  status := if Route(e.items) == InventoryPath then Completed else Processing))
    else At(s, o, e.(phase := Stranded))
  }

  function ParkStep(s: State, o: OrderId): State
    requires o < |s.entries|
  {
    var e := s.entries[o];
    if e.phase != Parking then s
    else At(s, o, e.(status := Processing, phase := if e.card == NoBridge then Codeless else Sending))
  }

  function CardOf(e: Entry): Option<CodeId> {
    if e.card == Recharge && |e.lines| > 0 && |e.lines[0]| > 0 then Some(e.lines[0][0]) else None
  }

  function NewCommand(s: State, o: OrderId, provider: string, now: Time): Tracked
    requires o < |s.entries|
  {
    var card := CardOf(s.entries[o]);
    Tracked(B.Command(Some(o), provider, if card.Some? then B.RechargeLine else B.TransferCredit,
                      if card.Some? then Value(s.pool, card.value) else "", B.Queued, 0, None, None, None, "", now), card)
  }

  function SendStep(s: State, o: OrderId, stored: bool, provider: string, now: Time): State
    requires o < |s.entries|
  {
    var e := s.entries[o];
    if e.phase != Sending then s
    else if !stored then Abandon(s, o)
    else At(s, o, e.(phase := Sent(|s.commands|))).(commands := s.commands + [NewCommand(s, o, provider, now)])
  }

  function FreeStep(s: State, o: OrderId, id: CodeId): State
    requires o < |s.entries|
  {
    if s.entries[o].phase == Freeing && id in s.pool && OwnedBy(s.pool[id], o)
    then s.(pool := s.pool[id := Unstamp(s.pool[id])]) else s
  }

  function FreedStep(s: State, o: OrderId): State
    requires o < |s.entries|
  {
    if s.entries[o].phase == Freeing && OwnedIds(s.pool, o) == {} then At(s, o, s.entries[o].(phase := Closing)) else s
  }

  function FailStep(s: State, o: OrderId): State
    requires o < |s.entries|
  {
    if s.entries[o].phase == Closing then At(s, o, s.entries[o].(phase := Closed, status := Failed)) else s
  }

  // ----- everyone else -----

  /** Other actors move orders, but none back to pending. */
  function MoveStep(s: State, o: OrderId, to: Status): State
    requires o < |s.entries|
  {
    var e := s.entries[o];
    if to == Pending then s else At(s, o, e.(status := to))
  }

  function Rewrite(c: B.Command, w: CommandWrite): (r: Option<B.Command>)
    ensures r.Some? ==> B.SameErrand(c, r.value)
  {
    match w
    case DoLease(device, providers, expires) => B.Lease(c, device, providers, expires)
    case DoComplete(device, report) => B.CompleteLeased(c, device, report)
    case DoExhaust(now, max) => B.FailExhausted(c, now, max)
    case DoRequeue(now) => B.Requeue(c, now)
    case DoTimeOut(cutoff) => B.FailStale(c, cutoff)
    case DoRetry => B.Retry(c)
    case DoCancel => B.Cancel(c)
  }

  function PoolStep(pool: Pool, a: PoolEdit): Pool {
    match a
    case Insert(id, product, value, pin) =>
      if id !in pool && ValueFree(pool, product, value, {}) then pool[id := Row(product, value, pin, Available, None, "")] else pool
    case Edit(id, value, pin) =>
      if id in pool && pool[id].status == Available && ValueFree(pool, pool[id].product, value, {id})
      then pool[id := pool[id].(value := value, pin := pin)] else pool
    case Expire(id) =>
      if id in pool && pool[id].status == Available then pool[id := pool[id].(status := Expired)] else pool
    case Delete(id) =>
      if id in pool && pool[id].status != Delivered then pool - {id} else pool
  }

  function OrderStep(s: State, o: OrderId, step: Step): State
    requires o < |s.entries|
  {
    match step
    case Begin => BeginStep(s, o)
    case Claim(id) => ClaimStep(s, o, id)
    case Record => RecordStep(s, o)
    case Park => ParkStep(s, o)
    case Send(stored, provider, now) => SendStep(s, o, stored, provider, now)
    case Free(id) => FreeStep(s, o, id)
    case Freed => FreedStep(s, o)
    case Fail => FailStep(s, o)
    case Move(to) => MoveStep(s, o, to)
  }

  function Next(s: State, a: Action): State {
    match a
    case Place(items, card) =>
      s.(entries := s.entries + [Entry(items, card, Pending, NoCodes(|items|), Waiting, NoLines(|items|))])
    case Advance(o, step) => if o < |s.entries| then OrderStep(s, o, step) else s
    case Change(edit) => s.(pool := PoolStep(s.pool, edit))
    case Device(k, write) =>
      if k < |s.commands| && Rewrite(s.commands[k].cmd, write).Some?
      then s.(commands := s.commands[k := s.commands[k].(cmd := Rewrite(s.commands[k].cmd, write).value)]) else s
  }

  function Run(acts: seq<Action>): State {
    if acts == [] then Empty else Next(Run(acts[..|acts| - 1]), acts[|acts| - 1])
  }
}
