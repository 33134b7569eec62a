/** What every interleaving of claims, releases, edits, moves and devices keeps. */
module PoolSafety {
  import opened Basics
  import opened Orders
  import opened Codes
  import B = Bridge
  import opened PoolProtocol

  ghost predicate NoneOwned(pool: Pool, o: OrderId) {
    forall id :: id in pool ==> !OwnedBy(pool[id], o)
  }

  /** A delivered row serves the slot of its owner, unless its owner is giving its codes back. */
  predicate RowOk(s: State, id: CodeId)
    requires id in s.pool
  {
    var r := s.pool[id];
    if r.status == Delivered then
      && r.owner.Some? && r.owner.value < |s.entries|
      && (id in s.slots || s.entries[r.owner.value].phase == Freeing)
    else id !in s.slots
  }

  /** A slot's row is delivered to its order, and is the one the thread remembers there. */
  predicate SlotOk(s: State, id: CodeId)
    requires id in s.slots
  {
    var t := s.slots[id];
    && id in s.pool && OwnedBy(s.pool[id], t.order) && t.order < |s.entries|
    && var e := s.entries[t.order];
       && t.line < |e.lines| && t.line < |e.items| && t.unit < |e.lines[t.line]|
       && e.lines[t.line][t.unit] == id && s.pool[id].product == e.items[t.line].product
  }

  ghost predicate Slotted(slots: map<CodeId, Slot>, o: OrderId, lines: seq<seq<CodeId>>) {
    forall i, j :: 0 <= i < |lines| && 0 <= j < |lines[i]| ==>
      lines[i][j] in slots && slots[lines[i][j]] == Slot(o, i, j)
  }

  ghost predicate Full(e: Entry, n: nat) {
    n <= |e.lines| && n <= |e.items| && forall i :: 0 <= i < n ==> |e.lines[i]| == Wanted(e, i)
  }

  ghost predicate Blank(e: Entry, from: nat) {
    forall i :: from <= i < |e.lines| ==> e.lines[i] == []
  }

  predicate CodeCart(items: seq<Item>) {
    Route(items) == InventoryPath || Route(items) == MixedPath
  }

  /** How far an order's codes are, by the phase of its thread. */
  ghost predicate Stage(pool: Pool, o: OrderId, e: Entry) {
    match e.phase
    case Claiming(k) =>
      && k <= |e.items| && Full(e, k) && Blank(e, k + 1) && (k < |e.items| && k < |e.lines| ==> |e.lines[k]| <= Wanted(e, k))
      && (CodeCart(e.items) || (Route(e.items) == BridgePath && e.card == Recharge))
    case Recording => Full(e, |e.items|) && CodeCart(e.items)
    case Stranded => Full(e, |e.items|) && CodeCart(e.items)
    case Recorded => Full(e, |e.items|) && CodeCart(e.items) && e.recorded == LineCodes(pool, e)
    case Parking => Full(e, |e.items|) && Route(e.items) == BridgePath
    case Sending => Full(e, |e.items|) && Route(e.items) == BridgePath && e.status != Pending
    case Sent(_) => Full(e, |e.items|) && Route(e.items) == BridgePath && e.status != Pending
    case Closing => Blank(e, 0) && NoneOwned(pool, o)
    case Closed => Blank(e, 0) && NoneOwned(pool, o) && e.status != Pending
    case _ => Blank(e, 0)
  }

  ghost predicate EntryOk(s: State, o: OrderId)
    requires o < |s.entries|
  {
    var e := s.entries[o];
    |e.lines| == |e.items| && Slotted(s.slots, o, e.lines) && Stage(s.pool, o, e)
  }

  /** A command serves an order that sent exactly it, with that order's own card. */
  predicate CommandOk(s: State, k: nat)
    requires k < |s.commands|
  {
    var t := s.commands[k];
    && t.cmd.order.Some? && t.cmd.order.value < |s.entries|
    && var e := s.entries[t.cmd.order.value];
       e.phase == Sent(k) && t.card == CardOf(e) && (t.card.Some? ==> t.cmd.card == Value(s.pool, t.card.value))
  }

  ghost predicate Inv(s: State) {
    && PoolOk(s.pool)
    && (forall id :: id in s.pool ==> RowOk(s, id))
    && (forall id :: id in s.slots ==> SlotOk(s, id))
    && (forall o :: 0 <= o < |s.entries| ==> EntryOk(s, o))
    && (forall k :: 0 <= k < |s.commands| ==> CommandOk(s, k))
  }

  /** Every row that serves a slot kept its value and its owner. */
  ghost predicate Steady(s: State, pool: Pool) {
    forall id :: id in s.slots ==> id in pool && id in s.pool && pool[id] == s.pool[id]
  }

  lemma SameLineCodes(pool: Pool, pool': Pool, e: Entry)
    requires forall i, j :: 0 <= i < |e.lines| && 0 <= j < |e.lines[i]| ==> Value(pool', e.lines[i][j]) == Value(pool, e.lines[i][j])
    ensures LineCodes(pool', e) == LineCodes(pool, e)
  {
    forall i | 0 <= i < |e.items| && i < |e.lines|
      ensures Values(pool', e.lines[i]) == Values(pool, e.lines[i])
    {
    }
  }

  /** Stages survive a pool change that leaves slotted rows alone and delivers nothing new to the order. */
  lemma StageSteady(s: State, pool: Pool, o: OrderId)
    requires o < |s.entries| && EntryOk(s, o) && Steady(s, pool)
    requires NoneOwned(s.pool, o) ==> NoneOwned(pool, o)
    ensures Stage(pool, o, s.entries[o])
  {
    var e := s.entries[o];
    forall i, j | 0 <= i < |e.lines| && 0 <= j < |e.lines[i]|
      ensures Value(pool, e.lines[i][j]) == Value(s.pool, e.lines[i][j])
    {
      assert e.lines[i][j] in s.slots;
    }
    SameLineCodes(s.pool, pool, e);
  }

  // ----- steps that change one order's document or thread only -----

  lemma EntryStepKeeps(s: State, o: OrderId, e: Entry)
    requires Inv(s) && o < |s.entries|
    requires var b := s.entries[o];
             && e.items == b.items && e.lines == b.lines && e.card == b.card
             && (b.phase == Freeing ==> e.phase == Freeing || NoneOwned(s.pool, o))
             && (b.phase.Sent? ==> e.phase == b.phase)
    requires Stage(s.pool, o, e)
    ensures Inv(At(s, o, e))
  {
    var t := At(s, o, e);
    assert EntryOk(s, o);
    forall id | id in t.pool
      ensures RowOk(t, id)
    {
      assert RowOk(s, id);
    }
    forall id | id in t.slots
      ensures SlotOk(t, id)
    {
      assert SlotOk(s, id);
    }
    forall i | 0 <= i < |t.entries|
      ensures EntryOk(t, i)
    {
      assert EntryOk(s, i);
    }
    forall k | 0 <= k < |t.commands|
      ensures CommandOk(t, k)
    {
      assert CommandOk(s, k);
    }
  }

  lemma NoneOwnedIsEmpty(pool: Pool, o: OrderId)
    ensures OwnedIds(pool, o) == {} <==> NoneOwned(pool, o)
  {
    if OwnedIds(pool, o) == {} {
      forall id | id in pool
        ensures !OwnedBy(pool[id], o)
      {
        assert id !in OwnedIds(pool, o);
      }
    }
  }

  lemma BeginKeeps(s: State, o: OrderId)
    requires Inv(s) && o < |s.entries|
    ensures Inv(BeginStep(s, o))
  {
    assert EntryOk(s, o);
    var t := BeginStep(s, o);
    if s.entries[o].phase == Waiting {
      EntryStepKeeps(s, o, t.entries[o]);
    }
  }

  lemma RecordKeeps(s: State, o: OrderId)
    requires Inv(s) && o < |s.entries|
    ensures Inv(RecordStep(s, o))
  {
    assert EntryOk(s, o);
    var t := RecordStep(s, o);
    if s.entries[o].phase == Recording {
      assert LineCodes(s.pool, t.entries[o]) == LineCodes(s.pool, s.entries[o]);
      EntryStepKeeps(s, o, t.entries[o]);
    }
  }

  lemma ParkKeeps(s: State, o: OrderId)
    requires Inv(s) && o < |s.entries|
    ensures Inv(ParkStep(s, o))
  {
    assert EntryOk(s, o);
    var t := ParkStep(s, o);
    if s.entries[o].phase == Parking {
      EntryStepKeeps(s, o, t.entries[o]);
    }
  }

  lemma FreedKeeps(s: State, o: OrderId)
    requires Inv(s) && o < |s.entries|
    ensures Inv(FreedStep(s, o)) && Inv(FailStep(s, o))
  {
    assert EntryOk(s, o);
    NoneOwnedIsEmpty(s.pool, o);
    if FreedStep(s, o) != s {
      EntryStepKeeps(s, o, FreedStep(s, o).entries[o]);
    }
    if FailStep(s, o) != s {
      EntryStepKeeps(s, o, FailStep(s, o).entries[o]);
    }
  }

  lemma MoveKeeps(s: State, o: OrderId, to: Status)
    requires Inv(s) && o < |s.entries|
    ensures Inv(MoveStep(s, o, to))
  {
    assert EntryOk(s, o);
    if to != Pending {
      var e := s.entries[o].(status := to);
      SameCodes(s.pool, s.entries[o], e);
      EntryStepKeeps(s, o, e);
    }
  }

  lemma SameCodes(pool: Pool, e: Entry, f: Entry)
    requires e.items == f.items && e.lines == f.lines
    ensures LineCodes(pool, e) == LineCodes(pool, f)
  {
  }

  // ----- steps that change the pool only -----

  /** A pool change that leaves slotted rows alone, and delivers nothing to an order that holds nothing. */
  lemma PoolStepKeeps(s: State, pool: Pool)
    requires Inv(s) && PoolOk(pool) && Steady(s, pool)
    requires forall id :: id in pool ==> RowOk(s.(pool := pool), id)
    requires forall o :: 0 <= o < |s.entries| && NoneOwned(s.pool, o) ==> NoneOwned(pool, o)
    ensures Inv(s.(pool := pool))
  {
    var t := s.(pool := pool);
    forall id | id in t.slots
      ensures SlotOk(t, id)
    {
      assert SlotOk(s, id);
    }
    forall o | 0 <= o < |t.entries|
      ensures EntryOk(t, o)
    {
      assert EntryOk(s, o);
      StageSteady(s, pool, o);
    }
    forall k | 0 <= k < |t.commands|
      ensures CommandOk(t, k)
    {
      assert CommandOk(s, k);
      var c := s.commands[k];
      assert EntryOk(s, c.cmd.order.value);
      if c.card.Some? {
        assert c.card.value in s.slots;
      }
    }
  }

  /** Operators' edits only touch rows no slot serves. */
  lemma EditKeeps(s: State, edit: PoolEdit)
    requires Inv(s)
    ensures Inv(s.(pool := PoolStep(s.pool, edit)))
  {
    var pool := PoolStep(s.pool, edit);
    assert forall id :: id in s.slots ==> SlotOk(s, id);
    forall id | id in pool
      ensures RowOk(s.(pool := pool), id)
    {
      if id in s.pool {
        assert RowOk(s, id);
      } else {
        assert id !in s.slots;
      }
    }
    EditPoolOk(s.pool, edit);
    PoolStepKeeps(s, pool);
  }

  lemma EditPoolOk(pool: Pool, edit: PoolEdit)
    requires PoolOk(pool)
    ensures PoolOk(PoolStep(pool, edit))
  {
  }

  lemma FreeKeeps(s: State, o: OrderId, id: CodeId)
    requires Inv(s) && o < |s.entries|
    ensures Inv(FreeStep(s, o, id))
  {
    if FreeStep(s, o, id) != s {
      var pool := FreeStep(s, o, id).pool;
      forall i | i in s.slots
        ensures i != id
      {
        assert SlotOk(s, i) && EntryOk(s, o);
      }
      forall i | i in pool
        ensures RowOk(s.(pool := pool), i)
      {
        assert RowOk(s, i);
      }
      PoolStepKeeps(s, pool);
    }
  }

  // ----- claiming a row -----

  lemma TakeKeeps(s: State, o: OrderId, i: nat, id: CodeId)
    requires Inv(s) && o < |s.entries| && s.entries[o].phase == Claiming(i) && i < |s.entries[o].items|
    requires i < |s.entries[o].lines| && |s.entries[o].lines[i]| < Wanted(s.entries[o], i)
    requires id in AvailableIds(s.pool, s.entries[o].items[i].product)
    ensures Inv(Take(s, o, i, id))
  {
    var t := Take(s, o, i, id);
    assert EntryOk(s, o) && RowOk(s, id);
    TakeRows(s, o, i, id);
    forall j | 0 <= j < |t.entries|
      ensures EntryOk(t, j)
    {
      if j == o {
        TakeOwnEntry(s, o, i, id);
      } else {
        TakeOtherEntry(s, o, i, id, j);
      }
    }
    forall k | 0 <= k < |t.commands|
      ensures CommandOk(t, k)
    {
      assert CommandOk(s, k);
      var c := s.commands[k];
      assert EntryOk(s, c.cmd.order.value);
    }
  }

  lemma TakeRows(s: State, o: OrderId, i: nat, id: CodeId)
    requires Inv(s) && o < |s.entries| && i < |s.entries[o].items| && i < |s.entries[o].lines|
    requires id in AvailableIds(s.pool, s.entries[o].items[i].product) && s.entries[o].phase == Claiming(i)
    ensures var t := Take(s, o, i, id);
            && PoolOk(t.pool)
            && (forall r :: r in t.pool ==> RowOk(t, r))
            && (forall r :: r in t.slots ==> SlotOk(t, r))
  {
    var t := Take(s, o, i, id);
    forall r | r in t.pool
      ensures RowOk(t, r)
    {
      assert RowOk(s, r);
    }
    assert RowOk(s, id);
    forall r | r in t.slots
      ensures SlotOk(t, r)
    {
      if r != id {
        assert SlotOk(s, r);
      }
    }
  }

  lemma TakeOwnEntry(s: State, o: OrderId, i: nat, id: CodeId)
    requires Inv(s) && o < |s.entries| && s.entries[o].phase == Claiming(i) && i < |s.entries[o].items|
    requires i < |s.entries[o].lines| && |s.entries[o].lines[i]| < Wanted(s.entries[o], i)
    requires id in AvailableIds(s.pool, s.entries[o].items[i].product)
    ensures EntryOk(Take(s, o, i, id), o)
  {
    var t := Take(s, o, i, id);
    assert EntryOk(s, o) && RowOk(s, id);
    var b, e := s.entries[o], t.entries[o];
    forall x, y | 0 <= x < |e.lines| && 0 <= y < |e.lines[x]|
      ensures e.lines[x][y] in t.slots && t.slots[e.lines[x][y]] == Slot(o, x, y)
    {
      if x != i || y < |b.lines[i]| {
        assert e.lines[x][y] == b.lines[x][y];
      }
    }
    forall x | 0 <= x < i
      ensures |e.lines[x]| == Wanted(e, x)
    {
      assert |b.lines[x]| == Wanted(b, x);
    }
  }

  lemma TakeOtherEntry(s: State, o: OrderId, i: nat, id: CodeId, j: nat)
    requires Inv(s) && o < |s.entries| && i < |s.entries[o].items| && i < |s.entries[o].lines|
    requires id in AvailableIds(s.pool, s.entries[o].items[i].product) && j < |s.entries| && j != o
    ensures EntryOk(Take(s, o, i, id), j)
  {
    var t := Take(s, o, i, id);
    assert EntryOk(s, j) && RowOk(s, id);
    StageSteady(s, t.pool, j);
  }

  // ----- giving up -----

  lemma AbandonKeeps(s: State, o: OrderId)
    requires Inv(s) && o < |s.entries| && !s.entries[o].phase.Sent?
    ensures Inv(Abandon(s, o))
  {
    var t := Abandon(s, o);
    assert EntryOk(s, o);
    forall id | id in t.pool
      ensures RowOk(t, id)
    {
      assert RowOk(s, id);
      if id in s.slots {
        assert SlotOk(s, id);
      }
    }
    forall id | id in t.slots
      ensures SlotOk(t, id)
    {
      assert SlotOk(s, id);
    }
    forall j | 0 <= j < |t.entries|
      ensures EntryOk(t, j)
    {
      assert EntryOk(s, j);
    }
    forall k | 0 <= k < |t.commands|
      ensures CommandOk(t, k)
    {
      assert CommandOk(s, k);
    }
  }

  lemma ClaimKeeps(s: State, o: OrderId, id: CodeId)
    requires Inv(s) && o < |s.entries|
    ensures Inv(ClaimStep(s, o, id))
  {
    var e := s.entries[o];
    assert EntryOk(s, o);
    match e.phase
    case Claiming(i) =>
      if i >= |e.items| || |e.lines[i]| >= Wanted(e, i) {
        NextLine(s, o, i);
        EntryStepKeeps(s, o, ClaimStep(s, o, id).entries[o]);
      } else if AvailableIds(s.pool, e.items[i].product) == {} {
        AbandonKeeps(s, o);
      } else if id in AvailableIds(s.pool, e.items[i].product) {
        TakeKeeps(s, o, i, id);
      }
    case _ =>
  }

  lemma NextLine(s: State, o: OrderId, i: nat)
    requires o < |s.entries| && EntryOk(s, o) && s.entries[o].phase == Claiming(i)
    requires var e := s.entries[o]; i < |e.items| ==> |e.lines[i]| >= Wanted(e, i)
    ensures var e := s.entries[o];
            && (i < |e.items| ==> Stage(s.pool, o, e.(phase := Claiming(i + 1))))
            && (i >= |e.items| ==> Stage(s.pool, o, e.(phase := if Route(e.items) == BridgePath then Parking else Recording)))
  {
    var e := s.entries[o];
    var f := e.(phase := Claiming(i + 1));
    forall x | 0 <= x < |e.items|
      ensures Wanted(f, x) == Wanted(e, x) && Wanted(e.(phase := Parking), x) == Wanted(e, x) && Wanted(e.(phase := Recording), x) == Wanted(e, x)
    {
    }
  }

  // ----- commands -----

  lemma SendKeeps(s: State, o: OrderId, stored: bool, provider: string, now: Time)
    requires Inv(s) && o < |s.entries|
    ensures Inv(SendStep(s, o, stored, provider, now))
  {
    var e := s.entries[o];
    if e.phase == Sending {
      if !stored {
        AbandonKeeps(s, o);
      } else {
        var t := SendStep(s, o, stored, provider, now);
        assert EntryOk(s, o);
        EntryStepKeeps(s, o, t.entries[o]);
        forall k | 0 <= k < |t.commands|
          ensures CommandOk(t, k)
        {
          if k < |s.commands| {
            assert CommandOk(At(s, o, t.entries[o]), k);
          }
        }
        CommandsAside(At(s, o, t.entries[o]), t.commands);
      }
    }
  }

  /** Only the commands' own invariant depends on the commands. */
  lemma CommandsAside(s: State, commands: seq<Tracked>)
    requires Inv(s)
    requires forall k :: 0 <= k < |commands| ==> CommandOk(s.(commands := commands), k)
    ensures Inv(s.(commands := commands))
  {
    var t := s.(commands := commands);
    forall id | id in t.pool
      ensures RowOk(t, id)
    {
      assert RowOk(s, id);
    }
    forall id | id in t.slots
      ensures SlotOk(t, id)
    {
      assert SlotOk(s, id);
    }
    forall j | 0 <= j < |t.entries|
      ensures EntryOk(t, j)
    {
      assert EntryOk(s, j);
    }
  }

  lemma DeviceKeeps(s: State, k: nat, write: CommandWrite)
    requires Inv(s)
    ensures Inv(Next(s, Device(k, write)))
  {
    var t := Next(s, Device(k, write));
    forall j | 0 <= j < |t.commands|
      ensures CommandOk(t, j)
    {
      assert CommandOk(s, j);
    }
    CommandsAside(s, t.commands);
  }

  // ----- new orders -----

  lemma PlaceKeeps(s: State, items: seq<Item>, card: CardUse)
    requires Inv(s)
    ensures Inv(Next(s, Place(items, card)))
  {
    var t := Next(s, Place(items, card));
    forall id | id in t.pool
      ensures RowOk(t, id)
    {
      assert RowOk(s, id);
    }
    forall id | id in t.slots
      ensures SlotOk(t, id)
    {
      assert SlotOk(s, id);
    }
    forall j | 0 <= j < |t.entries|
      ensures EntryOk(t, j)
    {
      if j < |s.entries| {
        assert EntryOk(s, j);
      }
    }
    forall k | 0 <= k < |t.commands|
      ensures CommandOk(t, k)
    {
      assert CommandOk(s, k);
    }
  }

  lemma NextKeeps(s: State, a: Action)
    requires Inv(s)
    ensures Inv(Next(s, a))
  {
    match a
    case Place(items, card) => PlaceKeeps(s, items, card);
    case Change(edit) => EditKeeps(s, edit);
    case Device(k, write) => DeviceKeeps(s, k, write);
    case Advance(o, step) =>
      if o < |s.entries| {
        match step
        case Begin => BeginKeeps(s, o);
        case Claim(id) => ClaimKeeps(s, o, id);
        case Record => RecordKeeps(s, o);
        case Park => ParkKeeps(s, o);
        case Send(stored, provider, now) => SendKeeps(s, o, stored, provider, now);
        case Free(id) => FreeKeeps(s, o, id);
        case Freed => FreedKeeps(s, o);
        case Fail => FreedKeeps(s, o);
        case Move(to) => MoveKeeps(s, o, to);
      }
  }

  lemma {:induction false} RunKeeps(acts: seq<Action>)
    ensures Inv(Run(acts))
    decreases |acts|
  {
    if acts != [] {
      RunKeeps(acts[..|acts| - 1]);
      NextKeeps(Run(acts[..|acts| - 1]), acts[|acts| - 1]);
    }
  }

  // ----- the guarantees -----

  /**
   A recorded line holds exactly as many codes as it asked for, each the value
   of a delivered row of its product stamped with its order.
   */
  lemma RecordedLineIsWhole(acts: seq<Action>, o: OrderId, i: nat)
    requires o < |Run(acts).entries| && Run(acts).entries[o].phase == Recorded && i < |Run(acts).entries[o].items|
    ensures var s := Run(acts);
            var e := s.entries[o];
            && |e.recorded| == |e.items| && i < |e.lines|
            && (e.recorded[i].Some? <==> ItemMode(e.items[i]) == Inventory)
            && (e.recorded[i].Some? ==> |e.recorded[i].value| == e.items[i].qty == |e.lines[i]|)
            && (forall j :: 0 <= j < |e.lines[i]| && e.recorded[i].Some? ==>
                  && e.lines[i][j] in s.pool && OwnedBy(s.pool[e.lines[i][j]], o)
                  && s.pool[e.lines[i][j]].product == e.items[i].product
                  && e.recorded[i].value[j] == s.pool[e.lines[i][j]].value)
  {
    RunKeeps(acts);
    var s := Run(acts);
    var e := s.entries[o];
    assert EntryOk(s, o);
    assert |e.lines[i]| == Wanted(e, i);
    forall j | 0 <= j < |e.lines[i]|
      ensures SlotOk(s, e.lines[i][j]) && s.slots[e.lines[i][j]] == Slot(o, i, j)
    {
    }
  }

  /** No row serves two units, of one order or of two; and two units of one product never have the same value. */
  lemma NoDoubleSell(acts: seq<Action>, a: Slot, b: Slot)
    requires a != b && Serves(Run(acts), a) && Serves(Run(acts), b)
    ensures var s := Run(acts);
            var x, y := CodeAt(s, a), CodeAt(s, b);
            && x != y && x in s.pool && y in s.pool
            && (s.pool[x].product == s.pool[y].product ==> s.pool[x].value != s.pool[y].value)
  {
    RunKeeps(acts);
    var s := Run(acts);
    assert EntryOk(s, a.order) && EntryOk(s, b.order);
    var x, y := CodeAt(s, a), CodeAt(s, b);
    assert x in s.slots && s.slots[x] == a && y in s.slots && s.slots[y] == b;
    assert SlotOk(s, x) && SlotOk(s, y);
  }

  /** A unit of a line that has its code. */
  predicate Serves(s: State, t: Slot) {
    t.order < |s.entries| && t.line < |s.entries[t.order].lines| && t.unit < |s.entries[t.order].lines[t.line]|
  }

  function CodeAt(s: State, t: Slot): CodeId
    requires Serves(s, t)
  {
    s.entries[t.order].lines[t.line][t.unit]
  }

  /** An order whose claims fell short, or whose command was refused, ends failed or moved on, holding nothing. */
  lemma ShortageReturnsAll(acts: seq<Action>, o: OrderId)
    requires o < |Run(acts).entries| && Run(acts).entries[o].phase in {Closing, Closed}
    ensures OwnedIds(Run(acts).pool, o) == {}
    ensures Run(acts).entries[o].phase == Closed ==> Run(acts).entries[o].status != Pending
  {
    RunKeeps(acts);
    assert EntryOk(Run(acts), o);
    NoneOwnedIsEmpty(Run(acts).pool, o);
  }

  /** Delivered rows all belong: to a unit of their owner, or to an owner on its way to giving them back. */
  lemma NoOrphanedCodes(acts: seq<Action>, id: CodeId)
    requires id in Run(acts).pool && Run(acts).pool[id].status == Delivered
    ensures var s := Run(acts);
            && s.pool[id].owner.Some? && s.pool[id].owner.value < |s.entries|
            && (s.entries[s.pool[id].owner.value].phase == Freeing
                || exists t :: Serves(s, t) && t.order == s.pool[id].owner.value && CodeAt(s, t) == id)
  {
    RunKeeps(acts);
    var s := Run(acts);
    assert RowOk(s, id);
    if id in s.slots {
      assert SlotOk(s, id);
      assert Serves(s, s.slots[id]) && CodeAt(s, s.slots[id]) == id;
    }
  }

  /**
   Every command serves an order that has left pending; a recharge's card is the
   value of a delivered row that order owns; and no two commands share an order,
   let alone a card, whatever retries and cancels do.
   */
  lemma CommandsAreOwned(acts: seq<Action>, k: nat)
    requires k < |Run(acts).commands|
    ensures var s := Run(acts);
            var t := s.commands[k];
            && t.cmd.order.Some? && t.cmd.order.value < |s.entries|
            && var e := s.entries[t.cmd.order.value];
               && e.status != Pending
               && (e.card == Recharge <==> t.card.Some?)
               && (t.card.Some? ==> t.card.value in s.pool && OwnedBy(s.pool[t.card.value], t.cmd.order.value)
                                    && t.cmd.card == s.pool[t.card.value].value)
  {
    RunKeeps(acts);
    var s := Run(acts);
    assert CommandOk(s, k);
    var o := s.commands[k].cmd.order.value;
    assert EntryOk(s, o);
    var e := s.entries[o];
    if e.card == Recharge {
      assert |e.lines[0]| == Wanted(e, 0) == 1;
      assert SlotOk(s, e.lines[0][0]);
    }
  }

  lemma NoSharedCards(acts: seq<Action>, k: nat, l: nat)
    requires k < l < |Run(acts).commands|
    ensures var s := Run(acts);
            && s.commands[k].cmd.order != s.commands[l].cmd.order
            && (s.commands[k].card.Some? ==> s.commands[k].card != s.commands[l].card)
  {
    RunKeeps(acts);
    var s := Run(acts);
    assert CommandOk(s, k) && CommandOk(s, l);
    CommandsAreOwned(acts, k);
    CommandsAreOwned(acts, l);
  }

  /** Once recorded, an order's codes are its own for good: no later step changes them or puts them back on sale. */
  lemma {:induction false} RecordedForGood(acts: seq<Action>, more: seq<Action>, o: OrderId)
    requires o < |Run(acts).entries| && Run(acts).entries[o].phase == Recorded
    ensures o < |Run(acts + more).entries| && Run(acts + more).entries[o].phase == Recorded
    ensures Run(acts + more).entries[o].recorded == Run(acts).entries[o].recorded
    ensures Run(acts + more).entries[o].lines == Run(acts).entries[o].lines
    decreases |more|
  {
    if more == [] {
      assert acts + more == acts;
    } else {
      var last := |more| - 1;
      RunSplits(acts, more);
      RecordedForGood(acts, more[..last], o);
      RecordedStays(Run(acts + more[..last]), more[last], o);
    }
  }

  lemma RunSplits(acts: seq<Action>, more: seq<Action>)
    requires more != []
    ensures Run(acts + more) == Next(Run(acts + more[..|more| - 1]), more[|more| - 1])
  {
    assert (acts + more)[..|acts + more| - 1] == acts + more[..|more| - 1];
  }

  lemma RecordedStays(s: State, a: Action, o: OrderId)
    requires o < |s.entries| && s.entries[o].phase == Recorded
    ensures o < |Next(s, a).entries| && Next(s, a).entries[o] == s.entries[o].(status := Next(s, a).entries[o].status)
  {
    if a.Advance? && a.o < |s.entries| {
      AdvanceTouchesOne(s, a.o, a.step);
      if a.o == o {
        RecordedAdvance(s, o, a.step);
      }
    }
  }

  lemma AdvanceTouchesOne(s: State, o: OrderId, step: Step)
    requires o < |s.entries|
    ensures |OrderStep(s, o, step).entries| == |s.entries|
    ensures forall j :: 0 <= j < |s.entries| && j != o ==> OrderStep(s, o, step).entries[j] == s.entries[j]
  {
  }

  lemma RecordedAdvance(s: State, o: OrderId, step: Step)
    requires o < |s.entries| && s.entries[o].phase == Recorded
    ensures |OrderStep(s, o, step).entries| == |s.entries|
    ensures OrderStep(s, o, step).entries[o] == s.entries[o].(status := OrderStep(s, o, step).entries[o].status)
  {
  }

  // ----- how many codes an order holds -----

  /** Every code the lines remember, line after line. */
  function Flat(lines: seq<seq<CodeId>>): seq<CodeId> {
    if lines == [] then [] else Flat(lines[..|lines| - 1]) + lines[|lines| - 1]
  }

  /** Codes the first n lines want. */
  function WantedBy(e: Entry, n: nat): nat
    requires n <= |e.items|
  {
    if n == 0 then 0 else WantedBy(e, n - 1) + Wanted(e, n - 1)
  }

  /** Codes an order holds once its claims are through: all it wants, or none where it never claimed or gave them back. */
  function HeldAfterClaims(e: Entry): nat {
    match e.phase
    case Waiting => 0
    case Codeless => 0
    case Closing => 0
    case Closed => 0
    case _ => WantedBy(e, |e.items|)
  }

  predicate ClaimsThrough(e: Entry) {
    !e.phase.Claiming? && !e.phase.Freeing?
  }

  /** A code in the flat list is in one of the first n lines. */
  lemma {:induction false} InFlat(lines: seq<seq<CodeId>>, id: CodeId)
    ensures id in Flat(lines) <==> exists i, j :: 0 <= i < |lines| && 0 <= j < |lines[i]| && lines[i][j] == id
  {
    if lines != [] {
      var last := |lines| - 1;
      InFlat(lines[..last], id);
      if i, j :| 0 <= i < |lines| && 0 <= j < |lines[i]| && lines[i][j] == id {
        if i < last {
          assert lines[..last][i][j] == id;
        }
      }
    }
  }

  lemma NotAgain(slots: map<CodeId, Slot>, o: OrderId, lines: seq<seq<CodeId>>, id: CodeId)
    requires Slotted(slots, o, lines) && lines != [] && id in Flat(lines[..|lines| - 1])
    ensures id !in lines[|lines| - 1]
  {
    var front := lines[..|lines| - 1];
    InFlat(front, id);
    var i, j :| 0 <= i < |front| && 0 <= j < |front[i]| && front[i][j] == id;
    assert slots[lines[i][j]] == Slot(o, i, j);
  }

  /** Slots name each code once, so the flat list has no repetition. */
  lemma {:induction false} FlatDistinct(slots: map<CodeId, Slot>, o: OrderId, lines: seq<seq<CodeId>>)
    requires Slotted(slots, o, lines)
    ensures |Elements(Flat(lines))| == |Flat(lines)|
  {
    if lines != [] {
      var last := |lines| - 1;
      var front, line := Flat(lines[..last]), lines[last];
      assert Slotted(slots, o, lines[..last]);
      FlatDistinct(slots, o, lines[..last]);
      LineDistinct(slots, o, lines, last, |line|);
      assert line[..|line|] == line;
      forall id | id in Elements(front)
        ensures id !in Elements(line)
      {
        NotAgain(slots, o, lines, id);
      }
      assert Elements(front + line) == Elements(front) + Elements(line);
    }
  }

  lemma {:induction false} LineDistinct(slots: map<CodeId, Slot>, o: OrderId, lines: seq<seq<CodeId>>, i: nat, n: nat)
    requires Slotted(slots, o, lines) && i < |lines| && n <= |lines[i]|
    ensures |Elements(lines[i][..n])| == n
    decreases n
  {
    if n > 0 {
      LineDistinct(slots, o, lines, i, n - 1);
      assert lines[i][..n] == lines[i][..n - 1] + [lines[i][n - 1]];
      ElementsGrow(lines[i][..n - 1], lines[i][n - 1]);
      assert slots[lines[i][n - 1]] == Slot(o, i, n - 1);
    }
  }

  /** An order that is not giving its codes back owns exactly the rows its lines remember. */
  lemma OwnedAreFlat(s: State, o: OrderId)
    requires Inv(s) && o < |s.entries| && s.entries[o].phase != Freeing
    ensures OwnedIds(s.pool, o) == Elements(Flat(s.entries[o].lines))
  {
    var lines := s.entries[o].lines;
    assert EntryOk(s, o);
    forall id
      ensures id in OwnedIds(s.pool, o) <==> id in Flat(lines)
    {
      InFlat(lines, id);
      if id in OwnedIds(s.pool, o) {
        assert RowOk(s, id) && SlotOk(s, id);
        assert lines[s.slots[id].line][s.slots[id].unit] == id;
      }
      if id in Flat(lines) {
        var i, j :| 0 <= i < |lines| && 0 <= j < |lines[i]| && lines[i][j] == id;
        assert SlotOk(s, lines[i][j]);
      }
    }
  }

  lemma {:induction false} FlatLength(e: Entry, n: nat)
    requires n <= |e.items| && n <= |e.lines|
    ensures Full(e, n) ==> |Flat(e.lines[..n])| == WantedBy(e, n)
    ensures Blank(e, 0) ==> Flat(e.lines[..n]) == []
    decreases n
  {
    if n > 0 {
      assert e.lines[..n][..n - 1] == e.lines[..n - 1];
      FlatLength(e, n - 1);
    }
  }

  /**
   The rows an order owns once its claims are through: as many as it wants, from
   the claim to the last record of it, and none at all before it claimed, on a
   path without codes, and from the moment a compensation is about to fail it.
   */
  lemma CodesHeld(acts: seq<Action>, o: OrderId)
    requires o < |Run(acts).entries| && ClaimsThrough(Run(acts).entries[o])
    ensures |OwnedIds(Run(acts).pool, o)| == HeldAfterClaims(Run(acts).entries[o])
  {
    RunKeeps(acts);
    var s := Run(acts);
    var e := s.entries[o];
    assert EntryOk(s, o);
    OwnedAreFlat(s, o);
    FlatDistinct(s.slots, o, e.lines);
    FlatLength(e, |e.items|);
    assert e.lines[..|e.items|] == e.lines;
    StageFillsOrBlanks(s.pool, o, e);
  }

  lemma StageFillsOrBlanks(pool: Pool, o: OrderId, e: Entry)
    requires Stage(pool, o, e) && ClaimsThrough(e)
    ensures if e.phase.Waiting? || e.phase.Codeless? || e.phase.Closing? || e.phase.Closed? then Blank(e, 0) else Full(e, |e.items|)
  {
  }
}
