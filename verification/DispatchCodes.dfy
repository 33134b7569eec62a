/**
 The two machines meet, step by step: every step of an order's dispatch in the
 pool's protocol is zero, one or two steps of the same thread in the settlement
 machine, and the codes that machine counts as held are the rows the order owns.
 */
module DispatchCodes {
  import opened Basics
  import opened Orders
  import opened Codes
  import S = Settlement
  import P = PoolProtocol
  import PoolSafety

  /** The dispatching thread of the settlement machine stands where the order's placement stands in the pool's. */
  predicate Matches(e: P.Entry, owned: nat, c: S.Cell, i: nat) {
    && i < |c.jobs| && c.doc.items == e.items && c.doc.status == e.status
    && var j := c.jobs[i];
       match e.phase
       case Waiting => j.Dispatching? && c.held == 0
       case Claiming(_) => j.Dispatching? && c.held == 0
       case Recording => j.Delivering? && c.held == owned
       case Recorded => (j.Rewarding? || (j.Returned? && j.verdict == S.Success)) && c.held == owned
       case Stranded => j.Returned? && j.verdict != S.Success && c.held == owned
       case Parking => j.Parking? && (j.sends <==> e.card != P.NoBridge) && c.held == owned
       case Sending => j.Sending? && c.held == owned
       case Sent(_) => j.Returned? && j.verdict == S.Success && c.held == owned
       case Freeing => j.Releasing? || j.Recalling?
       case Closing => (j.Reversing? || j.Failing? || j.Repaying? || j.Withdrawing?) && c.held == owned == 0
       case Closed => j.Returned? && j.verdict != S.Success && c.held == owned == 0
       case Codeless => c.held == owned == 0 && (j.Returned? || !Claims(e.items))
  }

  /** The paths whose dispatch may claim codes. */
  predicate Claims(items: seq<Item>) {
    PoolSafety.CodeCart(items) || Route(items) == BridgePath
  }

  /**
   What the calls of the thread come out as, when its order takes this step in the
   pool's protocol; `back` is how the money's way back comes out.
   */
  function Outcomes(s: P.State, o: OrderId, step: P.Step, j: S.Job, back: S.Outcome): (outs: seq<S.Outcome>)
    requires o < |s.entries|
    ensures |outs| <= 2
  {
    var e := s.entries[o];
    match step
    case Begin => BeginOutcomes(e)
    case Claim(_) => ClaimOutcomes(s, o)
    case Record => if e.phase == P.Recording then [S.Good] else []
    case Park => if e.phase == P.Parking then [S.Good] else []
    case Send(stored, _, _) => if e.phase == P.Sending then [if stored then S.Good else S.Bad] else []
    case Free(_) => []
    case Freed => if e.phase == P.Freeing && OwnedIds(s.pool, o) == {} then [S.Good] else []
    case Fail => FailOutcomes(e, j, back)
    case Move(_) => []
  }

  function BeginOutcomes(e: P.Entry): (outs: seq<S.Outcome>)
    ensures |outs| <= 1
  {
    if e.phase == P.Waiting && Route(e.items) == BridgePath && e.card != P.Recharge
    then [if e.card == P.NoBridge then S.Parks else S.Claimed(0)] else []
  }

  function FailOutcomes(e: P.Entry, j: S.Job, back: S.Outcome): (outs: seq<S.Outcome>)
    ensures |outs| <= 2
  {
    if e.phase != P.Closing then [] else if j.Reversing? || j.Repaying? then [back, S.Good] else [S.Good]
  }

  function ClaimOutcomes(s: P.State, o: OrderId): (outs: seq<S.Outcome>)
    requires o < |s.entries|
    ensures |outs| <= 1
  {
    var e := s.entries[o];
    match e.phase
    case Claiming(k) =>
      if k >= |e.items| || k >= |e.lines| then [S.Claimed(Owned(s, o))]
      else if |e.lines[k]| < P.Wanted(e, k) && AvailableIds(s.pool, e.items[k].product) == {} then [S.Short(0)]
      else []
    case _ => []
  }

  /** Thread i takes steps with these outcomes. */
  function Steps(c: S.Cell, i: nat, outs: seq<S.Outcome>, f: Fulfillment): S.Cell {
    if outs == [] then c else S.Apply(Steps(c, i, outs[..|outs| - 1], f), S.Step(i, outs[|outs| - 1], f))
  }

  lemma OneStep(c: S.Cell, i: nat, out: S.Outcome, f: Fulfillment)
    ensures Steps(c, i, [out], f) == S.Apply(c, S.Step(i, out, f))
  {
    assert [out][..0] == [];
  }

  function Owned(s: P.State, o: OrderId): nat {
    |OwnedIds(s.pool, o)|
  }

  // ----- the settlement steps -----

  lemma ClaimsDone(c: S.Cell, i: nat, n: nat, f: Fulfillment)
    requires i < |c.jobs| && c.jobs[i].Dispatching? && PoolSafety.CodeCart(c.doc.items)
    ensures var d := S.Apply(c, S.Step(i, S.Claimed(n), f));
            |d.jobs| == |c.jobs| && d.jobs[i].Delivering? && d.held == c.held + n && d.doc == c.doc
  {
  }

  lemma CardClaimed(c: S.Cell, i: nat, n: nat, f: Fulfillment)
    requires i < |c.jobs| && c.jobs[i].Dispatching? && Route(c.doc.items) == BridgePath
    ensures var d := S.Apply(c, S.Step(i, S.Claimed(n), f));
            |d.jobs| == |c.jobs| && d.jobs[i].Parking? && d.jobs[i].sends && d.held == c.held + n && d.doc == c.doc
  {
  }

  lemma BridgeOff(c: S.Cell, i: nat, f: Fulfillment)
    requires i < |c.jobs| && c.jobs[i].Dispatching? && Route(c.doc.items) == BridgePath
    ensures var d := S.Apply(c, S.Step(i, S.Parks, f));
            |d.jobs| == |c.jobs| && d.jobs[i].Parking? && !d.jobs[i].sends && d.held == c.held && d.doc == c.doc
  {
  }

  lemma FellShort(c: S.Cell, i: nat, n: nat, f: Fulfillment)
    requires i < |c.jobs| && c.jobs[i].Dispatching?
    requires PoolSafety.CodeCart(c.doc.items) || Route(c.doc.items) == BridgePath
    ensures var d := S.Apply(c, S.Step(i, S.Short(n), f));
            |d.jobs| == |c.jobs| && d.jobs[i].Releasing? && d.doc == c.doc
  {
  }

  lemma Recorded(c: S.Cell, i: nat, f: Fulfillment)
    requires i < |c.jobs| && c.jobs[i].Delivering?
    ensures var d := S.Apply(c, S.Step(i, S.Good, f));
            var open := c.doc.status == Pending || c.doc.status == Processing;
            && |d.jobs| == |c.jobs| && d.held == c.held && d.doc.items == c.doc.items
            && d.doc.status == (if !open then c.doc.status else if Route(c.doc.items) == InventoryPath then Completed else Processing)
            && (if open then d.jobs[i].Rewarding? || (d.jobs[i].Returned? && d.jobs[i].verdict == S.Success)
                else d.jobs[i].Returned? && d.jobs[i].verdict != S.Success)
  {
    assert S.Apply(c, S.Step(i, S.Good, f)) == S.Deliver(c, i, c.jobs[i].paid, f);
  }

  lemma ParkedStep(c: S.Cell, i: nat, f: Fulfillment)
    requires i < |c.jobs| && c.jobs[i].Parking?
    ensures var d := S.Apply(c, S.Step(i, S.Good, f));
            && |d.jobs| == |c.jobs| && d.held == c.held && d.doc.items == c.doc.items && d.doc.status == Processing
            && (if c.jobs[i].sends then d.jobs[i].Sending? else d.jobs[i].Returned?)
  {
  }

  lemma SentStep(c: S.Cell, i: nat, stored: bool, f: Fulfillment)
    requires i < |c.jobs| && c.jobs[i].Sending?
    ensures var d := S.Apply(c, S.Step(i, if stored then S.Good else S.Bad, f));
            && |d.jobs| == |c.jobs| && d.held == c.held && d.doc == c.doc
            && (if stored then d.jobs[i].Returned? && d.jobs[i].verdict == S.Success else d.jobs[i].Releasing? || d.jobs[i].Recalling?)
  {
  }

  lemma FreedStep(c: S.Cell, i: nat, f: Fulfillment)
    requires i < |c.jobs| && (c.jobs[i].Releasing? || c.jobs[i].Recalling?)
    ensures var d := S.Apply(c, S.Step(i, S.Good, f));
            && |d.jobs| == |c.jobs| && d.held == 0 && d.doc == c.doc
            && (d.jobs[i].Reversing? || d.jobs[i].Failing? || d.jobs[i].Repaying? || d.jobs[i].Withdrawing?)
  {
  }

  lemma ReversedStep(c: S.Cell, i: nat, back: S.Outcome, f: Fulfillment)
    requires i < |c.jobs| && (c.jobs[i].Reversing? || c.jobs[i].Repaying?)
    ensures var d := S.Apply(c, S.Step(i, back, f));
            |d.jobs| == |c.jobs| && d.held == c.held && d.doc == c.doc && (d.jobs[i].Failing? || d.jobs[i].Withdrawing?)
  {
  }

  lemma FailedStep(c: S.Cell, i: nat, f: Fulfillment)
    requires i < |c.jobs| && (c.jobs[i].Failing? || c.jobs[i].Withdrawing?)
    ensures var d := S.Apply(c, S.Step(i, S.Good, f));
            && |d.jobs| == |c.jobs| && d.held == c.held && d.doc.items == c.doc.items && d.doc.status == Failed
            && d.jobs[i].Returned? && d.jobs[i].verdict != S.Success
  {
  }

  // ----- each step of the pool's protocol -----

  /** The order in the pool's protocol and the thread's cell match. */
  predicate Meet(s: P.State, o: OrderId, c: S.Cell, i: nat) {
    o < |s.entries| && Matches(s.entries[o], Owned(s, o), c, i)
  }

  lemma BeginOff(s: P.State, o: OrderId, c: S.Cell, i: nat, f: Fulfillment)
    requires Meet(s, o, c, i) && s.entries[o].phase == P.Waiting && Owned(s, o) == 0
    requires Route(s.entries[o].items) == BridgePath && s.entries[o].card == P.NoBridge
    ensures Meet(P.BeginStep(s, o), o, S.Apply(c, S.Step(i, S.Parks, f)), i)
  {
    BridgeOff(c, i, f);
  }

  lemma BeginTransfer(s: P.State, o: OrderId, c: S.Cell, i: nat, f: Fulfillment)
    requires Meet(s, o, c, i) && s.entries[o].phase == P.Waiting && Owned(s, o) == 0
    requires Route(s.entries[o].items) == BridgePath && s.entries[o].card == P.Transfer
    ensures Meet(P.BeginStep(s, o), o, S.Apply(c, S.Step(i, S.Claimed(0), f)), i)
  {
    CardClaimed(c, i, 0, f);
  }

  lemma BeginMatches(s: P.State, o: OrderId, c: S.Cell, i: nat, f: Fulfillment)
    requires Meet(s, o, c, i)
    requires s.entries[o].phase == P.Waiting ==> Owned(s, o) == 0
    ensures Meet(P.BeginStep(s, o), o, Steps(c, i, BeginOutcomes(s.entries[o]), f), i)
  {
    var e := s.entries[o];
    if e.phase == P.Waiting && Route(e.items) == BridgePath && e.card != P.Recharge {
      if e.card == P.NoBridge {
        BeginOff(s, o, c, i, f);
        OneStep(c, i, S.Parks, f);
      } else {
        BeginTransfer(s, o, c, i, f);
        OneStep(c, i, S.Claimed(0), f);
      }
    }
  }

  lemma ClaimEnds(s: P.State, o: OrderId, id: CodeId, c: S.Cell, i: nat, f: Fulfillment)
    requires Meet(s, o, c, i) && PoolSafety.EntryOk(s, o)
    requires s.entries[o].phase.Claiming? && s.entries[o].phase.line >= |s.entries[o].items|
    ensures Meet(P.ClaimStep(s, o, id), o, S.Apply(c, S.Step(i, S.Claimed(Owned(s, o)), f)), i)
  {
    if Route(s.entries[o].items) == BridgePath {
      CardClaimed(c, i, Owned(s, o), f);
    } else {
      ClaimsDone(c, i, Owned(s, o), f);
    }
  }

  lemma ClaimFails(s: P.State, o: OrderId, id: CodeId, c: S.Cell, i: nat, f: Fulfillment)
    requires Meet(s, o, c, i) && PoolSafety.EntryOk(s, o)
    requires var e := s.entries[o];
             && e.phase.Claiming? && e.phase.line < |e.items| && e.phase.line < |e.lines|
             && |e.lines[e.phase.line]| < P.Wanted(e, e.phase.line) && AvailableIds(s.pool, e.items[e.phase.line].product) == {}
    ensures Meet(P.ClaimStep(s, o, id), o, S.Apply(c, S.Step(i, S.Short(0), f)), i)
  {
    FellShort(c, i, 0, f);
  }

  lemma ClaimMatches(s: P.State, o: OrderId, id: CodeId, c: S.Cell, i: nat, f: Fulfillment)
    requires Meet(s, o, c, i) && PoolSafety.EntryOk(s, o)
    ensures Meet(P.ClaimStep(s, o, id), o, Steps(c, i, ClaimOutcomes(s, o), f), i)
  {
    var e := s.entries[o];
    match e.phase
    case Claiming(k) =>
      if k >= |e.items| {
        ClaimEnds(s, o, id, c, i, f);
        OneStep(c, i, S.Claimed(Owned(s, o)), f);
      } else if |e.lines[k]| < P.Wanted(e, k) && AvailableIds(s.pool, e.items[k].product) == {} {
        ClaimFails(s, o, id, c, i, f);
        OneStep(c, i, S.Short(0), f);
      }
    case _ =>
  }

  lemma RecordMatches(s: P.State, o: OrderId, c: S.Cell, i: nat, f: Fulfillment)
    requires Meet(s, o, c, i)
    ensures Meet(P.RecordStep(s, o), o, Steps(c, i, if s.entries[o].phase == P.Recording then [S.Good] else [], f), i)
  {
    if s.entries[o].phase == P.Recording {
      Recorded(c, i, f);
      OneStep(c, i, S.Good, f);
    }
  }

  lemma ParkMatches(s: P.State, o: OrderId, c: S.Cell, i: nat, f: Fulfillment)
    requires Meet(s, o, c, i)
    requires s.entries[o].phase == P.Parking && s.entries[o].card == P.NoBridge ==> Owned(s, o) == 0
    ensures Meet(P.ParkStep(s, o), o, Steps(c, i, if s.entries[o].phase == P.Parking then [S.Good] else [], f), i)
  {
    if s.entries[o].phase == P.Parking {
      ParkedStep(c, i, f);
      OneStep(c, i, S.Good, f);
    }
  }

  lemma SendMatches(s: P.State, o: OrderId, stored: bool, provider: string, now: Time, c: S.Cell, i: nat, f: Fulfillment)
    requires Meet(s, o, c, i)
    ensures Meet(P.SendStep(s, o, stored, provider, now), o, Steps(c, i, if s.entries[o].phase == P.Sending then [if stored then S.Good else S.Bad] else [], f), i)
  {
    if s.entries[o].phase == P.Sending {
      SentStep(c, i, stored, f);
      OneStep(c, i, if stored then S.Good else S.Bad, f);
    }
  }

  /** Only an order that is giving its codes back frees rows, and then the settlement machine counts none yet. */
  lemma FreeMatches(s: P.State, o: OrderId, id: CodeId, c: S.Cell, i: nat)
    requires Meet(s, o, c, i)
    ensures Meet(P.FreeStep(s, o, id), o, c, i)
  {
  }

  lemma FreedMatches(s: P.State, o: OrderId, c: S.Cell, i: nat, f: Fulfillment)
    requires Meet(s, o, c, i)
    ensures Meet(P.FreedStep(s, o), o, Steps(c, i, if s.entries[o].phase == P.Freeing && OwnedIds(s.pool, o) == {} then [S.Good] else [], f), i)
  {
    if s.entries[o].phase == P.Freeing && OwnedIds(s.pool, o) == {} {
      FreedStep(c, i, f);
      OneStep(c, i, S.Good, f);
    }
  }

  lemma Unwinds(s: P.State, o: OrderId, c: S.Cell, i: nat, back: S.Outcome, f: Fulfillment)
    requires Meet(s, o, c, i) && s.entries[o].phase == P.Closing && (c.jobs[i].Reversing? || c.jobs[i].Repaying?)
    ensures var d := S.Apply(c, S.Step(i, back, f));
            Meet(s, o, d, i) && (d.jobs[i].Failing? || d.jobs[i].Withdrawing?)
  {
    ReversedStep(c, i, back, f);
  }

  lemma Closes(s: P.State, o: OrderId, c: S.Cell, i: nat, f: Fulfillment)
    requires Meet(s, o, c, i) && s.entries[o].phase == P.Closing && (c.jobs[i].Failing? || c.jobs[i].Withdrawing?)
    ensures Meet(P.FailStep(s, o), o, S.Apply(c, S.Step(i, S.Good, f)), i)
  {
    FailedStep(c, i, f);
  }

  lemma FailMatches(s: P.State, o: OrderId, c: S.Cell, i: nat, back: S.Outcome, f: Fulfillment)
    requires Meet(s, o, c, i)
    ensures Meet(P.FailStep(s, o), o, Steps(c, i, FailOutcomes(s.entries[o], c.jobs[i], back), f), i)
  {
    if s.entries[o].phase == P.Closing {
      if c.jobs[i].Reversing? || c.jobs[i].Repaying? {
        Unwinds(s, o, c, i, back, f);
        Closes(s, o, S.Apply(c, S.Step(i, back, f)), i, f);
        assert [back, S.Good][..1] == [back];
        OneStep(c, i, back, f);
      } else {
        Closes(s, o, c, i, f);
        OneStep(c, i, S.Good, f);
      }
    }
  }

  /** Before its claims, and while an order the bridge was not told of is being parked, it owns no rows. */
  ghost predicate NoRowsYet(s: P.State, o: OrderId)
    requires o < |s.entries|
  {
    var e := s.entries[o];
    e.phase == P.Waiting || (e.phase == P.Parking && e.card == P.NoBridge) ==> Owned(s, o) == 0
  }

  /** After a step of the pool's protocol, the thread having made its calls, the two still match. */
  predicate StillMatches(s: P.State, o: OrderId, step: P.Step, c: S.Cell, i: nat, back: S.Outcome, f: Fulfillment)
    requires o < |s.entries| && i < |c.jobs|
  {
    Meet(P.OrderStep(s, o, step), o, Steps(c, i, Outcomes(s, o, step, c.jobs[i], back), f), i)
  }

  lemma StartMatches(s: P.State, o: OrderId, step: P.Step, c: S.Cell, i: nat, back: S.Outcome, f: Fulfillment)
    requires step.Begin? || step.Claim? || step.Record? || step.Park?
    requires o < |s.entries| && PoolSafety.EntryOk(s, o) && NoRowsYet(s, o) && Matches(s.entries[o], Owned(s, o), c, i)
    ensures StillMatches(s, o, step, c, i, back, f)
  {
    match step
    case Begin => BeginMatches(s, o, c, i, f);
    case Claim(id) => ClaimMatches(s, o, id, c, i, f);
    case Record => RecordMatches(s, o, c, i, f);
    case Park => ParkMatches(s, o, c, i, f);
  }

  lemma EndMatches(s: P.State, o: OrderId, step: P.Step, c: S.Cell, i: nat, back: S.Outcome, f: Fulfillment)
    requires step.Send? || step.Free? || step.Freed? || step.Fail?
    requires o < |s.entries| && Matches(s.entries[o], Owned(s, o), c, i)
    ensures StillMatches(s, o, step, c, i, back, f)
  {
    match step
    case Send(stored, provider, now) => SendMatches(s, o, stored, provider, now, c, i, f);
    case Free(id) => FreeMatches(s, o, id, c, i);
    case Freed => FreedMatches(s, o, c, i, f);
    case Fail => FailMatches(s, o, c, i, back, f);
  }

  lemma ReachedNoRowsYet(acts: seq<P.Action>, o: OrderId)
    requires o < |P.Run(acts).entries|
    ensures NoRowsYet(P.Run(acts), o)
  {
    var e := P.Run(acts).entries[o];
    if e.phase == P.Waiting {
      PoolSafety.CodesHeld(acts, o);
    } else if e.phase == P.Parking && e.card == P.NoBridge {
      PoolSafety.CodesHeld(acts, o);
      PoolSafety.RunKeeps(acts);
      assert PoolSafety.EntryOk(P.Run(acts), o);
      NoCardWanted(e, |e.items|);
    }
  }

  /**
   From every reachable state of the pool's protocol, whatever everyone else did:
   a step of an order's placement is matched by steps of its thread in the
   settlement machine, so that before and after it the codes counted as held are
   exactly the rows owned.
   */
  lemma DispatchHoldsRows(acts: seq<P.Action>, o: OrderId, step: P.Step, c: S.Cell, i: nat, back: S.Outcome, f: Fulfillment)
    requires var s := P.Run(acts);
             o < |s.entries| && Matches(s.entries[o], Owned(s, o), c, i) && !step.Move?
    ensures P.Run(acts + [P.Advance(o, step)]) == P.OrderStep(P.Run(acts), o, step)
    ensures StillMatches(P.Run(acts), o, step, c, i, back, f)
  {
    PoolSafety.RunKeeps(acts);
    ReachedNoRowsYet(acts, o);
    assert (acts + [P.Advance(o, step)])[..|acts|] == acts;
    if step.Begin? || step.Claim? || step.Record? || step.Park? {
      StartMatches(P.Run(acts), o, step, c, i, back, f);
    } else {
      EndMatches(P.Run(acts), o, step, c, i, back, f);
    }
  }

  /** Nobody else can part them: other orders, pool edits, devices and operators leave the rows of this order as counted. */
  lemma OthersKeepRows(acts: seq<P.Action>, o: OrderId, a: P.Action, c: S.Cell, i: nat)
    requires o < |P.Run(acts).entries| && Matches(P.Run(acts).entries[o], Owned(P.Run(acts), o), c, i)
    requires a.Advance? ==> a.o != o
    ensures var s' := P.Run(acts + [a]);
            o < |s'.entries| && Matches(s'.entries[o], Owned(s', o), c, i)
  {
    assert (acts + [a])[..|acts|] == acts;
    EntryStays(P.Run(acts), o, a);
    var e := P.Run(acts).entries[o];
    if PoolSafety.ClaimsThrough(e) {
      PoolSafety.CodesHeld(acts, o);
      PoolSafety.CodesHeld(acts + [a], o);
    }
  }

  lemma EntryStays(s: P.State, o: OrderId, a: P.Action)
    requires o < |s.entries| && (a.Advance? ==> a.o != o)
    ensures o < |P.Next(s, a).entries| && P.Next(s, a).entries[o] == s.entries[o]
  {
  }

  lemma {:induction false} NoCardWanted(e: P.Entry, n: nat)
    requires n <= |e.items| && Route(e.items) == BridgePath
    ensures e.card == P.NoBridge ==> PoolSafety.WantedBy(e, n) == 0
    decreases n
  {
    if n > 0 {
      NoCardWanted(e, n - 1);
    }
  }
}
