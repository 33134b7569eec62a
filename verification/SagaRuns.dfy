/**
 The placement saga, one operation at a time, is a run of the settlement machine:
 left alone, a dispatching thread whose calls come out as the outside world
 answered ends exactly where the service leaves the order, its money, its awards
 and its codes.
 */
module SagaRuns {
  import opened Basics
  import opened Orders
  import opened Codes
  import opened Database
  import opened Placement
  import opened Outcomes
  import S = Settlement
  import T = SettlementTheorems
  import A = AdminService
  import P = SupplierService

  /** Thread i makes its calls, with these outcomes. */
  function Play(c: S.Cell, i: nat, outs: seq<S.Outcome>, f: Fulfillment): S.Cell
    decreases |outs|
  {
    if outs == [] then c else Play(S.Apply(c, S.Step(i, outs[0], f)), i, outs[1..], f)
  }

  function StepsOf(i: nat, outs: seq<S.Outcome>, f: Fulfillment): seq<S.Action> {
    seq(|outs|, k requires 0 <= k < |outs| => S.Step(i, outs[k], f))
  }

  lemma StepsSplit(acts: seq<S.Action>, i: nat, outs: seq<S.Outcome>, f: Fulfillment)
    requires outs != []
    ensures acts + StepsOf(i, outs, f) == acts + [S.Step(i, outs[0], f)] + StepsOf(i, outs[1..], f)
  {
    assert StepsOf(i, outs, f) == [S.Step(i, outs[0], f)] + StepsOf(i, outs[1..], f);
  }

  /** Making calls is running the machine: from any state of any run, played calls are more steps of that run. */
  lemma {:induction false} PlayIsRun(start: S.Cell, acts: seq<S.Action>, i: nat, outs: seq<S.Outcome>, f: Fulfillment)
    ensures S.Run(start, acts + StepsOf(i, outs, f)) == Play(S.Run(start, acts), i, outs, f)
    decreases |outs|
  {
    if outs == [] {
      assert acts + StepsOf(i, outs, f) == acts;
    } else {
      var a := S.Step(i, outs[0], f);
      T.RunExtends(start, acts, a);
      PlayIsRun(start, acts + [a], i, outs[1..], f);
      StepsSplit(acts, i, outs, f);
    }
  }

  // ----- how the calls come out -----

  /** Codes back, money back where there is any, status failed. */
  function TakingBack(charged: bool): seq<S.Outcome> {
    if charged then [S.Good, S.Good, S.Good] else [S.Good, S.Good]
  }

  /** The calls of a dispatch that ends well or not, holding n codes when it does. */
  function Calls(items: seq<Item>, charged: bool, env: Env, ok: bool, n: nat, cardless: bool): seq<S.Outcome> {
    if AllLines(items, Api) then
      (match env.answer
       case Done(_, _) => [S.Succeeds, S.Good, S.Good]
       case HardError => [S.Rejects] + TakingBack(charged)
       case _ => [S.Parks, S.Good])
    else if AllLines(items, BridgeDevice) then
      if !env.bridgeOn || env.spec.None? then [S.Parks, S.Good]
      else if ok then [S.Claimed(n), S.Good, S.Good]
      else if cardless then [S.Short(0)] + TakingBack(charged)
      else [S.Claimed(n), S.Good, S.Bad] + TakingBack(charged)
    else if AllLines(items, Inventory) || CodesAndManual(items) then
      if !ok then [S.Short(0)] + TakingBack(charged)
      else if AllLines(items, Inventory) then [S.Claimed(n), S.Good, S.Good] else [S.Claimed(n), S.Good]
    else [S.Parks, S.Good]
  }

  // ----- one call at a time -----

  /** Since c, thread i came to this job, and the order, its codes, credits and awards to this. */
  predicate Reached(c: S.Cell, d: S.Cell, i: nat, j: S.Job, to: Status, held: nat, credits: nat, awards: nat) {
    && i < |c.jobs| && d.jobs == c.jobs[i := j] && d.doc.items == c.doc.items && d.doc.status == to
    && d.held == held && d.credits == credits && d.awards == awards && d.charges == c.charges
  }

  lemma Parks(c: S.Cell, d: S.Cell, i: nat, charged: bool, paid: bool, sends: bool, st: Status, h: nat, f: Fulfillment)
    requires Reached(c, d, i, S.Parking(charged, paid, sends), st, h, c.credits, c.awards)
    ensures Reached(c, S.Apply(d, S.Step(i, S.Good, f)), i, if sends then S.Sending(charged, paid) else S.Returned(S.Success, paid),
                    Processing, h, c.credits, c.awards)
  {
  }

  lemma Sends(c: S.Cell, d: S.Cell, i: nat, charged: bool, paid: bool, h: nat, stored: bool, f: Fulfillment)
    requires Reached(c, d, i, S.Sending(charged, paid), Processing, h, c.credits, c.awards)
    ensures Reached(c, S.Apply(d, S.Step(i, if stored then S.Good else S.Bad, f)), i,
                    if stored then S.Returned(S.Success, paid) else if paid then S.Releasing(charged, true) else S.Recalling(charged),
                    Processing, h, c.credits, c.awards)
  {
  }

  lemma Delivers(c: S.Cell, d: S.Cell, i: nat, paid: bool, st: Status, h: nat, f: Fulfillment)
    requires Reached(c, d, i, S.Delivering(paid), st, h, c.credits, c.awards) && (st == Pending || st == Processing)
    ensures var whole := Route(c.doc.items) == InventoryPath;
            Reached(c, S.Apply(d, S.Step(i, S.Good, f)), i, if whole then S.Rewarding(paid) else S.Returned(S.Success, paid),
                    if whole then Completed else Processing, h, c.credits, c.awards)
  {
    assert S.Apply(d, S.Step(i, S.Good, f)) == S.Deliver(d, i, paid, f);
  }

  lemma Finishes(c: S.Cell, d: S.Cell, i: nat, paid: bool, st: Status, f: Fulfillment)
    requires Reached(c, d, i, S.Finishing(paid), st, c.held, c.credits, c.awards)
    ensures Reached(c, S.Apply(d, S.Step(i, S.Good, f)), i, S.Rewarding(paid), Completed, c.held, c.credits, c.awards)
  {
  }

  lemma Rewards(c: S.Cell, d: S.Cell, i: nat, paid: bool, h: nat, f: Fulfillment)
    requires Reached(c, d, i, S.Rewarding(paid), Completed, h, c.credits, c.awards)
    ensures Reached(c, S.Apply(d, S.Step(i, S.Good, f)), i, S.Returned(S.Success, paid), Completed, h, c.credits, c.awards + 1)
  {
  }

  lemma Releases(c: S.Cell, d: S.Cell, i: nat, charged: bool, paid: bool, st: Status, h: nat, f: Fulfillment)
    requires Reached(c, d, i, S.Releasing(charged, paid), st, h, c.credits, c.awards)
    ensures Reached(c, S.Apply(d, S.Step(i, S.Good, f)), i, if charged then S.Reversing else S.Failing(paid), st, 0, c.credits, c.awards)
  {
  }

  lemma Reverses(c: S.Cell, d: S.Cell, i: nat, st: Status, f: Fulfillment)
    requires Reached(c, d, i, S.Reversing, st, 0, c.credits, c.awards)
    ensures Reached(c, S.Apply(d, S.Step(i, S.Good, f)), i, S.Failing(false), st, 0, c.credits + 1, c.awards)
  {
  }

  lemma FailsNow(c: S.Cell, d: S.Cell, i: nat, paid: bool, st: Status, cr: nat, f: Fulfillment)
    requires Reached(c, d, i, S.Failing(paid), st, 0, cr, c.awards)
    ensures Reached(c, S.Apply(d, S.Step(i, S.Good, f)), i, S.Returned(if paid then S.NotPayable else S.Failure, paid), Failed, 0, cr, c.awards)
  {
  }

  lemma Recalls(c: S.Cell, d: S.Cell, i: nat, charged: bool, h: nat, f: Fulfillment)
    requires Reached(c, d, i, S.Recalling(charged), Processing, h, c.credits, c.awards)
    ensures Reached(c, S.Apply(d, S.Step(i, S.Good, f)), i, if charged then S.Repaying else S.Withdrawing, Processing, 0, c.credits, c.awards)
  {
  }

  lemma Repays(c: S.Cell, d: S.Cell, i: nat, f: Fulfillment)
    requires Reached(c, d, i, S.Repaying, Processing, 0, c.credits, c.awards)
    ensures Reached(c, S.Apply(d, S.Step(i, S.Good, f)), i, S.Withdrawing, Processing, 0, c.credits + 1, c.awards)
  {
  }

  lemma Withdraws(c: S.Cell, d: S.Cell, i: nat, cr: nat, f: Fulfillment)
    requires Reached(c, d, i, S.Withdrawing, Processing, 0, cr, c.awards)
    ensures Reached(c, S.Apply(d, S.Step(i, S.Good, f)), i, S.Returned(S.Failure, false), Failed, 0, cr, c.awards)
  {
  }

  lemma PlayOne(c: S.Cell, i: nat, a: S.Outcome, rest: seq<S.Outcome>, f: Fulfillment)
    ensures Play(c, i, [a] + rest, f) == Play(S.Apply(c, S.Step(i, a, f)), i, rest, f)
  {
    assert ([a] + rest)[1..] == rest;
  }

  lemma PlayTwo(c: S.Cell, i: nat, a: S.Outcome, b: S.Outcome, f: Fulfillment)
    ensures Play(c, i, [a, b], f) == S.Apply(S.Apply(c, S.Step(i, a, f)), S.Step(i, b, f))
  {
    PlayOne(c, i, a, [b], f);
    PlayOne(S.Apply(c, S.Step(i, a, f)), i, b, [], f);
    assert [a] + [b] == [a, b] && [b] + [] == [b];
  }

  lemma PlayThree(c: S.Cell, i: nat, a: S.Outcome, b: S.Outcome, e: S.Outcome, f: Fulfillment)
    ensures Play(c, i, [a, b, e], f) == S.Apply(S.Apply(S.Apply(c, S.Step(i, a, f)), S.Step(i, b, f)), S.Step(i, e, f))
  {
    PlayOne(c, i, a, [b, e], f);
    PlayTwo(S.Apply(c, S.Step(i, a, f)), i, b, e, f);
    assert [a] + [b, e] == [a, b, e];
  }

  // ----- ends -----

  /** The thread has answered; everything else is as the service leaves it. */
  predicate Ended(c: S.Cell, d: S.Cell, i: nat, ok: bool, charged: bool, paid: bool, to: Status, held: nat) {
    Reached(c, d, i, S.Returned(if ok then S.Success else if paid then S.NotPayable else S.Failure, paid), to, held,
            c.credits + (if !ok && charged then 1 else 0), c.awards + (if to == Completed then 1 else 0))
  }

  lemma CompensationEnds(c: S.Cell, d: S.Cell, i: nat, charged: bool, paid: bool, st: Status, h: nat, f: Fulfillment)
    requires Reached(c, d, i, S.Releasing(charged, paid), st, h, c.credits, c.awards) && (charged ==> !paid)
    ensures Ended(c, Play(d, i, TakingBack(charged), f), i, false, charged, paid, Failed, 0)
  {
    var d1 := S.Apply(d, S.Step(i, S.Good, f));
    Releases(c, d, i, charged, paid, st, h, f);
    if charged {
      PlayThree(d, i, S.Good, S.Good, S.Good, f);
      Reverses(c, d1, i, st, f);
      FailsNow(c, S.Apply(d1, S.Step(i, S.Good, f)), i, false, st, c.credits + 1, f);
    } else {
      PlayTwo(d, i, S.Good, S.Good, f);
      FailsNow(c, d1, i, paid, st, c.credits, f);
    }
  }

  lemma RecallEnds(c: S.Cell, d: S.Cell, i: nat, charged: bool, h: nat, f: Fulfillment)
    requires Reached(c, d, i, S.Recalling(charged), Processing, h, c.credits, c.awards)
    ensures Ended(c, Play(d, i, TakingBack(charged), f), i, false, charged, false, Failed, 0)
  {
    var d1 := S.Apply(d, S.Step(i, S.Good, f));
    Recalls(c, d, i, charged, h, f);
    if charged {
      PlayThree(d, i, S.Good, S.Good, S.Good, f);
      Repays(c, d1, i, f);
      Withdraws(c, S.Apply(d1, S.Step(i, S.Good, f)), i, c.credits + 1, f);
    } else {
      PlayTwo(d, i, S.Good, S.Good, f);
      Withdraws(c, d1, i, c.credits, f);
    }
  }

  /** A thread about to dispatch an order nobody else is at work on. */
  predicate Ready(c: S.Cell, i: nat, charged: bool, paid: bool) {
    && i < |c.jobs| && c.jobs[i] == S.Dispatching(charged, paid) && (charged ==> !paid)
    && (c.doc.status == Pending || c.doc.status == Processing) && c.held == 0
  }

  /** What the first call of a dispatch leads to, and the codes it leaves with the order. */
  predicate FirstCall(p: Path, out: S.Outcome, charged: bool, paid: bool, j: S.Job, h: nat) {
    match out
    case Parks => p in {ManualPath, ApiPath, BridgePath} && j == S.Parking(charged, paid, false) && h == 0
    case Succeeds => p == ApiPath && j == S.Finishing(paid) && h == 0
    case Rejects => p == ApiPath && j == S.Releasing(charged, paid) && h == 0
    case Claimed(n) =>
      h == n && p in {InventoryPath, MixedPath, BridgePath}
      && j == if p == BridgePath then S.Parking(charged, paid, true) else S.Delivering(paid)
    case Short(n) => h == n && p in {InventoryPath, MixedPath, BridgePath} && j == S.Releasing(charged, paid)
    case _ => false
  }

  lemma Asks(c: S.Cell, i: nat, charged: bool, paid: bool, out: S.Outcome, f: Fulfillment, j: S.Job, h: nat)
    requires Ready(c, i, charged, paid)
    requires FirstCall(Route(c.doc.items), out, charged, paid, j, h)
    ensures Reached(c, S.Apply(c, S.Step(i, out, f)), i, j, c.doc.status, h, c.credits, c.awards)
  {
    assert S.Apply(c, S.Step(i, out, f)) == S.Dispatch(c, i, charged, paid, out);
  }

  lemma TakenBackEnds(c: S.Cell, i: nat, charged: bool, paid: bool, out: S.Outcome, f: Fulfillment)
    requires Ready(c, i, charged, paid)
    requires (Route(c.doc.items) == ApiPath && out == S.Rejects)
             || (Route(c.doc.items) in {InventoryPath, MixedPath, BridgePath} && out == S.Short(0))
    ensures Ended(c, Play(c, i, [out] + TakingBack(charged), f), i, false, charged, paid, Failed, 0)
  {
    var d := S.Apply(c, S.Step(i, out, f));
    Asks(c, i, charged, paid, out, f, S.Releasing(charged, paid), 0);
    PlayOne(c, i, out, TakingBack(charged), f);
    CompensationEnds(c, d, i, charged, paid, c.doc.status, 0, f);
  }

  lemma ParkedEnds(c: S.Cell, i: nat, charged: bool, paid: bool, f: Fulfillment)
    requires Ready(c, i, charged, paid) && Route(c.doc.items) in {ApiPath, BridgePath, ManualPath}
    ensures Ended(c, Play(c, i, [S.Parks, S.Good], f), i, true, charged, paid, Processing, 0)
  {
    Asks(c, i, charged, paid, S.Parks, f, S.Parking(charged, paid, false), 0);
    PlayTwo(c, i, S.Parks, S.Good, f);
    Parks(c, S.Apply(c, S.Step(i, S.Parks, f)), i, charged, paid, false, c.doc.status, 0, f);
  }

  lemma FinishedEnds(c: S.Cell, i: nat, charged: bool, paid: bool, f: Fulfillment)
    requires Ready(c, i, charged, paid) && Route(c.doc.items) == ApiPath
    ensures Ended(c, Play(c, i, [S.Succeeds, S.Good, S.Good], f), i, true, charged, paid, Completed, 0)
  {
    var d := S.Apply(c, S.Step(i, S.Succeeds, f));
    Asks(c, i, charged, paid, S.Succeeds, f, S.Finishing(paid), 0);
    PlayThree(c, i, S.Succeeds, S.Good, S.Good, f);
    Finishes(c, d, i, paid, c.doc.status, f);
    Rewards(c, S.Apply(d, S.Step(i, S.Good, f)), i, paid, 0, f);
  }

  lemma DeliveredEnds(c: S.Cell, i: nat, charged: bool, paid: bool, n: nat, f: Fulfillment)
    requires Ready(c, i, charged, paid)
    ensures Route(c.doc.items) == InventoryPath ==>
              Ended(c, Play(c, i, [S.Claimed(n), S.Good, S.Good], f), i, true, charged, paid, Completed, n)
    ensures Route(c.doc.items) == MixedPath ==>
              Ended(c, Play(c, i, [S.Claimed(n), S.Good], f), i, true, charged, paid, Processing, n)
  {
    if Route(c.doc.items) in {InventoryPath, MixedPath} {
      var d := S.Apply(c, S.Step(i, S.Claimed(n), f));
      Asks(c, i, charged, paid, S.Claimed(n), f, S.Delivering(paid), n);
      Delivers(c, d, i, paid, c.doc.status, n, f);
      if Route(c.doc.items) == InventoryPath {
        PlayThree(c, i, S.Claimed(n), S.Good, S.Good, f);
        Rewards(c, S.Apply(d, S.Step(i, S.Good, f)), i, paid, n, f);
      } else {
        PlayTwo(c, i, S.Claimed(n), S.Good, f);
      }
    }
  }

  lemma RechargedEnds(c: S.Cell, i: nat, charged: bool, paid: bool, n: nat, stored: bool, f: Fulfillment)
    requires Ready(c, i, charged, paid) && Route(c.doc.items) == BridgePath
    ensures stored ==> Ended(c, Play(c, i, [S.Claimed(n), S.Good, S.Good], f), i, true, charged, paid, Processing, n)
    ensures !stored ==> Ended(c, Play(c, i, [S.Claimed(n), S.Good, S.Bad] + TakingBack(charged), f), i, false, charged, paid, Failed, 0)
  {
    var d := S.Apply(c, S.Step(i, S.Claimed(n), f));
    Asks(c, i, charged, paid, S.Claimed(n), f, S.Parking(charged, paid, true), n);
    Parks(c, d, i, charged, paid, true, c.doc.status, n, f);
    var e := S.Apply(d, S.Step(i, S.Good, f));
    Sends(c, e, i, charged, paid, n, stored, f);
    if stored {
      PlayThree(c, i, S.Claimed(n), S.Good, S.Good, f);
    } else {
      RefusedPlays(c, i, n, charged, f);
      var g := S.Apply(e, S.Step(i, S.Bad, f));
      if paid {
        CompensationEnds(c, g, i, charged, paid, Processing, n, f);
      } else {
        RecallEnds(c, g, i, charged, n, f);
      }
    }
  }

  lemma RefusedPlays(c: S.Cell, i: nat, n: nat, charged: bool, f: Fulfillment)
    ensures var e := S.Apply(S.Apply(c, S.Step(i, S.Claimed(n), f)), S.Step(i, S.Good, f));
            Play(c, i, [S.Claimed(n), S.Good, S.Bad] + TakingBack(charged), f)
            == Play(S.Apply(e, S.Step(i, S.Bad, f)), i, TakingBack(charged), f)
  {
    var back := TakingBack(charged);
    var d := S.Apply(c, S.Step(i, S.Claimed(n), f));
    PlayOne(c, i, S.Claimed(n), [S.Good, S.Bad] + back, f);
    PlayOne(d, i, S.Good, [S.Bad] + back, f);
    PlayOne(S.Apply(d, S.Step(i, S.Good, f)), i, S.Bad, back, f);
    assert [S.Claimed(n)] + ([S.Good, S.Bad] + back) == [S.Claimed(n), S.Good, S.Bad] + back;
    assert [S.Good] + ([S.Bad] + back) == [S.Good, S.Bad] + back;
  }

  // ----- the service and the machine agree -----

  /** The codes the order owns. */
  ghost function Owns(v: View, id: OrderId): nat {
    |OwnedIds(v.codes, id)|
  }

  /** No row of the recharge's product is on sale. */
  ghost predicate Cardless(b: View, id: OrderId, env: Env)
    requires id in b.orders
  {
    var items := b.orders[id].items;
    items != [] && env.spec.Some? && env.spec.value.recharge && AvailableIds(b.codes, items[0].product) == {}
  }

  /**
   Whatever the outside world answers: from a cell whose thread is about to
   dispatch the same order, the thread's calls, coming out as the world answered,
   end with the status, the awards, the codes held and the answer the service
   gives; and a credit exactly when the service returned a charge.
   */
  lemma SagaIsRun(b: View, a: View, id: OrderId, charged: bool, paid: bool, env: Env, ok: bool, c: S.Cell, i: nat, f: Fulfillment)
    requires DispatchOutcome(b, a, id, charged, env, ok) && OwnedIds(b.codes, id) == {}
    requires Ready(c, i, charged, paid) && c.doc.items == b.orders[id].items
    ensures var calls := Calls(b.orders[id].items, charged, env, ok, Owns(a, id), Cardless(b, id, env));
            Ended(c, Play(c, i, calls, f), i, ok, charged, paid, a.orders[id].status, Owns(a, id))
    ensures a.awarded == b.awarded + if a.orders[id].status == Completed then multiset{id} else multiset{}
  {
    var items := c.doc.items;
    Paths(items);
    if AllLines(items, Api) {
      ApiRuns(b, a, id, charged, paid, env, ok, c, i, f);
    } else if AllLines(items, BridgeDevice) {
      BridgeRuns(b, a, id, charged, paid, env, ok, c, i, f);
    } else if AllLines(items, Inventory) || CodesAndManual(items) {
      CodesRun(b, a, id, charged, paid, env, ok, c, i, f);
    } else {
      ParkedEnds(c, i, charged, paid, f);
    }
  }

  lemma Paths(items: seq<Item>)
    ensures AllLines(items, Api) <==> Route(items) == ApiPath
    ensures AllLines(items, BridgeDevice) <==> Route(items) == BridgePath
    ensures AllLines(items, Inventory) <==> Route(items) == InventoryPath
    ensures CodesAndManual(items) <==> Route(items) == MixedPath
  {
    RouteServes(items, ApiPath);
    RouteServes(items, BridgePath);
    RouteServes(items, InventoryPath);
    RouteServes(items, MixedPath);
  }

  lemma ApiRuns(b: View, a: View, id: OrderId, charged: bool, paid: bool, env: Env, ok: bool, c: S.Cell, i: nat, f: Fulfillment)
    requires ApiOutcome(b, a, id, charged, env, ok) && OwnedIds(b.codes, id) == {}
    requires Ready(c, i, charged, paid) && c.doc.items == b.orders[id].items && Route(c.doc.items) == ApiPath && AllLines(c.doc.items, Api)
    ensures Ended(c, Play(c, i, Calls(c.doc.items, charged, env, ok, Owns(a, id), Cardless(b, id, env)), f), i, ok, charged, paid,
                  a.orders[id].status, Owns(a, id))
  {
    match env.answer
    case Done(ref, codes) => FinishedEnds(c, i, charged, paid, f);
    case HardError => TakenBackEnds(c, i, charged, paid, S.Rejects, f);
    case _ => ParkedEnds(c, i, charged, paid, f);
  }

  lemma BridgeRuns(b: View, a: View, id: OrderId, charged: bool, paid: bool, env: Env, ok: bool, c: S.Cell, i: nat, f: Fulfillment)
    requires BridgeOutcome(b, a, id, charged, env, ok) && OwnedIds(b.codes, id) == {}
    requires Ready(c, i, charged, paid) && c.doc.items == b.orders[id].items && Route(c.doc.items) == BridgePath
    requires AllLines(c.doc.items, BridgeDevice) && !AllLines(c.doc.items, Api)
    ensures Ended(c, Play(c, i, Calls(c.doc.items, charged, env, ok, Owns(a, id), Cardless(b, id, env)), f), i, ok, charged, paid,
                  a.orders[id].status, Owns(a, id))
  {
    if !env.bridgeOn || env.spec.None? {
      ParkedEnds(c, i, charged, paid, f);
    } else if ok {
      RechargedEnds(c, i, charged, paid, Owns(a, id), true, f);
    } else if Cardless(b, id, env) {
      TakenBackEnds(c, i, charged, paid, S.Short(0), f);
    } else {
      RechargedEnds(c, i, charged, paid, Owns(a, id), false, f);
    }
  }

  lemma CodesRun(b: View, a: View, id: OrderId, charged: bool, paid: bool, env: Env, ok: bool, c: S.Cell, i: nat, f: Fulfillment)
    requires CodesOutcome(b, a, id, charged, ok) && OwnedIds(b.codes, id) == {}
    requires Ready(c, i, charged, paid) && c.doc.items == b.orders[id].items
    requires AllLines(c.doc.items, Inventory) <==> Route(c.doc.items) == InventoryPath
    requires CodesAndManual(c.doc.items) <==> Route(c.doc.items) == MixedPath
    requires AllLines(c.doc.items, Inventory) || CodesAndManual(c.doc.items)
    requires !AllLines(c.doc.items, Api) && !AllLines(c.doc.items, BridgeDevice)
    ensures Ended(c, Play(c, i, Calls(c.doc.items, charged, env, ok, Owns(a, id), Cardless(b, id, env)), f), i, ok, charged, paid,
                  a.orders[id].status, Owns(a, id))
  {
    if ok {
      DeliveredEnds(c, i, charged, paid, Owns(a, id), f);
    } else {
      TakenBackEnds(c, i, charged, paid, S.Short(0), f);
    }
  }

  // ----- refunds and completions -----

  /** The cell holds this order, as far as a refund looks at it. */
  predicate Same(c: S.Cell, o: Order) {
    c.doc.status == o.status && c.doc.total == o.total && c.doc.payment == o.payment && c.doc.paymentRef == o.paymentRef
  }

  /** How the money's way back comes out for the refunding thread; a wallet needs no gateway. */
  function WayBack(o: Order, back: Back): S.Outcome {
    match back
    case Given => S.Good
    case Withheld => S.Bad
    case Unconfigured => if o.payment == Wallet then S.Good else S.NoGateway
  }

  /** Money went back: there was some, and its way was open. */
  predicate Went(o: Order, back: Back) {
    o.total > 0 && (o.payment == Wallet || (o.paymentRef.Some? && o.paymentRef.value != "" && back == Given))
  }

  /** A refunding thread after its winning transition: it pays, has nothing to pay, or puts the status back. */
  lemma CreditRuns(c: S.Cell, won: S.Cell, o: Order, back: Back, f: Fulfillment)
    requires Same(c, o) && won.doc.status == Refunded && won.credits == c.credits
    requires won.jobs == c.jobs + [S.Crediting(c.doc)]
    ensures CannotReturn(o, back) ==>
              var kept := Play(won, |c.jobs|, [S.Bad, S.Good], f);
              kept.doc.status == o.status && kept.credits == c.credits && kept.jobs == c.jobs + [S.Returned(S.Failure, false)]
    ensures !CannotReturn(o, back) ==>
              var paid := Play(won, |c.jobs|, [WayBack(o, back)], f);
              && paid.doc.status == Refunded && paid.jobs == c.jobs + [S.Returned(S.Success, false)]
              && paid.credits == c.credits + if Went(o, back) then 1 else 0
  {
    if CannotReturn(o, back) {
      PlayTwo(won, |c.jobs|, S.Bad, S.Good, f);
      CreditFails(c, won, f);
      RevertsBack(c, S.Apply(won, S.Step(|c.jobs|, S.Bad, f)), f);
    } else {
      PlayOne(won, |c.jobs|, WayBack(o, back), [], f);
      assert [WayBack(o, back)] + [] == [WayBack(o, back)];
      CreditPays(c, won, o, back, f);
    }
  }

  lemma CreditFails(c: S.Cell, won: S.Cell, f: Fulfillment)
    requires won.jobs == c.jobs + [S.Crediting(c.doc)] && Reversible(c.doc)
    ensures var d := S.Apply(won, S.Step(|c.jobs|, S.Bad, f));
            d.jobs == c.jobs + [S.Reverting(c.doc)] && d.doc == won.doc && d.credits == won.credits
  {
    assert S.Apply(won, S.Step(|c.jobs|, S.Bad, f)) == S.Credit(won, |c.jobs|, c.doc, S.Bad);
  }

  lemma RevertsBack(c: S.Cell, d: S.Cell, f: Fulfillment)
    requires d.jobs == c.jobs + [S.Reverting(c.doc)] && d.doc.status == Refunded
    ensures var e := S.Apply(d, S.Step(|c.jobs|, S.Good, f));
            e.jobs == c.jobs + [S.Returned(S.Failure, false)] && e.doc.status == c.doc.status && e.credits == d.credits
  {
    assert S.Apply(d, S.Step(|c.jobs|, S.Good, f)) == S.Revert(d, |c.jobs|, c.doc);
  }

  lemma CreditPays(c: S.Cell, won: S.Cell, o: Order, back: Back, f: Fulfillment)
    requires Same(c, o) && won.jobs == c.jobs + [S.Crediting(c.doc)] && !CannotReturn(o, back)
    ensures var d := S.Apply(won, S.Step(|c.jobs|, WayBack(o, back), f));
            && d.jobs == c.jobs + [S.Returned(S.Success, false)] && d.doc == won.doc
            && d.credits == won.credits + if Went(o, back) then 1 else 0
  {
    assert S.Apply(won, S.Step(|c.jobs|, WayBack(o, back), f)) == S.Credit(won, |c.jobs|, c.doc, WayBack(o, back));
  }

  /** The machine's refund ends where the service's does, paid exactly when the service paid. */
  predicate RefundEnds(c: S.Cell, won: S.Cell, o: Order, d: Order, back: Back, f: Fulfillment) {
    if CannotReturn(o, back) then
      var kept := Play(won, |c.jobs|, [S.Bad, S.Good], f);
      kept.doc.status == d.status && kept.credits == c.credits && kept.jobs == c.jobs + [S.Returned(S.Failure, false)]
    else
      var paid := Play(won, |c.jobs|, [WayBack(o, back)], f);
      && paid.doc.status == d.status && paid.jobs == c.jobs + [S.Returned(S.Success, false)]
      && paid.credits == c.credits + if Went(o, back) then 1 else 0
  }

  /** An operator's refund is a run of the machine: an arrival that wins or does nothing, and its thread's calls. */
  lemma RefundIsRun(b: View, a: View, id: OrderId, out: A.Outcome, back: Back, c: S.Cell, reason: string, f: Fulfillment)
    requires id in b.orders && A.RefundOutcome(b, a, id, out, back) && Same(c, b.orders[id])
    ensures var won := S.Apply(c, S.AdminRefund(reason));
            if out == A.Conflict then won == c && a == b else RefundEnds(c, won, b.orders[id], a.orders[id], back, f)
  {
    var won := S.Apply(c, S.AdminRefund(reason));
    if out != A.Conflict {
      assert won.jobs == c.jobs + [S.Crediting(c.doc)];
      CreditRuns(c, won, b.orders[id], back, f);
    }
  }

  /** So is a refund after the supplier's rejection. */
  lemma RejectIsRun(b: View, a: View, id: OrderId, back: Back, c: S.Cell, reason: string, f: Fulfillment)
    requires P.RejectOutcome(b, a, id, back) && Same(c, b.orders[id])
    ensures var won := S.Apply(c, S.SupplierReject(reason));
            if b.orders[id].status != Processing then won == c && a == b else RefundEnds(c, won, b.orders[id], a.orders[id], back, f)
  {
    var won := S.Apply(c, S.SupplierReject(reason));
    if b.orders[id].status == Processing {
      assert won.jobs == c.jobs + [S.Crediting(c.doc)];
      CreditRuns(c, won, b.orders[id], back, f);
    }
  }

  /** And a completion with what the supplier delivered, down to its one award. */
  lemma AcceptIsRun(b: View, a: View, id: OrderId, ref: string, codes: Option<string>, c: S.Cell, f: Fulfillment)
    requires P.AcceptOutcome(b, a, id, ref, codes) && Same(c, b.orders[id])
    ensures var won := S.Apply(c, S.Complete(SuppliedBy(ref, codes)));
            if b.orders[id].status != Processing then won == c && a.awarded == b.awarded
            else
              var done := Play(won, |c.jobs|, [S.Good], f);
              && done.doc.status == a.orders[id].status == Completed && done.awards == c.awards + 1
              && a.awarded == b.awarded + multiset{id} && done.doc.fulfillment.transferRef == a.orders[id].fulfillment.transferRef
  {
    var won := S.Apply(c, S.Complete(SuppliedBy(ref, codes)));
    if b.orders[id].status == Processing {
      assert won.jobs == c.jobs + [S.Rewarding(false)];
      PlayOne(won, |c.jobs|, S.Good, [], f);
      assert [S.Good] + [] == [S.Good];
      assert S.Apply(won, S.Step(|c.jobs|, S.Good, f)) == S.Reward(won, |c.jobs|, false);
    }
  }
}
