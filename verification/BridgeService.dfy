/** Leasing, result ingestion and the reaper, one pass at a time. */
module BridgeService {
  import opened Basics
  import opened Orders
  import opened Slugs
  import opened Bridge
  import opened Database

  /** How many exhausted, and how many stale, commands one pass fails at most. */
  const REAP_LIMIT: nat := 200

  type Commands = map<CommandId, Command>

  predicate Leasable(cs: Commands, k: CommandId, providers: seq<string>) {
    k in cs && cs[k].status == Queued && Handles(providers, cs[k].provider)
  }

  function LeasableIds(cs: Commands, providers: seq<string>): set<CommandId> {
    set k | k in cs && Leasable(cs, k, providers)
  }

  function ExhaustedIds(cs: Commands, now: Time, max: nat): set<CommandId> {
    set k | k in cs && Exhausted(cs[k], now, max)
  }

  function StaleIds(cs: Commands, cutoff: Time): set<CommandId> {
    set k | k in cs && Stale(cs[k], cutoff)
  }

  function Update(c: Command, d: Option<Command>): Command {
    if d.Some? then d.value else c
  }

  /** A lease whose time is over. */
  predicate RunOut(c: Command, now: Time) {
    c.status == Leased && c.expires.Some? && c.expires.value < now
  }

  /** These expired leases had no attempts left and failed; every other expired lease is queued again. */
  predicate RequeueOutcome(b: Commands, a: Commands, failed: seq<CommandId>, now: Time, max: nat) {
    && a.Keys == b.Keys && (forall k :: k in failed ==> k in b && RunOut(b[k], now) && b[k].attempts >= max)
    && forall k :: k in b ==>
         a[k] == if k in failed then b[k].(status := FailedCommand, failReason := "recharge attempts exhausted", expires := None, device := None)
                 else if RunOut(b[k], now) then b[k].(status := Queued, expires := None, device := None) else b[k]
  }

  /** These commands had waited past the cutoff and failed; nothing else changed. */
  predicate TimeoutOutcome(b: Commands, a: Commands, failed: seq<CommandId>, cutoff: Time) {
    && a.Keys == b.Keys && (forall k :: k in failed ==> k in b && b[k].status == Queued && b[k].createdAt < cutoff)
    && forall k :: k in b ==>
         a[k] == if k in failed then b[k].(status := FailedCommand, failReason := "recharge timed out waiting for a device") else b[k]
  }

  /** Each of these was queued for one of the providers, and is the device's now, with one attempt more. */
  predicate LeaseOutcome(b: Commands, a: Commands, out: seq<CommandId>, device: DeviceId, providers: seq<string>, now: nat -> Time, ttl: Time) {
    && a.Keys == b.Keys && (forall k :: k in b && k !in out ==> a[k] == b[k])
    && forall i :: 0 <= i < |out| ==>
         && out[i] in b && b[out[i]].status == Queued && (providers == [] || b[out[i]].provider in providers)
         && a[out[i]] == b[out[i]].(status := Leased, device := Some(device), expires := Some(now(i) + ttl), attempts := b[out[i]].attempts + 1)
  }

  /** No command of these providers is left in the queue. */
  predicate NoneQueued(cs: Commands, providers: seq<string>) {
    forall k :: k in cs ==> !(cs[k].status == Queued && (providers == [] || cs[k].provider in providers))
  }

  /** A report on a command the device holds, told over the command, its order, and the awards. */
  predicate IngestOutcome(b: View, a: View, k: CommandId, device: DeviceId, report: Report) {
    if !(k in b.commands && b.commands[k].status == Leased && b.commands[k].device == Some(device)) then a == b
    else
      var c, success := b.commands[k], report.code in {1000, 2000, 3000, 4000, 5000};
      && a == b.(commands := a.commands, orders := a.orders, awarded := a.awarded)
      && a.commands.Keys == b.commands.Keys && (forall j :: j in b.commands && j != k ==> a.commands[j] == b.commands[j])
      && a.commands[k] == c.(status := if success then Succeeded else FailedCommand, result := Some(report), expires := None,
                             failReason := a.commands[k].failReason)
      && (success ==> a.commands[k].failReason == c.failReason)
      && (!success && report.error != "" ==> a.commands[k].failReason == report.error)
      && SettledTold(b, a, k, c.order, report)
  }

  predicate SettledTold(b: View, a: View, k: CommandId, order: Option<OrderId>, report: Report) {
    if order.None? || order.value !in b.orders then a.orders == b.orders && a.awarded == b.awarded
    else OrderTold(b, a, order.value, report.code in {1000, 2000, 3000, 4000, 5000}, "bridge:" + Decimal(k))
  }

  /** A success completes a processing order, once, with its reference; a failure is only noted. */
  predicate OrderTold(b: View, a: View, id: OrderId, success: bool, ref: string)
    requires id in b.orders
  {
    && a.orders.Keys == b.orders.Keys && (forall o :: o in b.orders && o != id ==> a.orders[o] == b.orders[o])
    && var o, d := b.orders[id], a.orders[id];
       if success && o.status == Processing
       then Told(o.(fulfillment := o.fulfillment.(transferRef := Some(ref))), d, Completed, ["completed"]) && a.awarded == b.awarded + multiset{id}
       else if success then d == o && a.awarded == b.awarded
       else Told(o, d, o.status, ["bridge_failed"]) && a.awarded == b.awarded
  }

  /** What one pass does to one command, when nothing is over the limit. */
  function Reaped(c: Command, now: Time, cfg: Config): (r: Command)
    ensures !Expired(r, now) && !Stale(r, now - cfg.queueTimeout)
    ensures IsTerminal(c.status) ==> r == c
    ensures SameErrand(c, r) && r.result == c.result && r.attempts == c.attempts
    ensures RunOut(c, now) && c.attempts >= cfg.maxAttempts ==> r.status == FailedCommand && r.failReason == "recharge attempts exhausted"
    ensures (c.status == Queued || (RunOut(c, now) && c.attempts < cfg.maxAttempts)) ==>
              r.device == (if c.status == Queued then c.device else None)
              && if c.createdAt < now - cfg.queueTimeout
                 then r.status == FailedCommand && r.failReason == "recharge timed out waiting for a device"
                 else r.status == Queued && r.failReason == c.failReason
    ensures c.status == Leased && !RunOut(c, now) ==> r == c
  {
    if Exhausted(c, now, cfg.maxAttempts) then Update(c, FailExhausted(c, now, cfg.maxAttempts))
    else
      var q := Update(c, Requeue(c, now));
      Update(q, FailStale(q, now - cfg.queueTimeout))
  }

  /** After the requeue: the listed commands failed, every other expired lease is queued again. */
  ghost predicate Requeued(b: Commands, a: Commands, failed: seq<CommandId>, now: Time, max: nat) {
    && a.Keys == b.Keys && Elements(failed) <= ExhaustedIds(b, now, max) && |failed| == |Elements(failed)|
    && forall k :: k in b ==>
         a[k] == if k in Elements(failed) then Update(b[k], FailExhausted(b[k], now, max)) else Update(b[k], Requeue(b[k], now))
  }

  /** The listed commands timed out, and nothing else changed. */
  ghost predicate TimedOut(b: Commands, a: Commands, failed: seq<CommandId>, cutoff: Time) {
    && a.Keys == b.Keys && Elements(failed) <= StaleIds(b, cutoff) && |failed| == |Elements(failed)|
    && forall k :: k in b ==> a[k] == if k in Elements(failed) then Update(b[k], FailStale(b[k], cutoff)) else b[k]
  }

  /** Within the limit, every one that is due is listed. */
  ghost predicate CatchesAll(due: set<CommandId>, failed: seq<CommandId>) {
    |due| <= REAP_LIMIT ==> Elements(failed) == due
  }

  class Service {
    const db: Database
    const cfg: Config

    constructor (db: Database, leaseTtl: Time, maxAttempts: int, queueTimeout: Time)
      ensures this.db == db && cfg == Sane(leaseTtl, maxAttempts, queueTimeout)
      ensures cfg.leaseTtl == (if leaseTtl <= 0 then 180 else leaseTtl) && cfg.queueTimeout == (if queueTimeout <= 0 then 1800 else queueTimeout)
      ensures cfg.maxAttempts == if maxAttempts <= 0 then 3 else maxAttempts
    {
      this.db := db;
      this.cfg := Sane(leaseTtl, maxAttempts, queueTimeout);
    }

    /**
     Leases up to max commands to a device, oldest first: fewer only when no
     queued command of its providers is left. `now` is the clock, read once per lease.
     */
    method LeaseNext(device: DeviceId, providers: seq<string>, now: nat -> Time, max: nat) returns (out: seq<CommandId>)
      modifies db`commands
      ensures |out| <= max && (|out| < max ==> LeasableIds(db.commands, providers) == {} && NoneQueued(db.commands, providers))
      ensures LeasedOut(old(db.commands), db.commands, out, device, providers, now, cfg.leaseTtl)
      ensures LeaseOutcome(old(db.commands), db.commands, out, device, providers, now, cfg.leaseTtl)
    {
      out := [];
      ghost var b := db.commands;
      while |out| < max
        invariant |out| <= max && LeasedOut(b, db.commands, out, device, providers, now, cfg.leaseTtl)
        decreases max - |out|
      {
        var free := LeasableIds(db.commands, providers);
        if free == {} {
          break;
        }
        var k := Oldest(free);
        var next := db.commands[k := Update(db.commands[k], Lease(db.commands[k], device, providers, now(|out|) + cfg.leaseTtl))];
        LeaseMore(b, db.commands, out, k, device, providers, now, cfg.leaseTtl, next);
        db.commands := next;
        out := out + [k];
      }
      LeaseTold(b, db.commands, out, device, providers, now, cfg.leaseTtl);
      NoneLeft(db.commands, providers);
    }

    /** A device's poll: between one and three commands at a time. */
    method Poll(device: DeviceId, providers: seq<string>, now: nat -> Time, max: int) returns (out: seq<CommandId>)
      modifies db`commands
      ensures |out| <= 3 && (max >= 1 ==> |out| <= max) && (max < 1 ==> |out| <= 1)
      ensures |out| == 0 || (|out| < max && |out| < 3) ==> LeasableIds(db.commands, providers) == {}
      ensures |out| == 0 || (|out| < max && |out| < 3) ==> NoneQueued(db.commands, providers)
      ensures LeasedOut(old(db.commands), db.commands, out, device, providers, now, cfg.leaseTtl)
      ensures LeaseOutcome(old(db.commands), db.commands, out, device, providers, now, cfg.leaseTtl)
    {
      out := LeaseNext(device, providers, now, if max <= 0 then 1 else if max > 3 then 3 else max);
    }

    /** The command created first. */
    method Oldest(ids: set<CommandId>) returns (k: CommandId)
      requires ids != {} && ids <= db.commands.Keys
      ensures k in ids && forall i :: i in ids ==> db.commands[k].createdAt <= db.commands[i].createdAt
    {
      k :| k in ids;
      var rest := ids - {k};
      while rest != {}
        invariant rest <= ids && k in ids
        invariant forall i :: i in ids && i !in rest ==> db.commands[k].createdAt <= db.commands[i].createdAt
        decreases |rest|
      {
        var i :| i in rest;
        if db.commands[i].createdAt < db.commands[k].createdAt {
          k := i;
        }
        rest := rest - {i};
      }
    }

    /** Fails exhausted expired leases one by one up to the limit, then requeues all the others in one write. */
    method RequeueExpired(now: Time) returns (failed: seq<CommandId>)
      modifies db`commands
      ensures Requeued(old(db.commands), db.commands, failed, now, cfg.maxAttempts)
      ensures CatchesAll(ExhaustedIds(old(db.commands), now, cfg.maxAttempts), failed)
      ensures RequeueOutcome(old(db.commands), db.commands, failed, now, cfg.maxAttempts) && |failed| <= 200
      ensures |failed| < 200 ==> forall k :: k in old(db.commands) && RunOut(old(db.commands)[k], now) && old(db.commands)[k].attempts >= cfg.maxAttempts ==> k in failed
    {
      failed := [];
      ghost var b := db.commands;
      while |failed| < REAP_LIMIT
        invariant |failed| <= REAP_LIMIT && FailedSome(b, db.commands, failed, now, cfg.maxAttempts)
        decreases REAP_LIMIT - |failed|
      {
        var due := ExhaustedIds(db.commands, now, cfg.maxAttempts);
        if due == {} {
          break;
        }
        var k :| k in due;
        FailMore(b, db.commands, failed, k, now, cfg.maxAttempts);
        db.commands := db.commands[k := Update(db.commands[k], FailExhausted(db.commands[k], now, cfg.maxAttempts))];
        failed := failed + [k];
      }
      AllFailed(b, db.commands, failed, now, cfg.maxAttempts);
      RequeueRest(b, db.commands, failed, now, cfg.maxAttempts);
      db.commands := map k | k in db.commands :: Update(db.commands[k], Requeue(db.commands[k], now));
      RequeueTold(b, db.commands, failed, now, cfg.maxAttempts);
    }

    /** Fails commands nobody picked up in time, one by one up to the limit. */
    method FailStaleQueued(cutoff: Time) returns (failed: seq<CommandId>)
      modifies db`commands
      ensures TimedOut(old(db.commands), db.commands, failed, cutoff)
      ensures CatchesAll(StaleIds(old(db.commands), cutoff), failed)
      ensures TimeoutOutcome(old(db.commands), db.commands, failed, cutoff) && |failed| <= 200
      ensures |failed| < 200 ==> forall k :: k in old(db.commands) && old(db.commands)[k].status == Queued && old(db.commands)[k].createdAt < cutoff ==> k in failed
    {
      failed := [];
      ghost var b := db.commands;
      while |failed| < REAP_LIMIT
        invariant |failed| <= REAP_LIMIT && TimedOut(b, db.commands, failed, cutoff)
        decreases REAP_LIMIT - |failed|
      {
        var due := StaleIds(db.commands, cutoff);
        if due == {} {
          break;
        }
        var k :| k in due;
        TimeOutMore(b, db.commands, failed, k, cutoff);
        db.commands := db.commands[k := Update(db.commands[k], FailStale(db.commands[k], cutoff))];
        failed := failed + [k];
      }
      AllTimedOut(b, db.commands, failed, cutoff);
      TimeoutTold(b, db.commands, failed, cutoff);
    }

    // ----- settling orders -----

    /** Completes a processing order; any other is left alone. */
    method CompleteBridgeOrder(o: OrderId, ref: string)
      modifies db`orders, db`awarded
      ensures o in old(db.orders) && old(db.orders)[o].status == Processing ==>
                && db.orders == old(db.orders)[o := Transition(old(db.orders)[o], {Processing}, Completed, DELIVERED, TransferredBy(ref)).value]
                && db.awarded == old(db.awarded) + multiset{o}
      ensures !(o in old(db.orders) && old(db.orders)[o].status == Processing) ==>
                db.orders == old(db.orders) && db.awarded == old(db.awarded)
    {
      if o in db.orders {
        match Transition(db.orders[o], {Processing}, Completed, DELIVERED, TransferredBy(ref))
        case Some(doc) =>
          db.orders := db.orders[o := doc];
          db.awarded := db.awarded + multiset{o};
        case None =>
      }
    }

    /** Notes a failed recharge on its order, whose status stays as it is. */
    method FlagOrder(c: Command, reason: string)
      modifies db`orders
      ensures db.orders == Noted(old(db.orders), c.order, if reason == "" then "mobile recharge failed on the device" else reason)
    {
      if c.order.Some? && c.order.value in db.orders {
        var note := if reason == "" then "mobile recharge failed on the device" else reason;
        db.orders := db.orders[c.order.value := AppendEvent(db.orders[c.order.value], Event("bridge_failed", note))];
      }
    }

    /**
     Records a report from the device holding the lease and settles the order:
     completed on success, only noted otherwise. Any other report changes
     nothing: a duplicate is acknowledged, a lost lease is a conflict.
     */
    method IngestResult(k: CommandId, device: DeviceId, report: Report) returns (r: Result<bool, ()>)
      modifies db`commands, db`orders, db`awarded
      ensures r == Ok(true) <==> Holds(old(db.commands), k, device)
      ensures r == Ok(false) <==> !Holds(old(db.commands), k, device) && k in old(db.commands) && IsTerminal(old(db.commands)[k].status)
      ensures r != Ok(true) ==> db.Now() == old(db.Now())
      ensures r == Ok(true) ==>
                var c := old(db.commands)[k];
                && db.commands == old(db.commands)[k := Update(c, CompleteLeased(c, device, report))]
                && IsTerminal(db.commands[k].status) && db.commands[k].result == Some(report)
                && (!IsSuccessCode(report.code) ==>
                      db.awarded == old(db.awarded) && exists note :: db.orders == Noted(old(db.orders), c.order, note))
                && (IsSuccessCode(report.code) && Served(old(db.orders), c) ==>
                      && db.orders == old(db.orders)[c.order.value := Transition(old(db.orders)[c.order.value], {Processing}, Completed, DELIVERED, TransferredBy("bridge:" + Decimal(k))).value]
                      && db.awarded == old(db.awarded) + multiset{c.order.value})
                && (IsSuccessCode(report.code) && !Served(old(db.orders), c) ==> db.orders == old(db.orders) && db.awarded == old(db.awarded))
      ensures IngestOutcome(old(db.Now()), db.Now(), k, device, report)
    {
      if k !in db.commands {
        return Err(());
      }
      var c := db.commands[k];
      match CompleteLeased(c, device, report)
      case None => return if IsTerminal(c.status) then Ok(false) else Err(());
      case Some(d) =>
        db.commands := db.commands[k := d];
        SettleReport(k, d, report);
        return Ok(true);
    }

    /** Settles the order of a command whose report was just recorded. */
    method SettleReport(k: CommandId, d: Command, report: Report)
      requires d.status == Succeeded <==> IsSuccessCode(report.code)
      modifies db`orders, db`awarded
      ensures !IsSuccessCode(report.code) ==>
                db.awarded == old(db.awarded) && exists note :: db.orders == Noted(old(db.orders), d.order, note)
      ensures IsSuccessCode(report.code) && Served(old(db.orders), d) ==>
                && db.orders == old(db.orders)[d.order.value := Transition(old(db.orders)[d.order.value], {Processing}, Completed, DELIVERED, TransferredBy("bridge:" + Decimal(k))).value]
                && db.awarded == old(db.awarded) + multiset{d.order.value}
      ensures IsSuccessCode(report.code) && !Served(old(db.orders), d) ==> db.orders == old(db.orders) && db.awarded == old(db.awarded)
      ensures SettledTold(old(db.Now()), db.Now(), k, d.order, report)
    {
      if d.status == Succeeded {
        if d.order.Some? {
          CompleteBridgeOrder(d.order.value, "bridge:" + Decimal(k));
        }
      } else {
        FlagOrder(d, if report.error != "" then report.error else d.failReason);
      }
    }

    /** Notes each listed command's failure on its order. */
    method FlagAll(failed: seq<CommandId>)
      requires Elements(failed) <= db.commands.Keys
      modifies db`orders
      ensures Flagged(old(db.orders), db.orders, db.commands, failed)
    {
      for i := 0 to |failed|
        invariant Flagged(old(db.orders), db.orders, db.commands, failed[..i])
      {
        Prefix(failed, i);
        assert failed[i] in Elements(failed);
        ghost var before := db.orders;
        FlagOrder(db.commands[failed[i]], db.commands[failed[i]].failReason);
        FlagOneMore(old(db.orders), before, db.orders, db.commands, failed[..i], failed[i]);
      }
      Prefix(failed, |failed|);
    }

    /** Both loops of a pass, each followed by its notes. */
    method ReapBoth(now: Time) returns (failed: seq<CommandId>, stale: seq<CommandId>, ghost m: Commands, ghost noted: map<OrderId, Order>)
      modifies db`commands, db`orders
      ensures TwoLoops(old(db.commands), m, db.commands, failed, stale, now, cfg)
      ensures CatchesAll(ExhaustedIds(old(db.commands), now, cfg.maxAttempts), failed)
      ensures CatchesAll(StaleIds(m, now - cfg.queueTimeout), stale)
      ensures Flagged(old(db.orders), noted, m, failed) && Flagged(noted, db.orders, db.commands, stale)
    {
      failed := RequeueExpired(now);
      m := db.commands;
      FlagAll(failed);
      noted := db.orders;
      stale := FailStaleQueued(now - cfg.queueTimeout);
      FlagAll(stale);
    }

    /**
     One pass of the reaper. Within its limits it does to every command what
     Reaped says, so no lease it found expired and no command it found stale
     remains; and each order gets one note for each of its commands that failed.
     */
    method ReapTick(now: Time)
      modifies db`commands, db`orders
      ensures WithinLimits(old(db.commands), now, cfg) ==>
                db.commands == map k | k in old(db.commands) :: Reaped(old(db.commands)[k], now, cfg)
      ensures NotedOnly(old(db.orders), db.orders)
      ensures forall o :: o in old(db.orders) ==>
                Notes(db.orders, o) == Notes(old(db.orders), o) + |NewlyFailed(old(db.commands), db.commands, o)|
    {
      ghost var b, ob := db.commands, db.orders;
      ghost var m, noted;
      var failed, stale;
      failed, stale, m, noted := ReapBoth(now);
      PassIsReaped(b, m, db.commands, failed, stale, now, cfg);
      BothNoted(b, m, db.commands, ob, noted, db.orders, failed, stale, now, cfg);
    }
  }

  /** The notes of both loops, one for each command that failed. */
  lemma BothNoted(b: Commands, m: Commands, a: Commands, ob: map<OrderId, Order>, om: map<OrderId, Order>, oa: map<OrderId, Order>,
                  failed: seq<CommandId>, stale: seq<CommandId>, now: Time, cfg: Config)
    requires TwoLoops(b, m, a, failed, stale, now, cfg) && Flagged(ob, om, m, failed) && Flagged(om, oa, a, stale)
    ensures NotedOnly(ob, oa)
    ensures forall o :: o in ob ==> Notes(oa, o) == Notes(ob, o) + |NewlyFailed(b, a, o)|
  {
    NotedTwice(ob, om, oa);
    forall o | o in ob
      ensures Notes(oa, o) == Notes(ob, o) + |NewlyFailed(b, a, o)|
    {
      NotesAddUp(b, m, a, failed, stale, now, cfg, o);
    }
  }

  lemma NotedTwice(b: map<OrderId, Order>, m: map<OrderId, Order>, a: map<OrderId, Order>)
    requires NotedOnly(b, m) && NotedOnly(m, a)
    ensures NotedOnly(b, a)
  {
    forall o | o in b
      ensures OnlyFailuresTold(b[o].fulfillment.timeline, a[o].fulfillment.timeline)
    {
      TellsOn(b[o].fulfillment.timeline, m[o].fulfillment.timeline, a[o].fulfillment.timeline);
    }
  }

  lemma TellsOn(b: seq<Event>, m: seq<Event>, a: seq<Event>)
    requires OnlyFailuresTold(b, m) && OnlyFailuresTold(m, a)
    ensures OnlyFailuresTold(b, a)
  {
    assert a[..|b|] == a[..|m|][..|b|];
    forall i | |b| <= i < |a|
      ensures a[i].status == "bridge_failed"
    {
      if i < |m| {
        assert a[..|m|][i] == m[i];
      }
    }
  }

  lemma LeaseTold(b: Commands, a: Commands, out: seq<CommandId>, device: DeviceId, providers: seq<string>, now: nat -> Time, ttl: Time)
    requires LeasedOut(b, a, out, device, providers, now, ttl)
    ensures LeaseOutcome(b, a, out, device, providers, now, ttl)
  {
    forall i | 0 <= i < |out|
      ensures out[i] in b && a[out[i]] == b[out[i]].(status := Leased, device := Some(device), expires := Some(now(i) + ttl),
                                                     attempts := b[out[i]].attempts + 1)
    {
      assert LeasedAt(b, a, out[i], device, providers, now(i) + ttl);
    }
  }

  lemma NoneLeft(cs: Commands, providers: seq<string>)
    ensures LeasableIds(cs, providers) == {} ==> NoneQueued(cs, providers)
  {
    forall k | k in cs && cs[k].status == Queued && (providers == [] || cs[k].provider in providers)
      ensures k in LeasableIds(cs, providers)
    {
    }
  }

  lemma RequeueTold(b: Commands, a: Commands, failed: seq<CommandId>, now: Time, max: nat)
    requires Requeued(b, a, failed, now, max)
    ensures RequeueOutcome(b, a, failed, now, max)
  {
    forall k | k in failed
      ensures k in ExhaustedIds(b, now, max)
    {
      assert k in Elements(failed);
    }
  }

  lemma TimeoutTold(b: Commands, a: Commands, failed: seq<CommandId>, cutoff: Time)
    requires TimedOut(b, a, failed, cutoff)
    ensures TimeoutOutcome(b, a, failed, cutoff)
  {
    forall k | k in failed
      ensures k in StaleIds(b, cutoff)
    {
      assert k in Elements(failed);
    }
  }

  const DELIVERED := Event("completed", "mobile recharge delivered by bridge device")

  predicate Holds(cs: Commands, k: CommandId, device: DeviceId) {
    k in cs && cs[k].status == Leased && cs[k].device == Some(device)
  }

  predicate Served(orders: map<OrderId, Order>, c: Command) {
    c.order.Some? && c.order.value in orders && orders[c.order.value].status == Processing
  }

  function Noted(orders: map<OrderId, Order>, o: Option<OrderId>, note: string): map<OrderId, Order> {
    if o.Some? && o.value in orders then orders[o.value := AppendEvent(orders[o.value], Event("bridge_failed", note))] else orders
  }

  function Notes(orders: map<OrderId, Order>, o: OrderId): nat {
    if o in orders then |orders[o].fulfillment.timeline| else 0
  }

  /** How many of the listed commands serve the order. */
  function CountFor(failed: seq<CommandId>, cs: Commands, o: OrderId): nat {
    if failed == [] then 0
    else
      var k := failed[|failed| - 1];
      CountFor(failed[..|failed| - 1], cs, o) + if k in cs && cs[k].order == Some(o) then 1 else 0
  }

  /** Orders differ by appended notes only: same status, same money, same everything else. */
  ghost predicate NotedOnly(b: map<OrderId, Order>, a: map<OrderId, Order>) {
    && a.Keys == b.Keys
    && (forall o :: o in b ==> a[o] == b[o].(fulfillment := b[o].fulfillment.(timeline := a[o].fulfillment.timeline)))
    && forall o :: o in b ==> OnlyFailuresTold(b[o].fulfillment.timeline, a[o].fulfillment.timeline)
  }

  /** What was told stays, and only failed recharges were told since. */
  predicate OnlyFailuresTold(b: seq<Event>, a: seq<Event>) {
    |b| <= |a| && a[..|b|] == b && forall i :: |b| <= i < |a| ==> a[i].status == "bridge_failed"
  }

  /** One note on each listed command's order. */
  ghost predicate Flagged(b: map<OrderId, Order>, a: map<OrderId, Order>, cs: Commands, failed: seq<CommandId>) {
    && NotedOnly(b, a)
    && forall o :: o in b ==> Notes(a, o) == Notes(b, o) + CountFor(failed, cs, o)
  }

  lemma OneNote(m: map<OrderId, Order>, o: Option<OrderId>, note: string)
    ensures NotedOnly(m, Noted(m, o, note))
    ensures forall x :: x in m ==> Notes(Noted(m, o, note), x) == Notes(m, x) + if o == Some(x) then 1 else 0
  {
  }

  lemma FlagOneMore(b: map<OrderId, Order>, m: map<OrderId, Order>, a: map<OrderId, Order>, cs: Commands, failed: seq<CommandId>, k: CommandId)
    requires Flagged(b, m, cs, failed) && k in cs
    requires exists note :: a == Noted(m, cs[k].order, note)
    ensures Flagged(b, a, cs, failed + [k])
  {
    assert (failed + [k])[..|failed + [k]| - 1] == failed;
    var note :| a == Noted(m, cs[k].order, note);
    OneNote(m, cs[k].order, note);
    NotedTwice(b, m, a);
    forall o | o in b
      ensures Notes(a, o) == Notes(b, o) + CountFor(failed + [k], cs, o)
    {
    }
  }

  /** Commands of the order that were not failed before and are now. */
  function NewlyFailed(b: Commands, a: Commands, o: OrderId): set<CommandId> {
    set k | k in a && k in b && a[k].status == FailedCommand && b[k].status != FailedCommand && a[k].order == Some(o)
  }

  function DueIds(cs: Commands, now: Time, cfg: Config): set<CommandId> {
    set k | k in cs && !Exhausted(cs[k], now, cfg.maxAttempts) && Stale(Update(cs[k], Requeue(cs[k], now)), now - cfg.queueTimeout)
  }

  predicate WithinLimits(cs: Commands, now: Time, cfg: Config) {
    |ExhaustedIds(cs, now, cfg.maxAttempts)| <= REAP_LIMIT && |DueIds(cs, now, cfg)| <= REAP_LIMIT
  }

  /** The requeue and then the timeouts of one pass. */
  ghost predicate TwoLoops(b: Commands, m: Commands, a: Commands, failed: seq<CommandId>, stale: seq<CommandId>, now: Time, cfg: Config) {
    Requeued(b, m, failed, now, cfg.maxAttempts) && TimedOut(m, a, stale, now - cfg.queueTimeout)
  }

  lemma PassIsReaped(b: Commands, m: Commands, a: Commands, failed: seq<CommandId>, stale: seq<CommandId>, now: Time, cfg: Config)
    requires TwoLoops(b, m, a, failed, stale, now, cfg)
    requires CatchesAll(ExhaustedIds(b, now, cfg.maxAttempts), failed) && CatchesAll(StaleIds(m, now - cfg.queueTimeout), stale)
    ensures WithinLimits(b, now, cfg) ==> a == map k | k in b :: Reaped(b[k], now, cfg)
  {
    if WithinLimits(b, now, cfg) {
      forall k
        ensures k in StaleIds(m, now - cfg.queueTimeout) <==> k in DueIds(b, now, cfg)
      {
        assert k in b ==> (k in Elements(failed) <==> Exhausted(b[k], now, cfg.maxAttempts));
      }
      assert StaleIds(m, now - cfg.queueTimeout) == DueIds(b, now, cfg);
      forall k | k in b
        ensures a[k] == Reaped(b[k], now, cfg)
      {
        assert k in Elements(failed) <==> Exhausted(b[k], now, cfg.maxAttempts);
      }
    }
  }

  function Serving(ids: set<CommandId>, cs: Commands, o: OrderId): set<CommandId> {
    set k | k in ids && k in cs && cs[k].order == Some(o)
  }

  lemma ServingGrows(ids: set<CommandId>, k: CommandId, cs: Commands, o: OrderId)
    requires k !in ids
    ensures |Serving(ids + {k}, cs, o)| == |Serving(ids, cs, o)| + if k in cs && cs[k].order == Some(o) then 1 else 0
  {
    assert Serving(ids + {k}, cs, o) == Serving(ids, cs, o) + if k in cs && cs[k].order == Some(o) then {k} else {};
  }

  lemma {:induction false} CountIsSet(failed: seq<CommandId>, cs: Commands, o: OrderId)
    requires |failed| == |Elements(failed)|
    ensures CountFor(failed, cs, o) == |Serving(Elements(failed), cs, o)|
  {
    if failed == [] {
      assert Serving(Elements(failed), cs, o) == {};
    } else {
      var last := |failed| - 1;
      var k, rest := failed[last], failed[..last];
      ElementsGrow(rest, k);
      assert rest + [k] == failed;
      IdSetSize(rest);
      assert k !in Elements(rest);
      CountIsSet(rest, cs, o);
      ServingGrows(Elements(rest), k, cs, o);
    }
  }

  lemma {:induction false} IdSetSize(s: seq<CommandId>)
    ensures |Elements(s)| <= |s|
  {
    if s != [] {
      IdSetSize(s[..|s| - 1]);
      ElementsGrow(s[..|s| - 1], s[|s| - 1]);
      assert s[..|s| - 1] + [s[|s| - 1]] == s;
    }
  }

  /** A command newly failed was failed by exactly one of the two loops. */
  lemma FailedOnce(b: Commands, m: Commands, a: Commands, failed: seq<CommandId>, stale: seq<CommandId>, now: Time, cfg: Config, o: OrderId, k: CommandId)
    requires TwoLoops(b, m, a, failed, stale, now, cfg)
    ensures k in NewlyFailed(b, a, o) <==> k in Serving(Elements(failed), m, o) || k in Serving(Elements(stale), a, o)
    ensures !(k in Serving(Elements(failed), m, o) && k in Serving(Elements(stale), a, o))
  {
    if k in b {
      assert m[k] == if k in Elements(failed) then Update(b[k], FailExhausted(b[k], now, cfg.maxAttempts)) else Update(b[k], Requeue(b[k], now));
      assert a[k] == if k in Elements(stale) then Update(m[k], FailStale(m[k], now - cfg.queueTimeout)) else m[k];
      assert k in Elements(failed) ==> k in ExhaustedIds(b, now, cfg.maxAttempts);
      assert k in Elements(stale) ==> k in StaleIds(m, now - cfg.queueTimeout);
    }
  }

  lemma NotesAddUp(b: Commands, m: Commands, a: Commands, failed: seq<CommandId>, stale: seq<CommandId>, now: Time, cfg: Config, o: OrderId)
    requires TwoLoops(b, m, a, failed, stale, now, cfg)
    ensures CountFor(failed, m, o) + CountFor(stale, a, o) == |NewlyFailed(b, a, o)|
  {
    CountIsSet(failed, m, o);
    CountIsSet(stale, a, o);
    var x, y := Serving(Elements(failed), m, o), Serving(Elements(stale), a, o);
    var z := NewlyFailed(b, a, o);
    forall k
      ensures (k in z <==> k in x || k in y) && !(k in x && k in y)
    {
      FailedOnce(b, m, a, failed, stale, now, cfg, o, k);
    }
    DisjointSizes(x, y, z);
  }

  lemma DisjointSizes(x: set<CommandId>, y: set<CommandId>, z: set<CommandId>)
    requires forall k :: (k in z <==> k in x || k in y) && !(k in x && k in y)
    ensures |z| == |x| + |y|
  {
    assert x !! y;
    assert z == x + y;
  }

  /** The listed commands are leased to the device, no older one was passed over, and nothing else changed. */
  ghost predicate LeasedOut(b: Commands, a: Commands, out: seq<CommandId>, device: DeviceId, providers: seq<string>, now: nat -> Time, ttl: Time) {
    && a.Keys == b.Keys && |out| == |Elements(out)|
    && (forall i :: 0 <= i < |out| ==> LeasedAt(b, a, out[i], device, providers, now(i) + ttl))
    && (forall k :: k in b && k !in Elements(out) ==> a[k] == b[k])
    && InOrder(b, a, out, providers)
  }

  /** One command leased until the given time. */
  predicate LeasedAt(b: Commands, a: Commands, k: CommandId, device: DeviceId, providers: seq<string>, expires: Time) {
    Leasable(b, k, providers) && k in a && a[k] == Update(b[k], Lease(b[k], device, providers, expires))
  }

  /** No command left in the queue is older than a leased one. */
  ghost predicate InOrder(b: Commands, a: Commands, out: seq<CommandId>, providers: seq<string>) {
    forall i, k :: i in Elements(out) && i in b && k in b && k in LeasableIds(a, providers) ==> b[i].createdAt <= b[k].createdAt
  }

  lemma LeaseMore(b: Commands, a: Commands, out: seq<CommandId>, k: CommandId, device: DeviceId, providers: seq<string>,
                  now: nat -> Time, ttl: Time, later: Commands)
    requires LeasedOut(b, a, out, device, providers, now, ttl) && k in LeasableIds(a, providers)
    requires forall i :: i in LeasableIds(a, providers) ==> a[k].createdAt <= a[i].createdAt
    requires later == a[k := Update(a[k], Lease(a[k], device, providers, now(|out|) + ttl))]
    ensures LeasedOut(b, later, out + [k], device, providers, now, ttl)
  {
    ElementsGrow(out, k);
    StillQueued(b, a, out, k, device, providers, now, ttl);
    StaysInOrder(b, a, out, k, device, providers, now, ttl, later);
    AllLeasedAt(b, a, out, k, device, providers, now, ttl, later);
  }

  lemma StillQueued(b: Commands, a: Commands, out: seq<CommandId>, k: CommandId, device: DeviceId, providers: seq<string>, now: nat -> Time, ttl: Time)
    requires LeasedOut(b, a, out, device, providers, now, ttl) && k in LeasableIds(a, providers)
    ensures k !in Elements(out) && k in b && a[k] == b[k]
    ensures forall i :: i in Elements(out) && i in a ==> a[i].status == Leased
  {
  }

  lemma AllLeasedAt(b: Commands, a: Commands, out: seq<CommandId>, k: CommandId, device: DeviceId, providers: seq<string>,
                    now: nat -> Time, ttl: Time, later: Commands)
    requires forall i :: 0 <= i < |out| ==> LeasedAt(b, a, out[i], device, providers, now(i) + ttl)
    requires k in LeasableIds(a, providers) && k in b && a[k] == b[k] && k !in Elements(out)
    requires later == a[k := Update(a[k], Lease(a[k], device, providers, now(|out|) + ttl))]
    ensures var all := out + [k];
            forall i :: 0 <= i < |all| ==> LeasedAt(b, later, all[i], device, providers, now(i) + ttl)
  {
    var all := out + [k];
    forall i | 0 <= i < |all|
      ensures LeasedAt(b, later, all[i], device, providers, now(i) + ttl)
    {
      if i < |out| {
        assert all[i] == out[i] && out[i] in Elements(out);
      }
    }
  }

  lemma StaysInOrder(b: Commands, a: Commands, out: seq<CommandId>, k: CommandId, device: DeviceId, providers: seq<string>,
                     now: nat -> Time, ttl: Time, later: Commands)
    requires LeasedOut(b, a, out, device, providers, now, ttl) && k in LeasableIds(a, providers)
    requires forall i :: i in LeasableIds(a, providers) ==> a[k].createdAt <= a[i].createdAt
    requires later == a[k := Update(a[k], Lease(a[k], device, providers, now(|out|) + ttl))]
    ensures InOrder(b, later, out + [k], providers)
  {
    ElementsGrow(out, k);
    StillQueued(b, a, out, k, device, providers, now, ttl);
    forall j | j in LeasableIds(later, providers)
      ensures j in LeasableIds(a, providers) && j !in Elements(out)
    {
      assert j != k;
    }
  }

  ghost predicate FailedSome(b: Commands, a: Commands, failed: seq<CommandId>, now: Time, max: nat) {
    && a.Keys == b.Keys && Elements(failed) <= ExhaustedIds(b, now, max) && |failed| == |Elements(failed)|
    && forall k :: k in b ==> a[k] == if k in Elements(failed) then Update(b[k], FailExhausted(b[k], now, max)) else b[k]
  }

  lemma FailMore(b: Commands, a: Commands, failed: seq<CommandId>, k: CommandId, now: Time, max: nat)
    requires FailedSome(b, a, failed, now, max) && k in ExhaustedIds(a, now, max)
    ensures FailedSome(b, a[k := Update(a[k], FailExhausted(a[k], now, max))], failed + [k], now, max)
  {
    ElementsGrow(failed, k);
  }

  lemma RequeueRest(b: Commands, a: Commands, failed: seq<CommandId>, now: Time, max: nat)
    requires FailedSome(b, a, failed, now, max)
    ensures Requeued(b, map k | k in a :: Update(a[k], Requeue(a[k], now)), failed, now, max)
  {
  }

  lemma TimeOutMore(b: Commands, a: Commands, failed: seq<CommandId>, k: CommandId, cutoff: Time)
    requires TimedOut(b, a, failed, cutoff) && k in StaleIds(a, cutoff)
    ensures TimedOut(b, a[k := Update(a[k], FailStale(a[k], cutoff))], failed + [k], cutoff)
  {
    ElementsGrow(failed, k);
  }

  lemma AllTimedOut(b: Commands, a: Commands, failed: seq<CommandId>, cutoff: Time)
    requires TimedOut(b, a, failed, cutoff) && (|failed| == REAP_LIMIT || StaleIds(a, cutoff) == {})
    ensures |StaleIds(b, cutoff)| <= REAP_LIMIT ==> Elements(failed) == StaleIds(b, cutoff)
  {
    SubsetSize(Elements(failed), StaleIds(b, cutoff));
    if StaleIds(a, cutoff) == {} {
      forall k | k in StaleIds(b, cutoff)
        ensures k in Elements(failed)
      {
        assert k !in StaleIds(a, cutoff);
      }
    }
  }

  lemma AllFailed(b: Commands, a: Commands, failed: seq<CommandId>, now: Time, max: nat)
    requires FailedSome(b, a, failed, now, max)
    requires |failed| == REAP_LIMIT || ExhaustedIds(a, now, max) == {}
    ensures |ExhaustedIds(b, now, max)| <= REAP_LIMIT ==> Elements(failed) == ExhaustedIds(b, now, max)
  {
    SubsetSize(Elements(failed), ExhaustedIds(b, now, max));
    if ExhaustedIds(a, now, max) == {} {
      forall k | k in ExhaustedIds(b, now, max)
        ensures k in Elements(failed)
      {
        assert k !in ExhaustedIds(a, now, max);
      }
    }
  }
}
