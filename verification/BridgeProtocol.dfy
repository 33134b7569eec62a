/**
 Devices, reapers and operators working on the same commands at once.
 A run is any finite sequence of atomic steps; the clock only moves forward.
 */
module BridgeProtocol {
  import opened Basics
  import opened Orders
  import opened Bridge

  /** A command and its history: leases ever granted, operator retries, reports recorded since the last retry. */
  datatype Tracked = Tracked(cmd: Command, leases: nat, retries: nat, recorded: nat, succeeded: bool)

  /** A reaper pass between two of its writes; every write uses the time the pass began. */
  datatype Reaper =
    | Failing(now: Time, failed: nat)
    | Requeuing(now: Time)
    | Timing(now: Time)

  /** A bridge result on its way to its order: its own command, and whether it was a success. */
  datatype Settling = Settling(command: CommandId, success: bool)

  /**
   `overflowed` notes a pass that failed its limit of exhausted leases and left
   another, which its bulk requeue will put back in the queue.
   `completed` are the orders the bridge itself completed.
   */
  datatype State = State(
    clock: Time,
    config: Config,
    limit: nat,
    commands: seq<Tracked>,
    reapers: seq<Reaper>,
    settlings: seq<Settling>,
    orders: seq<Order>,
    completed: set<OrderId>,
    overflowed: bool)

  datatype Action =
    | Pass(secs: nat)
    | Create(order: Option<OrderId>, provider: string, kind: Kind, card: string)
    | LeaseOne(k: CommandId, device: DeviceId, providers: seq<string>)
    | Ingest(k: CommandId, device: DeviceId, report: Report)
    | RetryOne(k: CommandId)
    | CancelOne(k: CommandId)
    | StartReap
    | Reap(j: nat, k: CommandId)
    | Settle(j: nat)
    | PlaceOrder(placed: Order)
    | Elsewhere(o: OrderId, doc: Order)

  function Start(clock: Time, leaseTtl: Time, maxAttempts: int, queueTimeout: Time, limit: nat): State {
    State(clock, Sane(leaseTtl, maxAttempts, queueTimeout), limit, [], [], [], [], {}, false)
  }

  /** Commands only accumulate, keep their errand, and never lose a success. */
  predicate Extends(c: seq<Tracked>, d: seq<Tracked>) {
    && |c| <= |d|
    && forall k :: 0 <= k < |c| ==> SameErrand(c[k].cmd, d[k].cmd) && (c[k].succeeded ==> d[k].succeeded)
  }

  function Put(s: State, k: CommandId, c: Option<Command>): (r: State)
    requires k < |s.commands|
    requires c.Some? ==> SameErrand(s.commands[k].cmd, c.value)
    ensures Extends(s.commands, r.commands)
  {
    if c.Some? then s.(commands := s.commands[k := s.commands[k].(cmd := c.value)]) else s
  }

  function LeaseTo(s: State, k: CommandId, device: DeviceId, providers: seq<string>): (r: State)
    requires k < |s.commands|
    ensures Extends(s.commands, r.commands)
  {
    var t := s.commands[k];
    match Lease(t.cmd, device, providers, s.clock + s.config.leaseTtl)
    case Some(c) => s.(commands := s.commands[k := t.(cmd := c, leases := t.leases + 1)])
    case None => s
  }

  /** Records a report if its device still holds the lease; the order is settled afterwards. */
  function IngestResult(s: State, k: CommandId, device: DeviceId, report: Report): (r: State)
    requires k < |s.commands|
    ensures Extends(s.commands, r.commands)
  {
    var t := s.commands[k];
    match CompleteLeased(t.cmd, device, report)
    case Some(c) =>
      s.(commands := s.commands[k := t.(cmd := c, recorded := t.recorded + 1, succeeded := t.succeeded || c.status == Succeeded)],
         settlings := s.settlings + [Settling(k, c.status == Succeeded)])
    case None => s
  }

  function RetryCommand(s: State, k: CommandId): (r: State)
    requires k < |s.commands|
    ensures Extends(s.commands, r.commands)
  {
    var t := s.commands[k];
    match Retry(t.cmd)
    case Some(c) => s.(commands := s.commands[k := t.(cmd := c, retries := t.retries + 1, recorded := 0)])
    case None => s
  }

  predicate AnyExhausted(s: State, now: Time) {
    exists k :: 0 <= k < |s.commands| && Exhausted(s.commands[k].cmd, now, s.config.maxAttempts)
  }

  /** One write of a reaper pass on command k, or its move to the next phase. */
  function ReapStep(s: State, j: nat, k: CommandId): (r: State)
    requires j < |s.reapers|
    ensures Extends(s.commands, r.commands)
  {
    match s.reapers[j]
    case Failing(now, failed) =>
      if failed >= s.limit || !AnyExhausted(s, now) then
        s.(reapers := s.reapers[j := Requeuing(now)], overflowed := s.overflowed || AnyExhausted(s, now))
      else if k < |s.commands| && Exhausted(s.commands[k].cmd, now, s.config.maxAttempts) then
        Put(s, k, FailExhausted(s.commands[k].cmd, now, s.config.maxAttempts))
        .(reapers := s.reapers[j := Failing(now, failed + 1)], settlings := s.settlings + [Settling(k, false)])
      else s
    case Requeuing(now) =>
      if k < |s.commands| then Put(s, k, Requeue(s.commands[k].cmd, now))
      else s.(reapers := s.reapers[j := Timing(now)])
    case Timing(now) =>
      if k < |s.commands| && Stale(s.commands[k].cmd, now - s.config.queueTimeout) then
        Put(s, k, FailStale(s.commands[k].cmd, now - s.config.queueTimeout))
        .(settlings := s.settlings + [Settling(k, false)])
      else s
  }

  /** Completes the order of a succeeded command, or only notes the failure on it. */
  function SettleOrder(s: State, g: Settling): (r: State)
    ensures r.commands == s.commands && r.settlings == s.settlings
  {
    if g.command < |s.commands| && s.commands[g.command].cmd.order.Some?
       && s.commands[g.command].cmd.order.value < |s.orders| then
      var o := s.commands[g.command].cmd.order.value;
      if g.success then
        match Transition(s.orders[o], {Processing}, Completed, Event("completed", ""), TransferredBy("bridge"))
        case Some(doc) => s.(orders := s.orders[o := doc], completed := s.completed + {o})
        case None => s
      else s.(orders := s.orders[o := AppendEvent(s.orders[o], Event("bridge_failed", ""))])
    else s
  }

  function Next(s: State, a: Action): (r: State)
    ensures Extends(s.commands, r.commands)
  {
    match a
    case Pass(secs) => s.(clock := s.clock + secs)
    case Create(order, provider, kind, card) =>
      s.(commands := s.commands + [Tracked(Command(order, provider, kind, card, Queued, 0, None, None, None, "", s.clock), 0, 0, 0, false)])
    case LeaseOne(k, device, providers) => if k < |s.commands| then LeaseTo(s, k, device, providers) else s
    case Ingest(k, device, report) => if k < |s.commands| then IngestResult(s, k, device, report) else s
    case RetryOne(k) => if k < |s.commands| then RetryCommand(s, k) else s
    case CancelOne(k) => if k < |s.commands| then Put(s, k, Cancel(s.commands[k].cmd)) else s
    case StartReap => s.(reapers := s.reapers + [Failing(s.clock, 0)])
    case Reap(j, k) => if j < |s.reapers| then ReapStep(s, j, k) else s
    case Settle(j) =>
      if j < |s.settlings| then SettleOrder(s, s.settlings[j]).(settlings := s.settlings[..j] + s.settlings[j + 1..]) else s
    case PlaceOrder(placed) => s.(orders := s.orders + [placed])
    case Elsewhere(o, doc) => if o < |s.orders| then s.(orders := s.orders[o := doc]) else s
  }

  function Run(s: State, acts: seq<Action>): State {
    if acts == [] then s else Next(Run(s, acts[..|acts| - 1]), acts[|acts| - 1])
  }

  // ----- attempts are bounded -----

  /** Attempts and leases of one command within their bounds. */
  predicate Bounded(t: Tracked, max: nat) {
    && t.cmd.attempts <= max
    && (t.cmd.status == Queued ==> t.cmd.attempts < max)
    && (t.cmd.status == Leased ==> t.cmd.expires.Some?)
    && t.leases <= t.cmd.attempts + max * t.retries
  }

  /** A reaper past its failing phase left no exhausted lease for its requeue to find. */
  ghost predicate Swept(s: State, r: Reaper) {
    && r.now <= s.clock
    && (r.Requeuing? ==> !AnyExhausted(s, r.now))
  }

  ghost predicate Inv(s: State) {
    && s.config.maxAttempts > 0 && s.config.leaseTtl > 0
    && (forall k :: 0 <= k < |s.commands| ==> Bounded(s.commands[k], s.config.maxAttempts))
    && (forall j :: 0 <= j < |s.reapers| ==> Swept(s, s.reapers[j]))
  }

  /** No step makes a lease that had not run out before a past moment run out before it. */
  ghost predicate NothingExpires(s: State, s': State) {
    && s'.config == s.config && s.clock <= s'.clock && s'.reapers == s.reapers
    && forall k, now :: 0 <= k < |s'.commands| && now <= s.clock && Exhausted(s'.commands[k].cmd, now, s.config.maxAttempts) ==>
                          k < |s.commands| && Exhausted(s.commands[k].cmd, now, s.config.maxAttempts)
  }

  lemma StillSwept(s: State, s': State)
    requires Inv(s) && NothingExpires(s, s')
    ensures forall j :: 0 <= j < |s'.reapers| ==> Swept(s', s'.reapers[j])
  {
    forall j | 0 <= j < |s'.reapers|
      ensures Swept(s', s'.reapers[j])
    {
      assert Swept(s, s.reapers[j]);
    }
  }

  lemma RetryBounded(t: Tracked, max: nat)
    requires Bounded(t, max) && max > 0 && Retry(t.cmd).Some?
    ensures Bounded(t.(cmd := Retry(t.cmd).value, retries := t.retries + 1), max)
  {
    assert max * (t.retries + 1) == max * t.retries + max;
  }

  lemma ReapKeeps(s: State, j: nat, k: CommandId)
    requires Inv(s) && j < |s.reapers| && !ReapStep(s, j, k).overflowed
    ensures Inv(ReapStep(s, j, k))
  {
    var s' := ReapStep(s, j, k);
    assert Swept(s, s.reapers[j]);
    assert NothingExpires(s, s'.(reapers := s.reapers));
    StillSwept(s, s'.(reapers := s.reapers));
    forall i | 0 <= i < |s'.reapers|
      ensures Swept(s', s'.reapers[i])
    {
      assert Swept(s'.(reapers := s.reapers), s.reapers[i]);
    }
  }

  /** A step on one command that leaves reapers, clock and configuration alone. */
  lemma CommandStepKeeps(s: State, k: CommandId, t: Tracked, s': State)
    requires Inv(s) && k < |s.commands|
    requires s'.commands == s.commands[k := t] && s'.config == s.config && s'.clock == s.clock && s'.reapers == s.reapers
    requires Bounded(t, s.config.maxAttempts)
    requires t.cmd.status == Leased && t.cmd != s.commands[k].cmd ==> t.cmd.expires.Some? && t.cmd.expires.value >= s.clock
    ensures Inv(s')
  {
    StillSwept(s, s');
  }

  lemma LeaseKeeps(s: State, k: CommandId, device: DeviceId, providers: seq<string>)
    requires Inv(s) && k < |s.commands|
    ensures Inv(LeaseTo(s, k, device, providers))
  {
    var s' := LeaseTo(s, k, device, providers);
    CommandStepKeeps(s, k, s'.commands[k], s');
  }

  lemma RetryKeeps(s: State, k: CommandId)
    requires Inv(s) && k < |s.commands|
    ensures Inv(RetryCommand(s, k))
  {
    var s' := RetryCommand(s, k);
    if Retry(s.commands[k].cmd).Some? {
      RetryBounded(s.commands[k], s.config.maxAttempts);
    }
    CommandStepKeeps(s, k, s'.commands[k], s');
  }

  lemma NextKeeps(s: State, a: Action)
    requires Inv(s) && !Next(s, a).overflowed
    ensures Inv(Next(s, a))
  {
    var s' := Next(s, a);
    match a
    case Reap(j, k) => if j < |s.reapers| { ReapKeeps(s, j, k); }
    case StartReap => StillSwept(s, s);
    case LeaseOne(k, device, providers) => if k < |s.commands| { LeaseKeeps(s, k, device, providers); }
    case RetryOne(k) => if k < |s.commands| { RetryKeeps(s, k); }
    case Ingest(k, device, report) =>
      if k < |s.commands| {
        CommandStepKeeps(s, k, s'.commands[k], s');
      }
    case CancelOne(k) =>
      if k < |s.commands| {
        CommandStepKeeps(s, k, s'.commands[k], s');
      }
    case Create(_, _, _, _) => StillSwept(s, s');
    case Pass(_) => StillSwept(s, s');
    case _ => StillSwept(s, s');
  }

  lemma OverflowStays(s: State, a: Action)
    ensures s.overflowed ==> Next(s, a).overflowed
    ensures Next(s, a).config == s.config && Next(s, a).limit == s.limit
  {
  }

  lemma {:induction false} RunKeeps(s: State, acts: seq<Action>)
    requires Inv(s) && !Run(s, acts).overflowed
    ensures Inv(Run(s, acts)) && Run(s, acts).config == s.config
    decreases |acts|
  {
    if acts != [] {
      var last := |acts| - 1;
      OverflowStays(Run(s, acts[..last]), acts[last]);
      RunKeeps(s, acts[..last]);
      NextKeeps(Run(s, acts[..last]), acts[last]);
    }
  }

  /**
   However many devices, reapers and operators interleave, a command is never
   queued with its attempts used up, and its leases over its whole life stay
   within the attempts of each retry: as long as no reaper pass overflowed.
   */
  lemma LeasesBounded(clock: Time, ttl: Time, max: int, timeout: Time, limit: nat, acts: seq<Action>, k: CommandId)
    requires var s := Run(Start(clock, ttl, max, timeout, limit), acts);
             !s.overflowed && k < |s.commands|
    ensures var s := Run(Start(clock, ttl, max, timeout, limit), acts);
            var t := s.commands[k];
            && (t.cmd.status == Queued ==> t.cmd.attempts < s.config.maxAttempts)
            && (t.cmd.status == Leased ==> t.cmd.attempts <= s.config.maxAttempts)
            && t.leases <= s.config.maxAttempts * (1 + t.retries)
  {
    var s := Run(Start(clock, ttl, max, timeout, limit), acts);
    RunKeeps(Start(clock, ttl, max, timeout, limit), acts);
    var t := s.commands[k];
    assert Bounded(t, s.config.maxAttempts);
    assert s.config.maxAttempts * (1 + t.retries) == s.config.maxAttempts + s.config.maxAttempts * t.retries;
  }

  // ----- results are recorded once, and terminal states hold -----

  /** A recorded result belongs to the current try, and success is final. */
  predicate HistoryOk(t: Tracked) {
    && (t.cmd.status == Queued || t.cmd.status == Leased ==> t.cmd.result.None?)
    && t.recorded == (if t.cmd.result.Some? then 1 else 0)
    && (t.succeeded <==> t.cmd.status == Succeeded)
    && (t.succeeded ==> t.cmd.result.Some? && IsSuccessCode(t.cmd.result.value.code))
  }

  predicate SettlingOk(commands: seq<Tracked>, g: Settling) {
    g.command < |commands| && (g.success ==> commands[g.command].succeeded)
  }

  ghost predicate CompletedBySuccess(commands: seq<Tracked>, o: OrderId) {
    exists k :: 0 <= k < |commands| && commands[k].succeeded && commands[k].cmd.order == Some(o)
  }

  ghost predicate ResultsOk(s: State) {
    && (forall k :: 0 <= k < |s.commands| ==> HistoryOk(s.commands[k]))
    && (forall j :: 0 <= j < |s.settlings| ==> SettlingOk(s.commands, s.settlings[j]))
    && (forall o :: o in s.completed ==> CompletedBySuccess(s.commands, o))
  }

  lemma SuccessStays(c: seq<Tracked>, d: seq<Tracked>, o: OrderId)
    requires Extends(c, d) && CompletedBySuccess(c, o)
    ensures CompletedBySuccess(d, o)
  {
    var k :| 0 <= k < |c| && c[k].succeeded && c[k].cmd.order == Some(o);
    assert d[k].succeeded;
  }

  lemma SettleResultsOk(s: State, j: nat)
    requires ResultsOk(s) && j < |s.settlings|
    ensures ResultsOk(Next(s, Settle(j)))
  {
    var s' := Next(s, Settle(j));
    assert SettlingOk(s.commands, s.settlings[j]);
    forall o | o in s'.completed
      ensures CompletedBySuccess(s'.commands, o)
    {
      if o !in s.completed {
        assert s.commands[s.settlings[j].command].succeeded;
      }
    }
  }

  lemma ReapHistoriesKept(s: State, j: nat, k: CommandId)
    requires j < |s.reapers| && forall i :: 0 <= i < |s.commands| ==> HistoryOk(s.commands[i])
    ensures var s' := ReapStep(s, j, k); forall i :: 0 <= i < |s'.commands| ==> HistoryOk(s'.commands[i])
  {
  }

  lemma HistoriesKept(s: State, a: Action)
    requires forall k :: 0 <= k < |s.commands| ==> HistoryOk(s.commands[k])
    ensures forall k :: 0 <= k < |Next(s, a).commands| ==> HistoryOk(Next(s, a).commands[k])
  {
    if a.Reap? && a.j < |s.reapers| {
      ReapHistoriesKept(s, a.j, a.k);
    }
  }

  lemma SettlingsKept(s: State, a: Action)
    requires ResultsOk(s) && !a.Settle?
    ensures var s' := Next(s, a); forall j :: 0 <= j < |s'.settlings| ==> SettlingOk(s'.commands, s'.settlings[j])
  {
    var s' := Next(s, a);
    forall j | 0 <= j < |s'.settlings|
      ensures SettlingOk(s'.commands, s'.settlings[j])
    {
      if j < |s.settlings| {
        assert s'.settlings[j] == s.settlings[j] && SettlingOk(s.commands, s.settlings[j]);
      }
    }
  }

  lemma ResultsKept(s: State, a: Action)
    requires ResultsOk(s)
    ensures ResultsOk(Next(s, a))
  {
    var s' := Next(s, a);
    if a.Settle? {
      if a.j < |s.settlings| {
        SettleResultsOk(s, a.j);
      }
    } else {
      HistoriesKept(s, a);
      SettlingsKept(s, a);
      assert s'.completed == s.completed;
      forall o | o in s'.completed
        ensures CompletedBySuccess(s'.commands, o)
      {
        SuccessStays(s.commands, s'.commands, o);
      }
    }
  }

  lemma {:induction false} RunResultsOk(s: State, acts: seq<Action>)
    requires ResultsOk(s)
    ensures ResultsOk(Run(s, acts))
    decreases |acts|
  {
    if acts != [] {
      RunResultsOk(s, acts[..|acts| - 1]);
      ResultsKept(Run(s, acts[..|acts| - 1]), acts[|acts| - 1]);
    }
  }

  /** Between operator retries at most one report is recorded; success is final; only success completes an order. */
  lemma RecordedOncePerTry(clock: Time, ttl: Time, max: int, timeout: Time, limit: nat, acts: seq<Action>)
    ensures var s := Run(Start(clock, ttl, max, timeout, limit), acts);
            && (forall k :: 0 <= k < |s.commands| ==>
                  && s.commands[k].recorded <= 1
                  && (s.commands[k].recorded == 1 <==> s.commands[k].cmd.result.Some?)
                  && (s.commands[k].succeeded <==> s.commands[k].cmd.status == Succeeded))
            && (forall o :: o in s.completed ==> CompletedBySuccess(s.commands, o))
  {
    RunResultsOk(Start(clock, ttl, max, timeout, limit), acts);
    var s := Run(Start(clock, ttl, max, timeout, limit), acts);
    assert forall k :: 0 <= k < |s.commands| ==> HistoryOk(s.commands[k]);
  }

  /** A terminal command, with its result, stays as it is until an operator retries it. */
  lemma {:induction false} TerminalStays(s: State, acts: seq<Action>, k: CommandId)
    requires k < |s.commands| && IsTerminal(s.commands[k].cmd.status)
    requires forall i :: 0 <= i < |acts| ==> acts[i] != RetryOne(k)
    ensures k < |Run(s, acts).commands| && Run(s, acts).commands[k] == s.commands[k]
    decreases |acts|
  {
    if acts != [] {
      var last := |acts| - 1;
      TerminalStays(s, acts[..last], k);
      TerminalStep(Run(s, acts[..last]), acts[last], k);
    }
  }

  lemma TerminalStep(s: State, a: Action, k: CommandId)
    requires k < |s.commands| && IsTerminal(s.commands[k].cmd.status) && a != RetryOne(k)
    ensures k < |Next(s, a).commands| && Next(s, a).commands[k] == s.commands[k]
  {
  }

  /**
   Failures, partial results, exhausted leases and timeouts never change an
   order's status or money: through any run in which nobody else writes the order,
   the bridge at most completes it once, from processing, and then because one of
   its commands succeeded.
   */
  lemma BridgeOnlyCompletes(s: State, acts: seq<Action>, o: OrderId)
    requires ResultsOk(s) && o < |s.orders| && o !in s.completed
    requires forall k :: 0 <= k < |acts| && acts[k].Elsewhere? ==> acts[k].o != o
    ensures o < |Run(s, acts).orders|
    ensures var before, after := s.orders[o], Run(s, acts).orders[o];
            && SameMoney(before, after)
            && (after.status != before.status ==>
                  before.status == Processing && after.status == Completed && CompletedBySuccess(Run(s, acts).commands, o))
  {
    RunOnlyCompletes(s, acts, o);
    RunResultsOk(s, acts);
  }

  lemma {:induction false} RunOnlyCompletes(s: State, acts: seq<Action>, o: OrderId)
    requires o < |s.orders| && forall k :: 0 <= k < |acts| && acts[k].Elsewhere? ==> acts[k].o != o
    ensures o < |Run(s, acts).orders|
    ensures OnlyCompleted(s.orders[o], Run(s, acts).orders[o], o in Run(s, acts).completed)
    decreases |acts|
  {
    if acts != [] {
      RunOnlyCompletes(s, acts[..|acts| - 1], o);
      StepOnlyCompletes(Run(s, acts[..|acts| - 1]), acts[|acts| - 1], o);
    }
  }

  lemma StepOnlyCompletes(s: State, a: Action, o: OrderId)
    requires o < |s.orders| && (a.Elsewhere? ==> a.o != o)
    ensures o < |Next(s, a).orders| && s.completed <= Next(s, a).completed
    ensures OnlyCompleted(s.orders[o], Next(s, a).orders[o], o in Next(s, a).completed)
  {
  }

  /** Nothing changed but notes, or the order went from processing to completed, and is then listed. */
  predicate OnlyCompleted(before: Order, after: Order, listed: bool) {
    && SameMoney(before, after)
    && (after.status != before.status ==> before.status == Processing && after.status == Completed && listed)
  }

  predicate SameMoney(o: Order, r: Order) {
    o.total == r.total && o.payment == r.payment && o.paymentRef == r.paymentRef && o.user == r.user && o.items == r.items
  }
}
