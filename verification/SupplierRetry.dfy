/**
 Re-dispatch of one order its supplier could not take: the retry clock, the
 give-up window and the stuck flag, under any number of settler replicas.
 */
module SupplierRetry {
  import opened Basics
  import opened Orders

  /** Minutes to wait before re-dispatch attempt n; the last delay repeats. */
  function BackoffDelay(n: nat): (d: Time)
    ensures d >= MINUTE
  {
    if n <= 1 then 1 * MINUTE else if n == 2 then 5 * MINUTE else if n == 3 then 15 * MINUTE else 60 * MINUTE
  }

  datatype Answer = Unavailable | Pending(ref: string) | Definite

  /** A replica working on the order from the copy it listed. */
  datatype Worker =
    | Listed(seen: Order)
    | Calling(seen: Order, begun: Time, afterStuck: bool)
    | Answered(seen: Order, answer: Answer)
    | Finished

  /**
   An upstream call: when its worker began, whether the order had been flagged
   stuck by then, and how many bumps had been missed before it.
   */
  datatype Upstream = Upstream(begun: Time, afterStuck: bool, missed: nat)

  /**
   `flags` counts winning stuck flags, `missed` the bumps of the retry clock that
   did nothing because they found the order away from processing.
   */
  datatype State = State(
    doc: Order,
    clock: Time,
    giveUp: Time,
    apiLine: bool,
    workers: seq<Worker>,
    calls: seq<Upstream>,
    flags: nat,
    missed: nat)

  datatype Action =
    | Pass(secs: nat)
    | List
    | Begin(i: nat)
    | Call(i: nat, answer: Answer)
    | Conclude(i: nat)
    | Poll(seen: Order)
    | Move(to: Status)
    | Revert

  /** An order just parked because the supplier was unavailable; the clock was read after its creation. */
  function Parked(o: Order, now: Time, giveUp: Time, apiLine: bool): State {
    var f := o.fulfillment.(retryCount := 0, nextRetryAt := Some(now + BackoffDelay(1)), stuckAt := None);
    State(o.(status := Processing, fulfillment := f), now, giveUp, apiLine, [], [], 0, 0)
  }

  predicate Due(s: State) {
    && s.doc.status == Processing
    && s.doc.fulfillment.nextRetryAt.Some? && s.doc.fulfillment.nextRetryAt.value <= s.clock
  }

  predicate Busy(s: State) {
    exists i :: 0 <= i < |s.workers| && s.workers[i] != Finished
  }

  predicate PastWindow(o: Order, now: Time, giveUp: Time) {
    now - o.createdAt > giveUp
  }

  /** The guarded flag: one winner, and the retry clock stops for good. */
  function FlagStuck(s: State): State {
    match MarkStuck(s.doc, s.clock, Event("stuck_upstream", "needs attention"))
    case Some(doc) => s.(doc := doc, flags := s.flags + 1)
    case None => s
  }

  function With(s: State, i: nat, w: Worker): State
    requires i < |s.workers|
  {
    s.(workers := s.workers[i := w])
  }

  /** The start of a re-dispatch: give up, or go on to call the supplier. */
  function BeginOne(s: State, i: nat, seen: Order): State
    requires i < |s.workers|
  {
    if PastWindow(s.doc, s.clock, s.giveUp) || !s.apiLine then With(FlagStuck(s), i, Finished)
    else With(s, i, Calling(seen, s.clock, s.doc.fulfillment.stuckAt.Some?))
  }

  function CallOne(s: State, i: nat, seen: Order, begun: Time, late: bool, answer: Answer): State
    requires i < |s.workers|
  {
    With(s.(calls := s.calls + [Upstream(begun, late, s.missed)]), i, Answered(seen, answer))
  }

  function ConcludeOne(s: State, i: nat, seen: Order, answer: Answer): State
    requires i < |s.workers|
  {
    match answer
    case Unavailable =>
      var n := seen.fulfillment.retryCount + 1;
      With(s.(doc := BumpRetry(s.doc, n, s.clock + BackoffDelay(n)), missed := s.missed + if s.doc.status == Processing then 0 else 1),
           i, Finished)
    case Pending(ref) =>
      With(s.(doc := SetSupplierRef(s.doc, ref, Event("processing", "awaiting upstream provider"))), i, Finished)
    case Definite => With(s, i, Finished)
  }

  /**
   Other actors take the order out of processing. Nobody brings it back there,
   except the revert of a refund whose money could not be returned.
   */
  function MoveOne(s: State, to: Status): State {
    if to == Status.Pending || to == Processing then s else s.(doc := SetStatus(s.doc, to))
  }

  function RevertOne(s: State): State {
    if s.doc.status == Refunded && Reversible(s.doc) then s.(doc := SetStatus(s.doc, Processing)) else s
  }

  function Next(s: State, a: Action): State {
    match a
    case Pass(secs) => s.(clock := s.clock + secs)
    case List => if Due(s) then s.(workers := s.workers + [Listed(s.doc)]) else s
    case Begin(i) => if i < |s.workers| && s.workers[i].Listed? then BeginOne(s, i, s.workers[i].seen) else s
    case Call(i, answer) =>
      if i < |s.workers| && s.workers[i].Calling? then CallOne(s, i, s.workers[i].seen, s.workers[i].begun, s.workers[i].afterStuck, answer) else s
    case Conclude(i) =>
      if i < |s.workers| && s.workers[i].Answered? then ConcludeOne(s, i, s.workers[i].seen, s.workers[i].answer) else s
    case Poll(seen) => if seen.fulfillment.stuckAt.None? && PastWindow(s.doc, s.clock, s.giveUp) then FlagStuck(s) else s
    case Move(to) => MoveOne(s, to)
    case Revert => RevertOne(s)
  }

  function Run(s: State, acts: seq<Action>): State {
    if acts == [] then s else Next(Run(s, acts[..|acts| - 1]), acts[|acts| - 1])
  }

  // ----- any number of replicas: flagged once, and no late starter calls -----

  ghost predicate StuckOk(s: State) {
    && s.flags == (if s.doc.fulfillment.stuckAt.Some? then 1 else 0)
    && (s.doc.fulfillment.stuckAt.Some? ==> PastWindow(s.doc, s.clock, s.giveUp) || !s.apiLine)
    && (forall i :: 0 <= i < |s.workers| && s.workers[i].Calling? ==> !s.workers[i].afterStuck)
    && (forall k :: 0 <= k < |s.calls| ==> !s.calls[k].afterStuck)
  }

  lemma BeginStuckKept(s: State, i: nat)
    requires StuckOk(s) && i < |s.workers| && s.workers[i].Listed?
    ensures StuckOk(Next(s, Begin(i)))
  {
  }

  lemma CallStuckKept(s: State, i: nat, answer: Answer)
    requires StuckOk(s) && i < |s.workers| && s.workers[i].Calling?
    ensures StuckOk(Next(s, Call(i, answer)))
  {
  }

  lemma ConcludeStuckKept(s: State, i: nat)
    requires StuckOk(s) && i < |s.workers| && s.workers[i].Answered?
    ensures StuckOk(Next(s, Conclude(i)))
  {
  }

  lemma StuckKept(s: State, a: Action)
    requires StuckOk(s)
    ensures StuckOk(Next(s, a))
  {
    match a
    case Begin(i) => if i < |s.workers| && s.workers[i].Listed? { BeginStuckKept(s, i); }
    case Call(i, answer) => if i < |s.workers| && s.workers[i].Calling? { CallStuckKept(s, i, answer); }
    case Conclude(i) => if i < |s.workers| && s.workers[i].Answered? { ConcludeStuckKept(s, i); }
    case _ =>
  }

  lemma {:induction false} RunStuckOk(s: State, acts: seq<Action>)
    requires StuckOk(s)
    ensures StuckOk(Run(s, acts))
    decreases |acts|
  {
    if acts != [] {
      RunStuckOk(s, acts[..|acts| - 1]);
      StuckKept(Run(s, acts[..|acts| - 1]), acts[|acts| - 1]);
    }
  }

  /**
   Whatever the replicas, the order is flagged stuck at most once, and no
   re-dispatch begun after that ever calls the supplier.
   */
  lemma FlaggedOnce(o: Order, now: Time, giveUp: Time, apiLine: bool, acts: seq<Action>)
    ensures var s := Run(Parked(o, now, giveUp, apiLine), acts);
            && s.flags <= 1 && (s.flags == 1 <==> s.doc.fulfillment.stuckAt.Some?)
            && forall k :: 0 <= k < |s.calls| ==> !s.calls[k].afterStuck
  {
    RunStuckOk(Parked(o, now, giveUp, apiLine), acts);
  }

  // ----- what a run of one settler with an unavailable supplier may not do -----

  /** The order is listed again while a worker is still on it. */
  predicate Overlaps(s: State, a: Action) {
    a.List? && Due(s) && Busy(s)
  }

  /** A refund is reverted after a bump was missed. */
  predicate Reopens(s: State, a: Action) {
    a.Revert? && s.missed > 0 && s.doc.status == Refunded && Reversible(s.doc)
  }

  /** One settler works on the order at a time. */
  ghost predicate OneSettler(s: State, acts: seq<Action>) {
    forall k :: 0 <= k < |acts| ==> !Overlaps(Run(s, acts[..k]), acts[k])
  }

  /** The supplier stays unavailable. */
  predicate StaysDown(acts: seq<Action>) {
    forall k :: 0 <= k < |acts| && acts[k].Call? ==> acts[k].answer.Unavailable?
  }

  /** No refund is reverted after a missed bump. */
  ghost predicate NeverReopened(s: State, acts: seq<Action>) {
    forall k :: 0 <= k < |acts| ==> !Reopens(Run(s, acts[..k]), acts[k])
  }

  lemma SettlerPrefix(s: State, acts: seq<Action>)
    requires OneSettler(s, acts) && StaysDown(acts) && acts != []
    ensures OneSettler(s, acts[..|acts| - 1]) && StaysDown(acts[..|acts| - 1])
    ensures !Overlaps(Run(s, acts[..|acts| - 1]), acts[|acts| - 1])
  {
    var last := |acts| - 1;
    assert forall k :: 0 <= k < last ==> acts[..last][..k] == acts[..k];
  }

  lemma ReopenedPrefix(s: State, acts: seq<Action>)
    requires NeverReopened(s, acts) && acts != []
    ensures NeverReopened(s, acts[..|acts| - 1]) && !Reopens(Run(s, acts[..|acts| - 1]), acts[|acts| - 1])
  {
    var last := |acts| - 1;
    assert forall k :: 0 <= k < last ==> acts[..last][..k] == acts[..k];
  }

  // ----- one settler: the schedule counts the calls whose bump was not missed -----

  /** Minutes after creation before which call k cannot come. */
  function Earliest(k: nat): int {
    if k == 0 then 0 else if k == 1 then 1 else if k == 2 then 2 else if k == 3 then 7 else 22 + 60 * (k - 4)
  }

  lemma EarliestStep(k: nat)
    ensures Earliest(k) * MINUTE + (if k == 0 then MINUTE else BackoffDelay(k)) == Earliest(k + 1) * MINUTE
  {
  }

  /** Call k may begin at this time. */
  predicate Reached(o: Order, at: Time, k: nat) {
    at >= o.createdAt + Earliest(k) * MINUTE
  }

  /** How far along the schedule the retry clock is. */
  function Level(s: State): nat {
    if s.missed <= |s.calls| then |s.calls| - s.missed else 0
  }

  /** The retry clock, where it is set, has counted n retries and waits for the next. */
  predicate Armed(s: State, n: nat) {
    s.doc.fulfillment.nextRetryAt.Some? ==>
      s.doc.fulfillment.retryCount == n && Reached(s.doc, s.doc.fulfillment.nextRetryAt.value, n + 1)
  }

  /** Where the only active worker stands; once it has its answer, the retry clock is one behind. */
  predicate WorkerOk(s: State, w: Worker) {
    match w
    case Listed(seen) =>
      seen.fulfillment.retryCount == Level(s) && Reached(s.doc, s.clock, Level(s) + 1) && Armed(s, Level(s))
    case Calling(seen, begun, _) =>
      && seen.fulfillment.retryCount == Level(s) && Armed(s, Level(s))
      && Reached(s.doc, begun, Level(s) + 1) && begun - s.doc.createdAt <= s.giveUp && begun <= s.clock
    case Answered(seen, answer) =>
      && answer.Unavailable? && seen.fulfillment.retryCount + 1 == Level(s)
      && Armed(s, seen.fulfillment.retryCount) && Reached(s.doc, s.clock, Level(s))
    case Finished => true
  }

  /** Call k came no earlier than the schedule allows after as many calls as were not missed, and within the window. */
  predicate CallOk(s: State, k: nat)
    requires k < |s.calls|
  {
    var c := s.calls[k];
    && c.missed <= k && c.missed <= s.missed
    && Reached(s.doc, c.begun, k + 1 - c.missed) && c.begun - s.doc.createdAt <= s.giveUp
  }

  ghost predicate OnSchedule(s: State) {
    && s.missed <= |s.calls|
    && (forall k :: 0 <= k < |s.calls| ==> CallOk(s, k))
    && (forall i, j :: 0 <= i < j < |s.workers| ==> s.workers[i] == Finished || s.workers[j] == Finished)
    && (forall i :: 0 <= i < |s.workers| ==> WorkerOk(s, s.workers[i]))
    && (Busy(s) || Armed(s, Level(s)))
  }

  /** The calls made so far are as they were, and no fewer bumps were missed. */
  lemma CallsStayOk(s: State, s': State)
    requires forall k :: 0 <= k < |s.calls| ==> CallOk(s, k)
    requires s'.calls == s.calls && s'.missed >= s.missed && s'.giveUp == s.giveUp && s'.doc.createdAt == s.doc.createdAt
    ensures forall k :: 0 <= k < |s'.calls| ==> CallOk(s', k)
  {
    forall k | 0 <= k < |s'.calls|
      ensures CallOk(s', k)
    {
      assert CallOk(s, k);
    }
  }

  lemma ConcludeOnSchedule(s: State, i: nat)
    requires OnSchedule(s) && i < |s.workers| && s.workers[i].Answered?
    ensures OnSchedule(Next(s, Conclude(i)))
  {
    assert WorkerOk(s, s.workers[i]);
    var s' := Next(s, Conclude(i));
    EarliestStep(Level(s));
    CallsStayOk(s, s');
    assert forall j :: 0 <= j < |s'.workers| ==> s'.workers[j] == Finished;
    ArmedAgain(s, i);
  }

  lemma ArmedAgain(s: State, i: nat)
    requires i < |s.workers| && s.workers[i].Answered? && WorkerOk(s, s.workers[i]) && s.missed <= |s.calls|
    requires Earliest(Level(s)) * MINUTE + BackoffDelay(Level(s)) == Earliest(Level(s) + 1) * MINUTE
    ensures Armed(Next(s, Conclude(i)), Level(Next(s, Conclude(i)))) && Next(s, Conclude(i)).missed <= |s.calls|
  {
  }

  lemma CallOnSchedule(s: State, i: nat, answer: Answer)
    requires OnSchedule(s) && i < |s.workers| && s.workers[i].Calling? && answer.Unavailable?
    ensures OnSchedule(Next(s, Call(i, answer)))
  {
    assert WorkerOk(s, s.workers[i]);
    var s' := Next(s, Call(i, answer));
    assert s'.workers[i] != Finished;
    forall k | 0 <= k < |s'.calls|
      ensures CallOk(s', k)
    {
      if k < |s.calls| {
        assert CallOk(s, k);
      }
    }
  }

  lemma BeginOnSchedule(s: State, i: nat)
    requires OnSchedule(s) && i < |s.workers| && s.workers[i].Listed?
    ensures OnSchedule(Next(s, Begin(i)))
  {
    assert WorkerOk(s, s.workers[i]);
    var s' := Next(s, Begin(i));
    CallsStayOk(s, s');
    if s'.workers[i] == Finished {
      assert forall j :: 0 <= j < |s'.workers| ==> s'.workers[j] == Finished;
    } else {
      assert s'.workers[i] != Finished;
    }
  }

  lemma ListOnSchedule(s: State)
    requires OnSchedule(s) && Due(s) && !Busy(s)
    ensures OnSchedule(Next(s, List))
  {
    var s' := Next(s, List);
    CallsStayOk(s, s');
    assert s'.workers[|s.workers|] == Listed(s.doc);
    assert forall i :: 0 <= i < |s.workers| ==> s'.workers[i] == s.workers[i] == Finished;
  }

  /** Only the clock, the status or the stuck flag changed; the retry clock is as it was, or stopped. */
  predicate Quietly(s: State, s': State) {
    && s' == s.(clock := s'.clock, doc := s'.doc, flags := s'.flags)
    && s'.clock >= s.clock && s'.doc.createdAt == s.doc.createdAt
    && (s'.doc.fulfillment.nextRetryAt.Some? ==>
          && s'.doc.fulfillment.nextRetryAt == s.doc.fulfillment.nextRetryAt
          && s'.doc.fulfillment.retryCount == s.doc.fulfillment.retryCount)
  }

  predicate Aside(a: Action) {
    a.Pass? || a.Poll? || a.Move? || a.Revert?
  }

  lemma AsideIsQuiet(s: State, a: Action)
    requires Aside(a)
    ensures Quietly(s, Next(s, a))
  {
  }

  lemma QuietWorker(s: State, s': State, w: Worker)
    requires Quietly(s, s') && WorkerOk(s, w)
    ensures WorkerOk(s', w)
  {
  }

  lemma QuietOnSchedule(s: State, s': State)
    requires OnSchedule(s) && Quietly(s, s')
    ensures OnSchedule(s')
  {
    CallsStayOk(s, s');
    forall i | 0 <= i < |s'.workers|
      ensures WorkerOk(s', s'.workers[i])
    {
      QuietWorker(s, s', s.workers[i]);
    }
    if Busy(s) {
      var i :| 0 <= i < |s.workers| && s.workers[i] != Finished;
      assert s'.workers[i] != Finished;
    }
  }

  lemma ScheduleKept(s: State, a: Action)
    requires OnSchedule(s) && !Overlaps(s, a) && (a.Call? ==> a.answer.Unavailable?)
    ensures OnSchedule(Next(s, a))
  {
    match a
    case List => if Due(s) { ListOnSchedule(s); }
    case Begin(i) => if i < |s.workers| && s.workers[i].Listed? { BeginOnSchedule(s, i); }
    case Call(i, answer) => if i < |s.workers| && s.workers[i].Calling? { CallOnSchedule(s, i, answer); }
    case Conclude(i) => if i < |s.workers| && s.workers[i].Answered? { ConcludeOnSchedule(s, i); }
    case _ =>
      AsideIsQuiet(s, a);
      QuietOnSchedule(s, Next(s, a));
  }

  lemma SameOrder(s: State, a: Action)
    ensures var s' := Next(s, a);
            && s'.giveUp == s.giveUp && s'.apiLine == s.apiLine
            && s'.doc.createdAt == s.doc.createdAt && (Reversible(s'.doc) <==> Reversible(s.doc))
  {
  }

  lemma {:induction false} RunSameOrder(s: State, acts: seq<Action>)
    ensures var r := Run(s, acts);
            && r.giveUp == s.giveUp && r.apiLine == s.apiLine
            && r.doc.createdAt == s.doc.createdAt && (Reversible(r.doc) <==> Reversible(s.doc))
    decreases |acts|
  {
    if acts != [] {
      RunSameOrder(s, acts[..|acts| - 1]);
      SameOrder(Run(s, acts[..|acts| - 1]), acts[|acts| - 1]);
    }
  }

  lemma {:induction false} RunOnSchedule(s: State, acts: seq<Action>)
    requires OnSchedule(s) && OneSettler(s, acts) && StaysDown(acts)
    ensures OnSchedule(Run(s, acts))
    decreases |acts|
  {
    if acts != [] {
      SettlerPrefix(s, acts);
      RunOnSchedule(s, acts[..|acts| - 1]);
      ScheduleKept(Run(s, acts[..|acts| - 1]), acts[|acts| - 1]);
    }
  }

  /**
   One settler and a supplier that stays unavailable, whatever anyone else does to
   the order: the k-th re-dispatch comes no earlier than the schedule of k less the
   bumps missed before it, 22 + 60 (n - 4) minutes after creation for n >= 4, and
   none begins after the give-up window.
   */
  lemma RetriesOnSchedule(o: Order, now: Time, giveUp: Time, apiLine: bool, acts: seq<Action>, k: nat)
    requires now >= o.createdAt && OneSettler(Parked(o, now, giveUp, apiLine), acts) && StaysDown(acts)
    requires 1 <= k <= |Run(Parked(o, now, giveUp, apiLine), acts).calls|
    ensures var s := Run(Parked(o, now, giveUp, apiLine), acts);
            var c := s.calls[k - 1];
            && c.missed < k && c.missed <= s.missed
            && c.begun >= o.createdAt + Earliest(k - c.missed) * MINUTE
            && (k - c.missed >= 4 ==> c.begun >= o.createdAt + (22 + 60 * (k - c.missed - 4)) * MINUTE)
            && c.begun <= o.createdAt + giveUp
  {
    RunOnSchedule(Parked(o, now, giveUp, apiLine), acts);
    RunSameOrder(Parked(o, now, giveUp, apiLine), acts);
    assert CallOk(Run(Parked(o, now, giveUp, apiLine), acts), k - 1);
  }

  /** With the default window of a day the supplier is asked again at most 27 times, and once more for each missed bump. */
  lemma RetriesBounded(o: Order, now: Time, apiLine: bool, acts: seq<Action>)
    requires now >= o.createdAt && OneSettler(Parked(o, now, 24 * 60 * MINUTE, apiLine), acts) && StaysDown(acts)
    ensures var s := Run(Parked(o, now, 24 * 60 * MINUTE, apiLine), acts); |s.calls| <= 27 + s.missed
  {
    var s := Run(Parked(o, now, 24 * 60 * MINUTE, apiLine), acts);
    if s.calls != [] {
      RetriesOnSchedule(o, now, 24 * 60 * MINUTE, apiLine, acts, |s.calls|);
    }
  }

  // ----- an order that is not reopened after a missed bump -----

  /** A missed bump leaves the order away from processing and without a worker, for good; so no call follows it. */
  ghost predicate NoneMissed(s: State) {
    && (s.missed > 0 ==> s.doc.status != Processing && !Busy(s))
    && forall k :: 0 <= k < |s.calls| ==> s.calls[k].missed == 0
  }

  lemma NoneMissedKept(s: State, a: Action)
    requires OnSchedule(s) && NoneMissed(s) && !Overlaps(s, a) && !Reopens(s, a)
    ensures NoneMissed(Next(s, a))
  {
    var s' := Next(s, a);
    if a.Conclude? && s' != s {
      assert forall j :: 0 <= j < |s'.workers| ==> s'.workers[j] == Finished;
    } else if s.missed > 0 {
      assert forall j :: 0 <= j < |s.workers| ==> s.workers[j] == Finished;
      assert s'.workers == s.workers;
    }
  }

  lemma {:induction false} RunNoneMissed(s: State, acts: seq<Action>)
    requires OnSchedule(s) && NoneMissed(s) && OneSettler(s, acts) && StaysDown(acts) && NeverReopened(s, acts)
    ensures NoneMissed(Run(s, acts))
    decreases |acts|
  {
    if acts != [] {
      var last := |acts| - 1;
      SettlerPrefix(s, acts);
      ReopenedPrefix(s, acts);
      RunNoneMissed(s, acts[..last]);
      RunOnSchedule(s, acts[..last]);
      NoneMissedKept(Run(s, acts[..last]), acts[last]);
    }
  }

  /** Every call on the plain schedule: the k-th no earlier than Earliest(k) minutes after creation. */
  ghost predicate Punctual(s: State) {
    forall k :: 0 <= k < |s.calls| ==> Reached(s.doc, s.calls[k].begun, k + 1)
  }

  /** Unless a refund is reverted after a missed bump, the schedule is the plain one, however the order is moved. */
  lemma PunctualUnlessReopened(o: Order, now: Time, giveUp: Time, apiLine: bool, acts: seq<Action>)
    requires now >= o.createdAt && OneSettler(Parked(o, now, giveUp, apiLine), acts) && StaysDown(acts)
    requires NeverReopened(Parked(o, now, giveUp, apiLine), acts)
    ensures Punctual(Run(Parked(o, now, giveUp, apiLine), acts))
  {
    var p := Parked(o, now, giveUp, apiLine);
    RunOnSchedule(p, acts);
    RunNoneMissed(p, acts);
    forall k | 0 <= k < |Run(p, acts).calls|
      ensures Reached(Run(p, acts).doc, Run(p, acts).calls[k].begun, k + 1)
    {
      assert CallOk(Run(p, acts), k);
    }
  }

  /** And then the supplier is asked again at most 27 times in a day. */
  lemma AtMost27Retries(o: Order, now: Time, apiLine: bool, acts: seq<Action>)
    requires now >= o.createdAt && OneSettler(Parked(o, now, 24 * 60 * MINUTE, apiLine), acts) && StaysDown(acts)
    requires NeverReopened(Parked(o, now, 24 * 60 * MINUTE, apiLine), acts)
    ensures |Run(Parked(o, now, 24 * 60 * MINUTE, apiLine), acts).calls| <= 27
  {
    var s := Run(Parked(o, now, 24 * 60 * MINUTE, apiLine), acts);
    PunctualUnlessReopened(o, now, 24 * 60 * MINUTE, apiLine, acts);
    if s.calls != [] {
      RetriesOnSchedule(o, now, 24 * 60 * MINUTE, apiLine, acts, |s.calls|);
      RunSameOrder(Parked(o, now, 24 * 60 * MINUTE, apiLine), acts);
      assert Reached(s.doc, s.calls[|s.calls| - 1].begun, |s.calls|);
    }
  }

  // ----- orders that cannot be asked for again, with any number of replicas -----

  /** Nothing calls the supplier before the first delay is over, after the window, or without a supplier line. */
  predicate WaitOk(s: State, first: Time, w: Worker) {
    match w
    case Listed(_) => s.clock >= first
    case Calling(_, begun, _) => s.apiLine && first <= begun <= s.doc.createdAt + s.giveUp
    case _ => true
  }

  ghost predicate Waits(s: State, first: Time) {
    && s.clock >= first - MINUTE
    && (s.doc.fulfillment.nextRetryAt.Some? ==> s.doc.fulfillment.nextRetryAt.value >= first)
    && (forall i :: 0 <= i < |s.workers| ==> WaitOk(s, first, s.workers[i]))
    && (s.calls != [] ==> s.apiLine && first <= s.doc.createdAt + s.giveUp)
  }

  lemma OthersWait(s: State, s': State, first: Time)
    requires Waits(s, first) && s'.workers == s.workers
    requires s'.clock >= s.clock && s'.apiLine == s.apiLine && s'.giveUp == s.giveUp && s'.doc.createdAt == s.doc.createdAt
    ensures forall i :: 0 <= i < |s'.workers| ==> WaitOk(s', first, s'.workers[i])
  {
    forall i | 0 <= i < |s'.workers|
      ensures WaitOk(s', first, s'.workers[i])
    {
      assert WaitOk(s, first, s.workers[i]);
    }
  }

  lemma WorkerWaits(s: State, i: nat, s': State, first: Time)
    requires Waits(s, first) && i < |s.workers| == |s'.workers|
    requires s' == s.(workers := s.workers[i := s'.workers[i]], doc := s'.doc, calls := s'.calls, flags := s'.flags, missed := s'.missed)
    requires s'.doc.createdAt == s.doc.createdAt && WaitOk(s', first, s'.workers[i])
    requires s'.doc.fulfillment.nextRetryAt.Some? ==> s'.doc.fulfillment.nextRetryAt.value >= first
    requires s'.calls != s.calls ==> s.apiLine && first <= s.doc.createdAt + s.giveUp
    ensures Waits(s', first)
  {
    OthersWait(s, s.(doc := s'.doc), first);
  }

  lemma WaitsKept(s: State, a: Action, first: Time)
    requires Waits(s, first)
    ensures Waits(Next(s, a), first)
  {
    match a
    case List =>
    case Begin(i) => if i < |s.workers| && s.workers[i].Listed? { BeginWaits(s, i, first); }
    case Call(i, answer) => if i < |s.workers| && s.workers[i].Calling? { CallWaits(s, i, answer, first); }
    case Conclude(i) => if i < |s.workers| && s.workers[i].Answered? { ConcludeWaits(s, i, first); }
    case _ =>
      AsideIsQuiet(s, a);
      OthersWait(s, Next(s, a), first);
  }

  lemma BeginWaits(s: State, i: nat, first: Time)
    requires Waits(s, first) && i < |s.workers| && s.workers[i].Listed?
    ensures Waits(Next(s, Begin(i)), first)
  {
    assert WaitOk(s, first, s.workers[i]);
    WorkerWaits(s, i, Next(s, Begin(i)), first);
  }

  lemma CallWaits(s: State, i: nat, answer: Answer, first: Time)
    requires Waits(s, first) && i < |s.workers| && s.workers[i].Calling?
    ensures Waits(Next(s, Call(i, answer)), first)
  {
    assert WaitOk(s, first, s.workers[i]);
    WorkerWaits(s, i, Next(s, Call(i, answer)), first);
  }

  lemma ConcludeWaits(s: State, i: nat, first: Time)
    requires Waits(s, first) && i < |s.workers| && s.workers[i].Answered?
    ensures Waits(Next(s, Conclude(i)), first)
  {
    WorkerWaits(s, i, Next(s, Conclude(i)), first);
  }

  lemma {:induction false} RunWaits(s: State, acts: seq<Action>, first: Time)
    requires Waits(s, first)
    ensures Waits(Run(s, acts), first)
    decreases |acts|
  {
    if acts != [] {
      RunWaits(s, acts[..|acts| - 1], first);
      WaitsKept(Run(s, acts[..|acts| - 1]), acts[|acts| - 1], first);
    }
  }

  /** The order can be asked for again at all: it has a supplier line, and the first delay ends within the window. */
  predicate CanRetry(o: Order, now: Time, giveUp: Time, apiLine: bool) {
    apiLine && now + MINUTE <= o.createdAt + giveUp
  }

  lemma NoneUnlessCanRetry(o: Order, now: Time, giveUp: Time, apiLine: bool, acts: seq<Action>)
    requires !CanRetry(o, now, giveUp, apiLine)
    ensures Run(Parked(o, now, giveUp, apiLine), acts).calls == []
  {
    RunWaits(Parked(o, now, giveUp, apiLine), acts, now + MINUTE);
    RunSameOrder(Parked(o, now, giveUp, apiLine), acts);
  }

  // ----- reopened again and again -----

  lemma Extends(s: State, acts: seq<Action>, a: Action) returns (more: seq<Action>)
    requires OneSettler(s, acts) && StaysDown(acts)
    requires !Overlaps(Run(s, acts), a) && (a.Call? ==> a.answer.Unavailable?)
    ensures more == acts + [a] && Run(s, more) == Next(Run(s, acts), a)
    ensures OneSettler(s, more) && StaysDown(more)
  {
    more := acts + [a];
    assert more[..|acts|] == acts;
    forall k | 0 <= k < |more|
      ensures !Overlaps(Run(s, more[..k]), more[k])
    {
      assert k < |acts| ==> more[..k] == acts[..k];
    }
  }

  /** Due, within the window, and nobody at work on it. */
  ghost predicate Ripe(s: State) {
    && s.doc.status == Processing && s.apiLine && Reversible(s.doc) && !PastWindow(s.doc, s.clock, s.giveUp)
    && s.doc.fulfillment.nextRetryAt.Some? && s.doc.fulfillment.nextRetryAt.value <= s.clock
    && forall i :: 0 <= i < |s.workers| ==> s.workers[i] == Finished
  }

  /** A call, its bump missed under a refund, and the refund reverted: all at one instant, and due again. */
  function Missed(s: State): State {
    s.(workers := s.workers + [Finished],
       calls := s.calls + [Upstream(s.clock, s.doc.fulfillment.stuckAt.Some?, s.missed)],
       missed := s.missed + 1)
  }

  lemma CallOnce(s: State, acts: seq<Action>) returns (more: seq<Action>)
    requires OneSettler(s, acts) && StaysDown(acts) && Ripe(Run(s, acts))
    ensures OneSettler(s, more) && StaysDown(more)
    ensures var r := Run(s, acts);
            Run(s, more) == r.(workers := r.workers + [Answered(r.doc, Unavailable)], calls := Missed(r).calls)
  {
    var r := Run(s, acts);
    var i := |r.workers|;
    more := Extends(s, acts, List);
    assert Run(s, more).workers[i] == Listed(r.doc);
    more := Extends(s, more, Begin(i));
    assert Run(s, more).workers == r.workers + [Calling(r.doc, r.clock, r.doc.fulfillment.stuckAt.Some?)];
    more := Extends(s, more, Call(i, Unavailable));
    assert Run(s, more).workers == r.workers + [Answered(r.doc, Unavailable)];
  }

  /** A bump that finds the order refunded leaves the retry clock due. */
  lemma BumpMissed(r: State, m: State, i: nat)
    requires m == r.(workers := r.workers + [Answered(r.doc, Unavailable)], calls := m.calls) && i == |r.workers|
    requires r.doc.status == Processing && Reversible(r.doc)
    ensures Next(Next(Next(m, Move(Refunded)), Conclude(i)), Revert)
            == m.(workers := r.workers + [Finished], missed := m.missed + 1)
  {
    var moved := Next(m, Move(Refunded));
    assert moved == m.(doc := SetStatus(r.doc, Refunded));
    var done := Next(moved, Conclude(i));
    assert done.workers == r.workers + [Finished] && done.doc == moved.doc;
    assert SetStatus(done.doc, Processing) == r.doc;
  }

  lemma MissOnce(s: State, acts: seq<Action>) returns (more: seq<Action>)
    requires OneSettler(s, acts) && StaysDown(acts) && Ripe(Run(s, acts))
    ensures OneSettler(s, more) && StaysDown(more) && Run(s, more) == Missed(Run(s, acts))
  {
    var r := Run(s, acts);
    more := CallOnce(s, acts);
    BumpMissed(r, Run(s, more), |r.workers|);
    more := Extends(s, more, Move(Refunded));
    more := Extends(s, more, Conclude(|r.workers|));
    more := Extends(s, more, Revert);
  }

  lemma FirstRipe(o: Order, now: Time, giveUp: Time) returns (acts: seq<Action>)
    requires CanRetry(o, now, giveUp, true) && Reversible(o)
    ensures var p := Parked(o, now, giveUp, true);
            OneSettler(p, acts) && StaysDown(acts) && Ripe(Run(p, acts)) && Run(p, acts) == p.(clock := now + MINUTE)
  {
    var p := Parked(o, now, giveUp, true);
    assert Run(p, []) == p;
    acts := Extends(p, [], Pass(MINUTE));
  }

  /**
   Every order that can be retried and whose money can be sent back has, for every
   n, a run of one settler and an unavailable supplier with n calls in one instant:
   each time a refund lands during the call, and is reverted because the money
   could not be returned.
   */
  lemma {:induction false} ReopenedCallsAtOnce(o: Order, now: Time, giveUp: Time, n: nat) returns (acts: seq<Action>)
    requires CanRetry(o, now, giveUp, true) && Reversible(o)
    ensures var p := Parked(o, now, giveUp, true);
            && OneSettler(p, acts) && StaysDown(acts) && Ripe(Run(p, acts))
            && Run(p, acts).doc == p.doc && Run(p, acts).clock == now + MINUTE
            && |Run(p, acts).calls| == n && Run(p, acts).missed == n
            && forall k :: 0 <= k < n ==> Run(p, acts).calls[k].begun == now + MINUTE
  {
    if n == 0 {
      acts := FirstRipe(o, now, giveUp);
    } else {
      var before := ReopenedCallsAtOnce(o, now, giveUp, n - 1);
      acts := MissOnce(Parked(o, now, giveUp, true), before);
    }
  }

  // ----- exactly when the schedule holds -----

  /** Reverting is all that breaks the schedule, so an order without money to send back keeps it. */
  lemma NeverReopenedWithoutMoney(s: State, acts: seq<Action>)
    requires !Reversible(s.doc)
    ensures NeverReopened(s, acts)
  {
    forall k | 0 <= k < |acts|
      ensures !Reopens(Run(s, acts[..k]), acts[k])
    {
      RunSameOrder(s, acts[..k]);
    }
  }

  lemma ScheduleBroken(o: Order, now: Time, giveUp: Time) returns (acts: seq<Action>)
    requires now >= o.createdAt && CanRetry(o, now, giveUp, true) && Reversible(o)
    ensures var p := Parked(o, now, giveUp, true);
            OneSettler(p, acts) && StaysDown(acts) && !Punctual(Run(p, acts))
  {
    var n: nat := 4 + now - o.createdAt;
    acts := ReopenedCallsAtOnce(o, now, giveUp, n);
    var s := Run(Parked(o, now, giveUp, true), acts);
    assert s.calls[n - 1].begun == now + MINUTE && Earliest(n) == 22 + 60 * (now - o.createdAt);
    assert !Reached(s.doc, s.calls[n - 1].begun, n - 1 + 1);
  }

  /**
   The schedule, exactly: with one settler and a supplier that stays unavailable,
   every call of every run comes on the plain schedule if and only if the order
   cannot be retried at all, or has no money that a refund could fail to return.
   */
  lemma PunctualExactly(o: Order, now: Time, giveUp: Time, apiLine: bool)
    requires now >= o.createdAt
    ensures var p := Parked(o, now, giveUp, apiLine);
            (forall acts :: OneSettler(p, acts) && StaysDown(acts) ==> Punctual(Run(p, acts)))
            <==> !CanRetry(o, now, giveUp, apiLine) || !Reversible(o)
  {
    var p := Parked(o, now, giveUp, apiLine);
    if !CanRetry(o, now, giveUp, apiLine) || !Reversible(o) {
      forall acts | OneSettler(p, acts) && StaysDown(acts)
        ensures Punctual(Run(p, acts))
      {
        if !CanRetry(o, now, giveUp, apiLine) {
          NoneUnlessCanRetry(o, now, giveUp, apiLine, acts);
        } else {
          NeverReopenedWithoutMoney(p, acts);
          PunctualUnlessReopened(o, now, giveUp, apiLine, acts);
        }
      }
    } else {
      var acts := ScheduleBroken(o, now, giveUp);
      assert OneSettler(p, acts) && StaysDown(acts) && !Punctual(Run(p, acts));
    }
  }
}
