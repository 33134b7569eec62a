/**
 Where the bound on attempts ends: for every limit of a reaper pass and every
 number of attempts, a run that leases a command once too often.
 */
module BridgeOverflow {
  import opened Basics
  import opened Orders
  import opened Bridge
  import opened BridgeProtocol

  lemma RunExtends(s: State, acts: seq<Action>, a: Action) returns (more: seq<Action>)
    ensures more == acts + [a] && Run(s, more) == Next(Run(s, acts), a)
  {
    more := acts + [a];
    assert more[..|more| - 1] == acts;
  }

  lemma RunThree(s: State, acts: seq<Action>, a: Action, b: Action, c: Action) returns (more: seq<Action>)
    ensures Run(s, more) == Next(Next(Next(Run(s, acts), a), b), c)
  {
    more := RunExtends(s, acts, a);
    more := RunExtends(s, more, b);
    more := RunExtends(s, more, c);
  }

  lemma RunJoins(s: State, acts: seq<Action>, more: seq<Action>)
    ensures Run(s, acts + more) == Run(Run(s, acts), more)
    decreases |more|
  {
    if more == [] {
      assert acts + more == acts;
    } else {
      assert (acts + more)[..|acts + more| - 1] == acts + more[..|more| - 1];
      RunJoins(s, acts, more[..|more| - 1]);
    }
  }

  lemma Then(s: State, acts: seq<Action>, more: seq<Action>) returns (all: seq<Action>)
    ensures all == acts + more && Run(s, all) == Run(Run(s, acts), more)
  {
    all := acts + more;
    RunJoins(s, acts, more);
  }

  /** A command never retried, leased n times, and leased until the given time. */
  predicate Spent(t: Tracked, until: Time, n: nat) {
    t.cmd.status == Leased && t.cmd.attempts == n && t.cmd.expires == Some(until) && t.leases == n && t.retries == 0
  }

  /** A command never retried, leased n times, and back in the queue. */
  predicate Back(t: Tracked, n: nat) {
    t.cmd.status == Queued && t.cmd.attempts == n && t.leases == n && t.retries == 0
  }

  ghost predicate AllSpent(s: State, until: Time, n: nat) {
    forall i :: 0 <= i < |s.commands| ==> Spent(s.commands[i], until, n)
  }

  ghost predicate AllBack(s: State, n: nat) {
    forall i :: 0 <= i < |s.commands| ==> Back(s.commands[i], n)
  }

  /** From s to r only commands changed, as many as before. */
  predicate SameStage(s: State, r: State) {
    r == s.(commands := r.commands) && |r.commands| == |s.commands|
  }

  // ----- filling the queue -----

  lemma CreateOne(s: State, i: nat, r: State)
    requires r == s.(commands := r.commands) && |r.commands| == i && AllBack(r, 0)
    ensures var d := Next(r, Create(None, "", CheckBalance, ""));
            d == s.(commands := d.commands) && |d.commands| == i + 1 && AllBack(d, 0)
  {
  }

  lemma CreateMany(s: State, n: nat) returns (acts: seq<Action>)
    requires s.commands == []
    ensures var r := Run(s, acts); |r.commands| == n && AllBack(r, 0) && r == s.(commands := r.commands)
  {
    acts := [];
    var r := s;
    for i := 0 to n
      invariant r == Run(s, acts) && r == s.(commands := r.commands) && |r.commands| == i && AllBack(r, 0)
    {
      CreateOne(s, i, r);
      r := Next(r, Create(None, "", CheckBalance, ""));
      acts := RunExtends(s, acts, Create(None, "", CheckBalance, ""));
    }
  }

  // ----- every command leased once more -----

  ghost predicate Leasing(s: State, r: State, i: nat, m: nat) {
    && SameStage(s, r) && i <= |r.commands|
    && (forall k :: 0 <= k < i ==> Spent(r.commands[k], s.clock + s.config.leaseTtl, m + 1))
    && (forall k :: i <= k < |r.commands| ==> Back(r.commands[k], m))
  }

  lemma LeasingStep(s: State, r: State, i: nat, m: nat)
    requires Leasing(s, r, i, m) && i < |r.commands|
    ensures Leasing(s, Next(r, LeaseOne(i, 0, [])), i + 1, m)
  {
  }

  lemma LeaseRound(s: State, m: nat) returns (acts: seq<Action>)
    requires AllBack(s, m)
    ensures SameStage(s, Run(s, acts)) && AllSpent(Run(s, acts), s.clock + s.config.leaseTtl, m + 1)
  {
    acts := [];
    var r := s;
    for i := 0 to |s.commands|
      invariant r == Run(s, acts) && Leasing(s, r, i, m)
    {
      LeasingStep(s, r, i, m);
      r := Next(r, LeaseOne(i, 0, []));
      acts := RunExtends(s, acts, LeaseOne(i, 0, []));
    }
  }

  // ----- every expired lease put back by the last reaper -----

  ghost predicate PuttingBack(s: State, r: State, i: nat, until: Time, m: nat) {
    && SameStage(s, r) && i <= |r.commands|
    && (forall k :: 0 <= k < i ==> Back(r.commands[k], m))
    && (forall k :: i <= k < |r.commands| ==> Spent(r.commands[k], until, m))
  }

  predicate LastRequeues(s: State, until: Time) {
    |s.reapers| > 0 && s.reapers[|s.reapers| - 1].Requeuing? && until < s.reapers[|s.reapers| - 1].now
  }

  lemma RequeuingStep(s: State, r: State, i: nat, until: Time, m: nat)
    requires PuttingBack(s, r, i, until, m) && i < |r.commands| && LastRequeues(s, until)
    ensures PuttingBack(s, Next(r, Reap(|s.reapers| - 1, i)), i + 1, until, m)
  {
  }

  lemma RequeueRound(s: State, until: Time, m: nat) returns (acts: seq<Action>)
    requires LastRequeues(s, until) && AllSpent(s, until, m)
    ensures SameStage(s, Run(s, acts)) && AllBack(Run(s, acts), m)
  {
    acts := [];
    var r := s;
    for i := 0 to |s.commands|
      invariant r == Run(s, acts) && PuttingBack(s, r, i, until, m)
    {
      RequeuingStep(s, r, i, until, m);
      r := Next(r, Reap(|s.reapers| - 1, i));
      acts := RunExtends(s, acts, Reap(|s.reapers| - 1, i));
    }
  }

  // ----- one round: lease all, let them run out, put them back -----

  /** The clock passes every lease, and a pass begins. */
  lemma Expire(s: State) returns (acts: seq<Action>)
    ensures var r := Run(s, acts);
            && SameRules(s, r) && r.commands == s.commands
            && r.reapers == s.reapers + [Failing(r.clock, 0)] && r.clock > s.clock + s.config.leaseTtl
  {
    var wait := if s.config.leaseTtl >= 0 then s.config.leaseTtl + 1 else 1;
    assert Run(s, []) == s;
    acts := RunExtends(s, [], Pass(wait));
    acts := RunExtends(s, acts, StartReap);
  }

  /** A pass that finds nothing exhausted goes on to requeue. */
  lemma PassGoesOn(s: State, until: Time, n: nat)
    requires |s.reapers| > 0 && s.reapers[|s.reapers| - 1].Failing? && AllSpent(s, until, n) && n < s.config.maxAttempts
    ensures var j := |s.reapers| - 1;
            Next(s, Reap(j, 0)) == s.(reapers := s.reapers[j := Requeuing(s.reapers[j].now)])
  {
  }

  predicate SameRules(s: State, r: State) {
    |r.commands| == |s.commands| && r.config == s.config && r.limit == s.limit
  }

  /** Every command has been leased n times, every lease has run out, and a pass is about to begin. */
  ghost predicate RanOut(s: State, r: State, until: Time, n: nat) {
    && SameRules(s, r) && AllSpent(r, until, n) && until < r.clock
    && |r.reapers| > 0 && r.reapers[|r.reapers| - 1] == Failing(r.clock, 0)
  }

  lemma LeaseAndExpire(s: State, m: nat) returns (acts: seq<Action>, until: Time)
    requires AllBack(s, m)
    ensures RanOut(s, Run(s, acts), until, m + 1)
  {
    until := s.clock + s.config.leaseTtl;
    var lease := LeaseRound(s, m);
    var expire := LetExpire(s, Run(s, lease), until, m + 1);
    acts := Then(s, lease, expire);
  }

  lemma LetExpire(s: State, r: State, until: Time, n: nat) returns (acts: seq<Action>)
    requires SameStage(s, r) && AllSpent(r, until, n) && until == r.clock + r.config.leaseTtl
    ensures RanOut(s, Run(r, acts), until, n)
  {
    acts := Expire(r);
    RunOut(s, r, Run(r, acts), until, n);
  }

  lemma RunOut(s: State, r: State, d: State, until: Time, n: nat)
    requires SameStage(s, r) && AllSpent(r, until, n) && until == r.clock + r.config.leaseTtl
    requires SameRules(r, d) && d.commands == r.commands
    requires d.reapers == r.reapers + [Failing(d.clock, 0)] && d.clock > r.clock + r.config.leaseTtl
    ensures RanOut(s, d, until, n)
  {
  }

  lemma Round(s: State, m: nat) returns (acts: seq<Action>)
    requires AllBack(s, m) && m + 1 < s.config.maxAttempts
    ensures SameRules(s, Run(s, acts)) && AllBack(Run(s, acts), m + 1)
  {
    var until;
    acts, until := LeaseAndExpire(s, m);
    var r := Run(s, acts);
    PassGoesOn(r, until, m + 1);
    acts := RunExtends(s, acts, Reap(|r.reapers| - 1, 0));
    var requeue := RequeueRound(Run(s, acts), until, m + 1);
    acts := Then(s, acts, requeue);
  }

  /** All attempts but one used up on every command. */
  lemma Rounds(s: State, m: nat) returns (acts: seq<Action>)
    requires AllBack(s, 0) && m < s.config.maxAttempts
    ensures SameRules(s, Run(s, acts)) && AllBack(Run(s, acts), m)
  {
    acts := [];
    var r := s;
    for i := 0 to m
      invariant r == Run(s, acts) && SameRules(s, r) && AllBack(r, i)
    {
      var round := Round(r, i);
      r := Run(r, round);
      acts := Then(s, acts, round);
    }
  }

  lemma LastTry(s: State, n: nat) returns (acts: seq<Action>)
    requires s.commands == [] && s.config.maxAttempts > 0
    ensures var r := Run(s, acts);
            |r.commands| == n && r.config == s.config && r.limit == s.limit && AllBack(r, s.config.maxAttempts - 1)
  {
    acts := CreateMany(s, n);
    var rounds := Rounds(Run(s, acts), s.config.maxAttempts - 1);
    acts := Then(s, acts, rounds);
  }

  // ----- one exhausted lease too many -----

  /** The pass of reaper j has failed the first i commands; the rest are exhausted. */
  ghost predicate FailingMany(s: State, r: State, j: nat, i: nat, until: Time) {
    && SameRules(s, r) && j < |s.reapers| && i <= |r.commands|
    && r.reapers == s.reapers[j := Failing(s.clock, i)]
    && (forall k :: i <= k < |r.commands| ==> Spent(r.commands[k], until, s.config.maxAttempts))
  }

  lemma FailingStep(s: State, r: State, j: nat, i: nat, until: Time)
    requires FailingMany(s, r, j, i, until) && i < s.limit && i < |r.commands| && until < s.clock
    ensures FailingMany(s, Next(r, Reap(j, i)), j, i + 1, until)
  {
    assert Exhausted(r.commands[i].cmd, s.clock, s.config.maxAttempts);
  }

  lemma FailMany(s: State, j: nat, until: Time) returns (acts: seq<Action>)
    requires j < |s.reapers| && s.reapers[j] == Failing(s.clock, 0) && until < s.clock
    requires |s.commands| == s.limit + 1 && AllSpent(s, until, s.config.maxAttempts)
    ensures FailingMany(s, Run(s, acts), j, s.limit, until)
  {
    acts := [];
    var r := s;
    for i := 0 to s.limit
      invariant r == Run(s, acts) && FailingMany(s, r, j, i, until)
    {
      FailingStep(s, r, j, i, until);
      r := Next(r, Reap(j, i));
      acts := RunExtends(s, acts, Reap(j, i));
    }
  }

  /** After a pass that overflowed, command k has been leased past the bound on its attempts. */
  predicate PastBound(s: State, k: CommandId) {
    && s.overflowed && k < |s.commands|
    && s.commands[k].leases > s.config.maxAttempts * (1 + s.commands[k].retries)
  }

  /** The pass of reaper j has failed its limit, and command k is an exhausted lease it left. */
  predicate LeftOver(s: State, j: nat, k: CommandId, until: Time) {
    && j < |s.reapers| && s.reapers[j].Failing? && s.reapers[j].failed >= s.limit && until < s.reapers[j].now
    && k < |s.commands| && Spent(s.commands[k], until, s.config.maxAttempts)
  }

  /** The lease left over is requeued, and granted again. */
  lemma LeasedPastBound(s: State, j: nat, k: CommandId, until: Time)
    requires LeftOver(s, j, k, until)
    ensures PastBound(Next(Next(Next(s, Reap(j, 0)), Reap(j, k)), LeaseOne(k, 0, [])), k)
  {
    var max := s.config.maxAttempts;
    assert Exhausted(s.commands[k].cmd, s.reapers[j].now, max);
    var m := Next(s, Reap(j, 0));
    assert m.overflowed && m.reapers == s.reapers[j := Requeuing(s.reapers[j].now)] && m.commands == s.commands;
    var n := Next(m, Reap(j, k));
    assert n.commands[k].cmd.status == Queued && n.overflowed;
    var r := Next(n, LeaseOne(k, 0, []));
    assert r.commands[k].leases == max + 1 && r.commands[k].retries == 0;
  }

  /** One command more than the limit, all exhausted, and a pass about to begin. */
  ghost predicate TooMany(r: State, until: Time) {
    && |r.commands| == r.limit + 1 && AllSpent(r, until, r.config.maxAttempts) && until < r.clock
    && |r.reapers| > 0 && r.reapers[|r.reapers| - 1] == Failing(r.clock, 0)
  }

  lemma Due(r: State, d: State, until: Time)
    requires |r.commands| == r.limit + 1 && RanOut(r, d, until, r.config.maxAttempts)
    ensures TooMany(d, until) && d.config == r.config && d.limit == r.limit
  {
  }

  lemma FillUp(s: State) returns (acts: seq<Action>, until: Time)
    requires s.commands == [] && s.config.maxAttempts > 0
    ensures TooMany(Run(s, acts), until) && Run(s, acts).config == s.config && Run(s, acts).limit == s.limit
  {
    var max := s.config.maxAttempts - 1;
    var first := LastTry(s, s.limit + 1);
    var r := Run(s, first);
    var last;
    last, until := LeaseAndExpire(r, max);
    Due(r, Run(r, last), until);
    acts := Then(s, first, last);
  }

  lemma AtTheLimit(s: State) returns (acts: seq<Action>, j: nat, until: Time)
    requires s.commands == [] && s.config.maxAttempts > 0
    ensures LeftOver(Run(s, acts), j, s.limit, until)
  {
    acts, until := FillUp(s);
    var r := Run(s, acts);
    j := |r.reapers| - 1;
    var fails := FailMany(r, j, until);
    acts := Then(s, acts, fails);
  }

  lemma LeasedTooOften(s: State) returns (acts: seq<Action>)
    requires s.commands == [] && s.config.maxAttempts > 0
    ensures PastBound(Run(s, acts), s.limit)
  {
    var j, until;
    acts, j, until := AtTheLimit(s);
    LeasedPastBound(Run(s, acts), j, s.limit, until);
    acts := RunThree(s, acts, Reap(j, 0), Reap(j, s.limit), LeaseOne(s.limit, 0, []));
  }

  /**
   Whatever the limit of a pass and the attempts allowed, one exhausted lease more
   than the limit is put back in the queue by the bulk requeue, and leased again
   past the bound.
   */
  lemma OverflowBreaksBound(clock: Time, ttl: Time, max: int, timeout: Time, limit: nat) returns (acts: seq<Action>)
    ensures PastBound(Run(Start(clock, ttl, max, timeout, limit), acts), limit)
  {
    acts := LeasedTooOften(Start(clock, ttl, max, timeout, limit));
  }
}
