/** Recharge commands for the phone bridge, and the single-document writes on them. */
module Bridge {
  import opened Basics
  import opened Orders
  import opened Slugs

  type DeviceId = nat
  type CommandId = nat

  datatype CommandStatus = Queued | Leased | Succeeded | FailedCommand | Cancelled

  datatype Kind = TransferCredit | RechargeLine | CheckBalance | SendSms

  datatype Report = Report(code: int, error: string)

  datatype Command = Command(
    order: Option<OrderId>,
    provider: string,
    kind: Kind,
    card: string,
    status: CommandStatus,
    attempts: nat,
    device: Option<DeviceId>,
    expires: Option<Time>,
    result: Option<Report>,
    failReason: string,
    createdAt: Time)

  datatype Config = Config(leaseTtl: Time, maxAttempts: nat, queueTimeout: Time)

  /** Zero or negative tunables fall back to defaults. */
  function Sane(leaseTtl: Time, maxAttempts: int, queueTimeout: Time): (c: Config)
    ensures c.leaseTtl > 0 && c.maxAttempts > 0 && c.queueTimeout > 0
  {
    Config(if leaseTtl <= 0 then 3 * MINUTE else leaseTtl,
           if maxAttempts <= 0 then 3 else maxAttempts,
           if queueTimeout <= 0 then 30 * MINUTE else queueTimeout)
  }

  predicate IsTerminal(s: CommandStatus) {
    s == Succeeded || s == FailedCommand || s == Cancelled
  }

  predicate IsSuccessCode(code: int) {
    code == 1000 || code == 2000 || code == 3000 || code == 4000 || code == 5000
  }

  predicate IsPartialCode(code: int) {
    code == 2001
  }

  predicate Handles(providers: seq<string>, provider: string) {
    providers == [] || provider in providers
  }

  const EXHAUSTED := "recharge attempts exhausted"
  const TIMED_OUT := "recharge timed out waiting for a device"

  function FailureReason(r: Report): string {
    if r.error != "" then r.error
    else if IsPartialCode(r.code) then "recharge only partially completed"
    else "device reported failure code " + (if r.code < 0 then "-" + Decimal(-r.code) else Decimal(r.code))
  }

  /** Why a command with this report counts as failed: nothing, when it does not. */
  function Outcome(r: Report): (CommandStatus, string) {
    if IsSuccessCode(r.code) then (Succeeded, "") else (FailedCommand, FailureReason(r))
  }

  // ----- guarded writes: None means no document matched the guard -----

  function Lease(c: Command, device: DeviceId, providers: seq<string>, expires: Time): Option<Command> {
    if c.status == Queued && Handles(providers, c.provider)
    then Some(c.(status := Leased, device := Some(device), expires := Some(expires), attempts := c.attempts + 1))
    else None
  }

  function CompleteLeased(c: Command, device: DeviceId, r: Report): Option<Command> {
    if c.status == Leased && c.device == Some(device)
    then
      var (status, reason) := Outcome(r);
      Some(c.(status := status, result := Some(r), expires := None,
              failReason := if reason != "" then reason else c.failReason))
    else None
  }

  predicate Expired(c: Command, now: Time) {
    c.status == Leased && c.expires.Some? && c.expires.value < now
  }

  predicate Exhausted(c: Command, now: Time, max: nat) {
    Expired(c, now) && c.attempts >= max
  }

  predicate Stale(c: Command, cutoff: Time) {
    c.status == Queued && c.createdAt < cutoff
  }

  function FailExhausted(c: Command, now: Time, max: nat): Option<Command> {
    if Exhausted(c, now, max)
    then Some(c.(status := FailedCommand, failReason := EXHAUSTED, expires := None, device := None)) else None
  }

  /** Puts an expired lease back in the queue, whatever its attempts. */
  function Requeue(c: Command, now: Time): Option<Command> {
    if Expired(c, now) then Some(c.(status := Queued, expires := None, device := None)) else None
  }

  function FailStale(c: Command, cutoff: Time): Option<Command> {
    if Stale(c, cutoff) then Some(c.(status := FailedCommand, failReason := TIMED_OUT)) else None
  }

  /** An operator tries again: a fresh attempt count, the same card. */
  function Retry(c: Command): Option<Command> {
    if c.status == FailedCommand || c.status == Cancelled
    then Some(c.(status := Queued, attempts := 0, expires := None, device := None, failReason := "", result := None))
    else None
  }

  function Cancel(c: Command): Option<Command> {
    if c.status == Queued || c.status == Leased
    then Some(c.(status := Cancelled, expires := None, device := None)) else None
  }

  /** An operator's retry starts afresh from failure or cancellation, and a cancellation ends what waits or is out on a device. */
  lemma OperatorWrites(c: Command)
    ensures Retry(c).Some? <==> c.status == FailedCommand || c.status == Cancelled
    ensures Retry(c).Some? ==>
              var d := Retry(c).value;
              && d.status == Queued && d.attempts == 0 && d.result.None? && d.device.None? && d.expires.None? && d.failReason == ""
              && SameErrand(c, d)
    ensures Cancel(c).Some? <==> c.status == Queued || c.status == Leased
    ensures Cancel(c).Some? ==>
              Cancel(c).value == c.(status := Cancelled, expires := None, device := None)
  {
  }

  /** What no write changes: the order a command serves and the card it carries. */
  predicate SameErrand(c: Command, d: Command) {
    c.order == d.order && c.card == d.card && c.kind == d.kind && c.createdAt == d.createdAt && c.provider == d.provider
  }
}
