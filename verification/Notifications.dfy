/** Delivery attempts: the status after each, and the waits between them. */
module Notifications {
  import opened Prelude

  datatype NotificationStatus = Pending | Sent | Failed

  /** The configuration the delivery service and the delay rule accept; times are in a unit of choice. */
  datatype Policy = Policy(maxAttempts: nat, base: int, cap: int)

  predicate IsPolicy(p: Policy) {
    p.maxAttempts >= 1 && p.base > 0 && p.cap > 0
  }

  datatype Attempt = Attempt(number: nat, at: int, delivered: bool)

  datatype Notification = Notification(status: NotificationStatus, scheduledAt: Option<int>, attempts: seq<Attempt>)

  datatype RuleError = AttemptBelowOne | NoAttemptsAllowed | AttemptAboveMaximum

  /** `get_notification_status_after_attempt`. */
  function StatusAfter(delivered: bool, number: int, maximum: int): Result<NotificationStatus, RuleError> {
    if number < 1 then Err(AttemptBelowOne)
    else if maximum < 1 then Err(NoAttemptsAllowed)
    else if number > maximum then Err(AttemptAboveMaximum)
    else Ok(if delivered then Sent else if number >= maximum then Failed else Pending)
  }

  function Pow2(n: nat): (p: nat)
    ensures p > 0
  {
    if n == 0 then 1 else 2 * Pow2(n - 1)
  }

  function Min(a: int, b: int): int {
    if a < b then a else b
  }

  /** `get_notification_retry_delay_seconds`, for the arguments it accepts. */
  function RetryDelay(number: nat, p: Policy): int
    requires number >= 1
  {
    Min(p.base * Pow2(number - 1), p.cap)
  }

  /**
   One delivery at time `now`, whose provider answers `delivered`. A notification that is not pending, not due, or out
   of attempts is refused and stays as it is.
   */
  function Deliver(n: Notification, now: int, delivered: bool, p: Policy): Notification
    requires IsPolicy(p)
  {
    var number := if n.attempts == [] then 1 else n.attempts[|n.attempts| - 1].number + 1;
    if n.status != Pending || (n.scheduledAt.Some? && now < n.scheduledAt.value) || number > p.maxAttempts then n
    else
      var status := StatusAfter(delivered, number, p.maxAttempts).value;
      Notification(status, if status.Pending? then Some(now + RetryDelay(number, p)) else None,
                   n.attempts + [Attempt(number, now, delivered)])
  }

  datatype Call = Call(now: int, delivered: bool)

  function Deliveries(n: Notification, calls: seq<Call>, p: Policy): Notification
    requires IsPolicy(p)
  {
    if calls == [] then n
    else
      var last := calls[|calls| - 1];
      Deliver(Deliveries(n, calls[..|calls| - 1], p), last.now, last.delivered, p)
  }

  function New(scheduledAt: Option<int>): Notification {
    Notification(Pending, scheduledAt, [])
  }

  /** The status is the one the attempts determine, and each retry has waited out its delay. */
  predicate Orderly(n: Notification, p: Policy)
    requires IsPolicy(p)
  {
    var k := |n.attempts|;
    && k <= p.maxAttempts
    && (forall i :: 0 <= i < k ==> n.attempts[i].number == i + 1)
    && (forall i :: 0 <= i < k - 1 ==> !n.attempts[i].delivered)
    && (forall i :: 0 < i < k ==> n.attempts[i].at >= n.attempts[i - 1].at + RetryDelay(i, p))
    && n.status == (if k == 0 then Pending
                    else if n.attempts[k - 1].delivered then Sent
                    else if k == p.maxAttempts then Failed else Pending)
    && (k > 0 && n.status.Pending? ==> n.scheduledAt == Some(n.attempts[k - 1].at + RetryDelay(k, p)))
  }

  lemma DeliverKeepsOrder(n: Notification, now: int, delivered: bool, p: Policy)
    requires IsPolicy(p) && Orderly(n, p)
    ensures Orderly(Deliver(n, now, delivered, p), p)
    ensures n.attempts <= Deliver(n, now, delivered, p).attempts
    ensures |Deliver(n, now, delivered, p).attempts|
            == |n.attempts| + if n.status.Pending? && (n.scheduledAt.Some? ==> n.scheduledAt.value <= now) then 1 else 0
  {
  }

  /**
   A call that may attempt does so once, recording its own time and the provider's answer under the next number; the
   notification is then sent, given up, or due again after the delay. Any other call changes nothing.
   */
  lemma DeliverRecordsTheAttempt(n: Notification, now: int, delivered: bool, p: Policy)
    requires IsPolicy(p) && Orderly(n, p)
    ensures var m, number := Deliver(n, now, delivered, p), |n.attempts| + 1;
            if n.status.Pending? && (n.scheduledAt.Some? ==> n.scheduledAt.value <= now) then
              && m.attempts == n.attempts + [Attempt(number, now, delivered)]
              && m.status == (if delivered then Sent else if number == p.maxAttempts then Failed else Pending)
              && m.scheduledAt == (if m.status.Pending? then Some(now + RetryDelay(number, p)) else None)
            else m == n
  {
  }

  /** The attempt records this call. */
  predicate Records(a: Attempt, call: Call) {
    a.at == call.now && a.delivered == call.delivered
  }

  /** The recorded attempts are some of the calls, in their order: nothing is made up and nothing counts twice. */
  lemma {:induction false} AttemptsAreCalls(scheduledAt: Option<int>, calls: seq<Call>, p: Policy)
    returns (which: seq<nat>)
    requires IsPolicy(p)
    ensures var attempts := Deliveries(New(scheduledAt), calls, p).attempts;
            && |which| == |attempts|
            && (forall i :: 0 <= i < |which| ==> which[i] < |calls| && Records(attempts[i], calls[which[i]]))
            && (forall i, j :: 0 <= i < j < |which| ==> which[i] < which[j])
  {
    if calls == [] {
      which := [];
    } else {
      var n := |calls| - 1;
      which := AttemptsAreCalls(scheduledAt, calls[..n], p);
      DeliveriesAreOrderly(scheduledAt, calls[..n], p);
      var before := Deliveries(New(scheduledAt), calls[..n], p);
      DeliverRecordsTheAttempt(before, calls[n].now, calls[n].delivered, p);
      if |Deliveries(New(scheduledAt), calls, p).attempts| > |which| {
        which := which + [n];
      }
    }
  }

  /**
   Over any calls at any times, with any answers of the provider: at most the maximum of attempts, numbered from 1; the
   status is sent exactly if the last attempt delivered, and failed exactly if all the attempts allowed were spent.
   */
  lemma {:induction false} DeliveriesAreOrderly(scheduledAt: Option<int>, calls: seq<Call>, p: Policy)
    requires IsPolicy(p)
    ensures Orderly(Deliveries(New(scheduledAt), calls, p), p)
  {
    if calls != [] {
      DeliveriesAreOrderly(scheduledAt, calls[..|calls| - 1], p);
      var last := calls[|calls| - 1];
      DeliverKeepsOrder(Deliveries(New(scheduledAt), calls[..|calls| - 1], p), last.now, last.delivered, p);
    }
  }

  /** A notification that was sent or failed stays as it is, whatever is tried later. */
  lemma {:induction false} SettledStays(n: Notification, calls: seq<Call>, p: Policy)
    requires IsPolicy(p) && !n.status.Pending?
    ensures Deliveries(n, calls, p) == n
  {
    if calls != [] {
      SettledStays(n, calls[..|calls| - 1], p);
    }
  }

  // ---- the waits ----

  /** The delay starts at the base and doubles from one attempt to the next, up to the cap; it never shrinks. */
  lemma DelaysGrow(number: nat, p: Policy)
    requires IsPolicy(p) && number >= 1
    ensures RetryDelay(1, p) == Min(p.base, p.cap)
    ensures RetryDelay(number + 1, p) == Min(2 * RetryDelay(number, p), p.cap)
    ensures 0 < RetryDelay(number, p) <= RetryDelay(number + 1, p) <= p.cap
  {
    assert p.base * Pow2(number) == 2 * (p.base * Pow2(number - 1));
    Positive(p.base, Pow2(number - 1));
  }

  lemma Positive(a: int, b: int)
    requires a > 0 && b > 0
    ensures a * b > 0
  {
  }

  /** The delays after the first `n` attempts. */
  function TotalWait(n: nat, p: Policy): int {
    if n == 0 then 0 else TotalWait(n - 1, p) + RetryDelay(n, p)
  }

  /** All waits together are bounded by the doubling series as well as by the cap. */
  lemma {:induction false} WaitIsBounded(n: nat, p: Policy)
    requires IsPolicy(p)
    ensures TotalWait(n, p) <= p.base * (Pow2(n) - 1)
    ensures TotalWait(n, p) <= n * p.cap
  {
    if n > 0 {
      WaitIsBounded(n - 1, p);
      var half := Pow2(n - 1);
      assert p.base * (2 * half - 1) == p.base * (half - 1) + p.base * half;
      assert n * p.cap == (n - 1) * p.cap + p.cap;
    }
  }

  /** The waits are the least time between the first attempt and the last one. */
  lemma {:induction false} AttemptsWait(n: Notification, p: Policy, k: nat)
    requires IsPolicy(p) && Orderly(n, p) && k < |n.attempts|
    ensures n.attempts[k].at - n.attempts[0].at >= TotalWait(k, p)
  {
    if k > 0 {
      AttemptsWait(n, p, k - 1);
    }
  }
}
