/**
 The notifier classes and their retry policy. The simulated network (a random
 delay followed by a random verdict) is replaced by an oracle: a sequence of
 booleans from which every transmission draws the next outcome. A transmission
 made after the oracle is used up fails.
 */
module Notifiers {
  import opened Models

  /** The concrete notifier classes; each accepts exactly one address kind. */
  datatype Notificator = EmailNotificator | SmsNotificator | TelegramNotificator

  /** The isinstance guard at the head of each notifier's send operation. */
  predicate Accepts(n: Notificator, a: Address)
  {
    match n
    case EmailNotificator => a.EmailAddress?
    case SmsNotificator => a.PhoneAddress?
    case TelegramNotificator => a.TelegramAddress?
  }

  /** Outcome number `k` (from 0) of the oracle; past its end a transmission fails. */
  predicate NthOutcome(net: seq<bool>, k: nat)
  {
    k < |net| && net[k]
  }

  /** What is left of the oracle once `k` transmissions have drawn from it. */
  function Skip(net: seq<bool>, k: nat): seq<bool>
  {
    if k <= |net| then net[k..] else []
  }

  /** One call of a notifier: its verdict and the oracle left afterwards. */
  datatype Attempt = Attempt(ok: bool, rest: seq<bool>)

  /** One simulated transmission, drawing the next outcome of the oracle. */
  function Transmit(net: seq<bool>): Attempt
  {
    if |net| == 0 then Attempt(false, []) else Attempt(net[0], net[1..])
  }

  /**
   A notifier's send operation. An address of the wrong kind is a failure
   reported without touching the network; otherwise the verdict is the
   network's, passed through unchanged. The message only feeds the log.
   */
  function SendMessage(n: Notificator, a: Address, m: Message, net: seq<bool>): (r: Attempt)
    ensures !Accepts(n, a) ==> !r.ok && r.rest == net
    ensures Accepts(n, a) ==> r.ok == NthOutcome(net, 0) && r.rest == Skip(net, 1)
  {
    if !Accepts(n, a) then Attempt(false, net)
    else Transmit(net)
  }

  /** The default retry count of the retry policy. */
  const DefaultMaxRetries: int := 3

  /** Calls made by the retry policy at most: one, plus `maxRetries` when it is positive. */
  function RetryBudget(maxRetries: int): nat
  {
    if maxRetries > 0 then maxRetries + 1 else 1
  }

  /** Outcome `k` is a success for this notifier and address, should attempt `k` be made. */
  predicate Succeeds(n: Notificator, a: Address, net: seq<bool>, k: nat)
  {
    Accepts(n, a) && NthOutcome(net, k)
  }

  /** The oracle left after `attempts` calls: a mismatching address never draws from it. */
  function Consumed(n: Notificator, a: Address, net: seq<bool>, attempts: nat): seq<bool>
  {
    if Accepts(n, a) then Skip(net, attempts) else net
  }

  /**
   The result of a retry run: the verdict, the number of send calls, the
   number of failure reports logged, and the oracle left afterwards.
   */
  datatype RetryOutcome = RetryOutcome(ok: bool, attempts: nat, reports: nat, rest: seq<bool>)

  /**
   `r` is what a run of at most `budget` calls, stopping at the first success,
   yields on the oracle `net`: it succeeds iff one of the first `budget`
   attempts succeeds, it stops right after the first one that does, it makes
   all `budget` calls when it fails, it logs one report per failed call, and
   it consumes exactly the outcomes of the calls it made.
   */
  predicate IsRetryRun(n: Notificator, a: Address, net: seq<bool>, budget: nat, r: RetryOutcome)
  {
    && r.attempts <= budget
    && (r.ok <==> exists k :: 0 <= k < budget && Succeeds(n, a, net, k))
    && (r.ok ==> 1 <= r.attempts && Succeeds(n, a, net, r.attempts - 1))
    && (forall k :: 0 <= k < r.attempts - 1 ==> !Succeeds(n, a, net, k))
    && (!r.ok ==> r.attempts == budget && forall k :: 0 <= k < budget ==> !Succeeds(n, a, net, k))
    && r.reports == (if r.ok then r.attempts - 1 else r.attempts)
    && r.rest == Consumed(n, a, net, r.attempts)
  }

  /**
   The retry loop `for i in range(maxRetries)` from iteration `i` on: each
   iteration sends once, returns on success and otherwise logs a report.
   */
  function RetryLoop(n: Notificator, a: Address, m: Message, i: nat, maxRetries: int, net: seq<bool>): RetryOutcome
    decreases maxRetries - i
  {
    if i >= maxRetries then RetryOutcome(false, 0, 0, net)
    else
      var attempt := SendMessage(n, a, m, net);
      if attempt.ok then RetryOutcome(true, 1, 0, attempt.rest)
      else
        var tail := RetryLoop(n, a, m, i + 1, maxRetries, attempt.rest);
        RetryOutcome(tail.ok, tail.attempts + 1, tail.reports + 1, tail.rest)
  }

  /**
   The retry policy: one initial send, and on failure a report and up to
   `maxRetries` further sends, stopping at the first success.
   */
  function SendWithRetry(n: Notificator, a: Address, m: Message, maxRetries: int, net: seq<bool>): RetryOutcome
  {
    var first := SendMessage(n, a, m, net);
    if first.ok then RetryOutcome(true, 1, 0, first.rest)
    else
      var loop := RetryLoop(n, a, m, 0, maxRetries, first.rest);
      RetryOutcome(loop.ok, loop.attempts + 1, loop.reports + 1, loop.rest)
  }

  // ---------------------------------------------------------------------------
  // Proofs

  /** Dropping one outcome from the oracle shifts every later attempt down by one. */
  lemma ShiftOutcome(n: Notificator, a: Address, net: seq<bool>, k: nat)
    ensures Succeeds(n, a, Skip(net, 1), k) == Succeeds(n, a, net, k + 1)
    ensures Consumed(n, a, Consumed(n, a, net, 1), k) == Consumed(n, a, net, k + 1)
  {
  }

  /**
   A failed first attempt followed by a run of `budget - 1` calls on the rest
   of the oracle is a run of `budget` calls on the whole oracle.
   */
  lemma {:induction false} ShiftRetryRun(n: Notificator, a: Address, net: seq<bool>, budget: nat, tail: RetryOutcome)
    requires 1 <= budget
    requires !Succeeds(n, a, net, 0)
    requires IsRetryRun(n, a, Consumed(n, a, net, 1), budget - 1, tail)
    ensures IsRetryRun(n, a, net, budget,
                       RetryOutcome(tail.ok, tail.attempts + 1, tail.reports + 1, tail.rest))
  {
    var net' := Consumed(n, a, net, 1);
    forall k: nat
      ensures Succeeds(n, a, net', k) == Succeeds(n, a, net, k + 1)
      ensures Consumed(n, a, net', k) == Consumed(n, a, net, k + 1)
    {
      ShiftOutcome(n, a, net, k);
      if !Accepts(n, a) {
        assert net' == net;
      }
    }
    if tail.ok {
      var k :| 0 <= k < budget - 1 && Succeeds(n, a, net', k);
      assert Succeeds(n, a, net, k + 1);
    } else {
      forall k | 0 <= k < budget
        ensures !Succeeds(n, a, net, k)
      {
        if k > 0 {
          assert !Succeeds(n, a, net', k - 1);
        }
      }
    }
    forall k | 0 <= k < tail.attempts
      ensures !Succeeds(n, a, net, k)
    {
      if k > 0 {
        assert !Succeeds(n, a, net', k - 1);
      }
    }
  }

  /** The loop from iteration `i` is a run of `maxRetries - i` calls (none when negative). */
  lemma {:induction false} RetryLoopIsRetryRun(n: Notificator, a: Address, m: Message, i: nat, maxRetries: int, net: seq<bool>)
    ensures IsRetryRun(n, a, net, if i < maxRetries then maxRetries - i else 0,
                       RetryLoop(n, a, m, i, maxRetries, net))
    decreases maxRetries - i
  {
    if i < maxRetries {
      var attempt := SendMessage(n, a, m, net);
      if !attempt.ok {
        RetryLoopIsRetryRun(n, a, m, i + 1, maxRetries, attempt.rest);
        ShiftRetryRun(n, a, net, maxRetries - i, RetryLoop(n, a, m, i + 1, maxRetries, attempt.rest));
      } else {
        assert Succeeds(n, a, net, 0);
      }
    }
  }

  /**
   The retry policy makes at most `RetryBudget(maxRetries)` calls, succeeds iff
   one of them succeeds, stops at the first success, logs one report per
   failed call and consumes exactly the outcomes of the calls it made.
   */
  lemma SendWithRetryIsRetryRun(n: Notificator, a: Address, m: Message, maxRetries: int, net: seq<bool>)
    ensures IsRetryRun(n, a, net, RetryBudget(maxRetries), SendWithRetry(n, a, m, maxRetries, net))
  {
    var first := SendMessage(n, a, m, net);
    if first.ok {
      assert Succeeds(n, a, net, 0);
    } else {
      RetryLoopIsRetryRun(n, a, m, 0, maxRetries, first.rest);
      ShiftRetryRun(n, a, net, RetryBudget(maxRetries), RetryLoop(n, a, m, 0, maxRetries, first.rest));
    }
  }

  // ---------------------------------------------------------------------------
  // Consequences of the retry contract

  /**
   The attempt counts of the retry policy: one call when no retries are
   allowed, at most four with the default, and on total failure exactly
   `maxRetries + 1` calls, each followed by one failure report.
   */
  lemma RetryCounts(n: Notificator, a: Address, m: Message, maxRetries: int, net: seq<bool>)
    ensures var r := SendWithRetry(n, a, m, maxRetries, net);
      && (maxRetries >= 0 ==> r.attempts <= maxRetries + 1)
      && (maxRetries <= 0 ==> r.attempts == 1)
      && (maxRetries == DefaultMaxRetries ==> 1 <= r.attempts <= 4)
      && (!r.ok && maxRetries >= 0 ==> r.attempts == maxRetries + 1 && r.reports == maxRetries + 1)
  {
    SendWithRetryIsRetryRun(n, a, m, maxRetries, net);
  }

  /**
   An address of the wrong kind does not fail fast: every allowed call is
   made, each fails and is reported, and the oracle is left untouched.
   */
  lemma MismatchExhaustsRetries(n: Notificator, a: Address, m: Message, maxRetries: int, net: seq<bool>)
    requires !Accepts(n, a)
    ensures SendWithRetry(n, a, m, maxRetries, net)
         == RetryOutcome(false, RetryBudget(maxRetries), RetryBudget(maxRetries), net)
  {
    SendWithRetryIsRetryRun(n, a, m, maxRetries, net);
  }
}
