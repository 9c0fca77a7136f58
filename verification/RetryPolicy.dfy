/** Exponential backoff and stopping conditions of the executor (app/execution/retry_policy.py). */
module RetryPolicy {
  import ErrorCodes

  const RETRYABLE_ERROR_CODES: set<string> := {
    "GATEWAY_TIMEOUT", "BANK_SYSTEM_BUSY", "NETWORK_ERROR", "ROUTE_DEGRADATION",
    "ACQUIRER_DOWNTIME", "TIMEOUT", "DOWNSTREAM_503", "CONNECTION_RESET"
  }

  const NON_RETRYABLE_ERROR_CODES: set<string> := {
    "ACCOUNT_CLOSED", "BLOCKED_CARD", "INVALID_ACCOUNT", "FRAUD_SUSPECTED", "CARD_EXPIRED",
    "INVALID_CVV", "INVALID_PIN", "LIMIT_EXCEEDED", "INSUFFICIENT_FUNDS"
  }

  datatype StopReason = NonRetryableFailure | MaxRetriesExceeded | RecoveryWindowExpired

  datatype Decision = Retry(backoff: real) | Stop(reason: StopReason)

  /** base and cap, both in seconds. */
  datatype Policy = Policy(base: real, cap: real)

  function Pow2(n: nat): (r: real)
    ensures r >= 1.0
  {
    if n == 0 then 1.0 else 2.0 * Pow2(n - 1)
  }

  function Min(a: real, b: real): real {
    if b < a then b else a
  }

  function CalculateBackoff(p: Policy, attempt: int): real {
    Min(if attempt <= 1 then p.base else p.base * Pow2(attempt - 1), p.cap)
  }

  predicate IsRetryable(code: string) {
    code != "" &&
    var c := ErrorCodes.Normalize(code);
    c !in NON_RETRYABLE_ERROR_CODES && c in RETRYABLE_ERROR_CODES
  }

  /** The stopping conditions, in order, for a failure that is or is not retryable. */
  function Decide(p: Policy, retryable: bool, attempt: int, maxRetries: int, elapsed: real, window: real): Decision {
    if !retryable then Stop(NonRetryableFailure)
    else if attempt >= maxRetries then Stop(MaxRetriesExceeded)
    else if elapsed >= window then Stop(RecoveryWindowExpired)
    else Retry(CalculateBackoff(p, attempt))
  }

  function EvaluateNextRetry(p: Policy, attempt: int, maxRetries: int, code: string, elapsed: real, window: real)
    : Decision
  {
    Decide(p, IsRetryable(code), attempt, maxRetries, elapsed, window)
  }

  /** The whole decision, with the code's own tables: which of the three conditions stops, and otherwise how long. */
  lemma EvaluateMeans(p: Policy, attempt: int, maxRetries: int, code: string, elapsed: real, window: real)
    ensures var r := EvaluateNextRetry(p, attempt, maxRetries, code, elapsed, window);
            var retryable := ErrorCodes.Normalize(code) in {
              "GATEWAY_TIMEOUT", "BANK_SYSTEM_BUSY", "NETWORK_ERROR", "ROUTE_DEGRADATION",
              "ACQUIRER_DOWNTIME", "TIMEOUT", "DOWNSTREAM_503", "CONNECTION_RESET"};
            && (r == Stop(NonRetryableFailure) <==> !retryable)
            && (r == Stop(MaxRetriesExceeded) <==> retryable && attempt >= maxRetries)
            && (r == Stop(RecoveryWindowExpired) <==> retryable && attempt < maxRetries && elapsed >= window)
            && (r.Retry? <==> retryable && attempt < maxRetries && elapsed < window)
            && (r.Retry? && attempt <= 1 ==> r.backoff == if p.base <= p.cap then p.base else p.cap)
            && (r.Retry? && attempt > 1 ==>
                  var full := Doubled(p.base, attempt - 1); r.backoff == if full <= p.cap then full else p.cap)
  {
    ErrorCodes.EmptyIsNormal();
    if attempt > 1 {
      DoubledIsPower(p.base, attempt - 1);
    }
  }

  /** The executor leaves elapsed_seconds and max_window_sec at their defaults, 0 and 3600. */
  function ExecutorDecision(p: Policy, attempt: int, maxRetries: int, code: string): Decision {
    EvaluateNextRetry(p, attempt, maxRetries, code, 0.0, 3600.0)
  }

  // ---- chains of retries -------------------------------------------------

  /** Which of the failures are retryable. */
  function Flags(codes: seq<string>): seq<bool> {
    if codes == [] then [] else [IsRetryable(codes[0])] + Flags(codes[1..])
  }

  /** The delays an executor chain schedules when attempt, attempt + 1, ... fail, retryably or not. */
  function ChainDelays(p: Policy, attempt: int, maxRetries: int, flags: seq<bool>): seq<real>
    decreases |flags|
  {
    if flags == [] then []
    else match Decide(p, flags[0], attempt, maxRetries, 0.0, 3600.0)
      case Stop(_) => []
      case Retry(delay) => [delay] + ChainDelays(p, attempt + 1, maxRetries, flags[1..])
  }

  /** Each link of the chain is the executor's own decision about the code at hand. */
  lemma ChainAsksThePolicy(p: Policy, attempt: int, maxRetries: int, codes: seq<string>)
    requires codes != []
    ensures ChainDelays(p, attempt, maxRetries, Flags(codes)) ==
            match ExecutorDecision(p, attempt, maxRetries, codes[0])
            case Stop(_) => []
            case Retry(delay) => [delay] + ChainDelays(p, attempt + 1, maxRetries, Flags(codes[1..]))
  {
    assert Flags(codes)[1..] == Flags(codes[1..]);
  }

  function Sum(xs: seq<real>): real {
    if xs == [] then 0.0 else xs[0] + Sum(xs[1..])
  }

  /** How many failures at the head of the list are retryable. */
  function RetryablePrefix(flags: seq<bool>): nat {
    if flags == [] || !flags[0] then 0 else 1 + RetryablePrefix(flags[1..])
  }

  /** The uncapped power-of-two schedule, capped: what the k-th retry waits for. */
  function CappedPower(p: Policy, k: nat): real {
    Min(p.base * Pow2(k), p.cap)
  }

  lemma CappedPowerMeans(p: Policy, k: nat)
    ensures CappedPower(p, k) == if Doubled(p.base, k) <= p.cap then Doubled(p.base, k) else p.cap
  {
    DoubledIsPower(p.base, k);
  }

  /** How many retries the limit leaves after attempt k + 1. */
  function Room(k: nat, maxRetries: int): nat {
    if k + 1 < maxRetries then maxRetries - (k + 1) else 0
  }

  function MinNat(a: nat, b: nat): nat {
    if a < b then a else b
  }

  /** A chain schedules one retry per leading retryable failure until the merchant's limit is reached,
      and its i-th delay is the capped power of two of the attempt that failed. */
  lemma {:induction false} ChainShape(p: Policy, k: nat, maxRetries: int, flags: seq<bool>)
    ensures var delays := ChainDelays(p, k + 1, maxRetries, flags);
            && |delays| == MinNat(RetryablePrefix(flags), Room(k, maxRetries))
            && forall i :: 0 <= i < |delays| ==> delays[i] == CappedPower(p, k + i)
    decreases |flags|
  {
    if flags != [] && flags[0] && k + 1 < maxRetries {
      ChainShape(p, k + 1, maxRetries, flags[1..]);
      var rest := ChainDelays(p, k + 2, maxRetries, flags[1..]);
      ChainFirst(p, k, maxRetries, flags, rest);
      PrependPower(p, k, rest);
    }
  }

  lemma ChainFirst(p: Policy, k: nat, maxRetries: int, flags: seq<bool>, rest: seq<real>)
    requires flags != [] && flags[0] && k + 1 < maxRetries
    requires rest == ChainDelays(p, k + 2, maxRetries, flags[1..])
    ensures ChainDelays(p, k + 1, maxRetries, flags) == [CappedPower(p, k)] + rest
    ensures RetryablePrefix(flags) == 1 + RetryablePrefix(flags[1..])
  {
  }

  lemma PrependPower(p: Policy, k: nat, rest: seq<real>)
    requires forall i :: 0 <= i < |rest| ==> rest[i] == CappedPower(p, (k + 1) + i)
    ensures forall i :: 0 <= i < |rest| + 1 ==> ([CappedPower(p, k)] + rest)[i] == CappedPower(p, k + i)
  {
    forall i | 0 <= i < |rest| + 1 ensures ([CappedPower(p, k)] + rest)[i] == CappedPower(p, k + i) {
      if i > 0 {
        assert rest[i - 1] == CappedPower(p, (k + 1) + (i - 1));
      }
    }
  }

  /** Every retry a chain requests carries an attempt number within the merchant's limit. */
  lemma {:induction false} ChainStaysWithinLimit(p: Policy, attempt: nat, maxRetries: int, flags: seq<bool>, i: nat)
    requires attempt >= 1 && i < |ChainDelays(p, attempt, maxRetries, flags)|
    ensures attempt + i + 1 <= maxRetries
  {
    ChainShape(p, attempt - 1, maxRetries, flags);
  }

  // The bounds below are proved on doublings and repeated sums, which keep every step linear.

  function Doubled(base: real, n: nat): real {
    if n == 0 then base else 2.0 * Doubled(base, n - 1)
  }

  function Repeated(x: real, n: nat): real {
    if n == 0 then 0.0 else x + Repeated(x, n - 1)
  }

  lemma {:induction false} DoubledIsPower(base: real, n: nat)
    ensures Doubled(base, n) == base * Pow2(n)
  {
    if n > 0 {
      DoubledIsPower(base, n - 1);
      Twice(base, Pow2(n - 1));
    }
  }

  lemma Twice(base: real, u: real)
    ensures 2.0 * (base * u) == base * (2.0 * u)
  {
  }

  lemma {:induction false} RepeatedIsProduct(x: real, n: nat)
    ensures Repeated(x, n) == x * n as real
  {
    if n > 0 {
      RepeatedIsProduct(x, n - 1);
      OneMore(x, (n - 1) as real);
    }
  }

  lemma OneMore(x: real, u: real)
    ensures x + x * u == x * (u + 1.0)
  {
  }

  function CappedDoubling(p: Policy, k: nat): real {
    Min(Doubled(p.base, k), p.cap)
  }

  /** The delays are the capped doublings from the k-th on. */
  predicate Doublings(p: Policy, k: nat, delays: seq<real>)
    decreases |delays|
  {
    delays == [] || (delays[0] == CappedDoubling(p, k) && Doublings(p, k + 1, delays[1..]))
  }

  lemma {:induction false} ChainDoubles(p: Policy, k: nat, maxRetries: int, flags: seq<bool>)
    ensures Doublings(p, k, ChainDelays(p, k + 1, maxRetries, flags))
    decreases |flags|
  {
    if flags != [] && flags[0] && k + 1 < maxRetries {
      ChainDoubles(p, k + 1, maxRetries, flags[1..]);
      ChainFirst(p, k, maxRetries, flags, ChainDelays(p, k + 2, maxRetries, flags[1..]));
      DoubledIsPower(p.base, k);
    }
  }

  lemma {:induction false} DoublingsBound(p: Policy, k: nat, delays: seq<real>, n: nat)
    requires p.base >= 0.0 && k + |delays| <= n && Doublings(p, k, delays)
    ensures Sum(delays) <= Doubled(p.base, n) - Doubled(p.base, k)
    decreases |delays|
  {
    if delays == [] {
      DoubledMonotone(p.base, k, n);
    } else {
      DoublingsBound(p, k + 1, delays[1..], n);
    }
  }

  lemma {:induction false} DoubledMonotone(base: real, k: nat, n: nat)
    requires base >= 0.0 && k <= n
    ensures 0.0 <= Doubled(base, k) <= Doubled(base, n)
    decreases n
  {
    if k < n {
      DoubledMonotone(base, k, n - 1);
    } else if k > 0 {
      DoubledMonotone(base, k - 1, n - 1);
    }
  }

  lemma {:induction false} CapsBound(p: Policy, k: nat, delays: seq<real>, n: nat)
    requires p.cap >= 0.0 && |delays| <= n && Doublings(p, k, delays)
    ensures Sum(delays) <= Repeated(p.cap, n)
    decreases n
  {
    if n > 0 {
      if delays == [] {
        CapsBound(p, k, delays, n - 1);
      } else {
        CapsBound(p, k + 1, delays[1..], n - 1);
      }
    }
  }

  /** Total delay scheduled by a chain that starts at any attempt: within the geometric sum of the uncapped
      schedule from there on, and within the cap per permitted retry. `Doubled(x, n)` is x·2ⁿ and `Repeated(x, n)`
      is x·n, by the two lemmas above. */
  lemma ChainDelayBound(p: Policy, first: nat, maxRetries: nat, flags: seq<bool>)
    requires p.base >= 0.0 && p.cap >= 0.0 && first >= 1
    ensures var total := Sum(ChainDelays(p, first, maxRetries, flags));
            if maxRetries <= first then total == 0.0
            else && total <= Doubled(p.base, maxRetries - 1) - Doubled(p.base, first - 1)
                 && total <= Repeated(p.cap, maxRetries - first)
  {
    var k: nat := first - 1;
    var delays := ChainDelays(p, k + 1, maxRetries, flags);
    ChainLength(p, k, maxRetries, flags);
    ChainDoubles(p, k, maxRetries, flags);
    if maxRetries > first {
      DoublingsBound(p, k, delays, maxRetries - 1);
      CapsBound(p, k, delays, maxRetries - first);
    }
  }

  lemma ChainLength(p: Policy, k: nat, maxRetries: int, flags: seq<bool>)
    ensures |ChainDelays(p, k + 1, maxRetries, flags)| <= Room(k, maxRetries)
  {
    ChainShape(p, k, maxRetries, flags);
  }
}
