/** The logical recovery guard in front of the policy engine (app/orchestrator/guard.py). */
module Guard {
  import opened RecoveryTypes
  import opened Policy

  datatype GuardResult = GuardResult(
    approved: bool,
    escalated: bool,
    stopReason: Option<string>,
    checked: seq<string>,
    violated: seq<string>)

  const GUARDS: seq<string> := [
    "SAFETY_UNKNOWN_ERROR_GUARD", "NON_RETRYABLE_ERROR_GUARD", "MERCHANT_ENABLED_GUARD",
    "HIGH_VALUE_ESCALATION_GUARD", "MAX_RETRIES_GUARD", "MIN_RECOVERY_VALUE_GUARD", "MAX_WINDOW_SLA_GUARD"
  ]

  const REASONS: seq<string> := [
    "UNKNOWN_ERROR_SAFETY_ESCALATION", "NON_RETRYABLE_ERROR", "MERCHANT_RECOVERY_DISABLED",
    "HIGH_VALUE_ENTERPRISE_ESCALATION", "MAX_RETRIES_EXCEEDED", "INSUFFICIENT_RECOVERY_VALUE",
    "MAX_WINDOW_EXCEEDED"
  ]

  function MaxWindow(m: PaymentMethod): real {
    match m
    case Upi => 900.0
    case CreditCard => 7200.0
    case DebitCard => 7200.0
    case _ => 3600.0
  }

  /** Guard number n (in checking order) objects to the plan. */
  predicate Objects(n: nat, ctx: Context, plan: Plan, now: real) {
    match n
    case 0 => plan.retryability.Unknown? || plan.strategy.ManualReview?
    case 1 => plan.retryability.NonRetryable? || plan.strategy.TerminalAbandon?
    case 2 => !ctx.recoveryEnabled
    case 3 => ctx.amount >= ctx.autoEscalateThreshold && ctx.attempt >= 2
    case 4 => ctx.attempt >= ctx.maxAutoRetries
    case 5 => ctx.amount < ctx.minRecoveryAmount
    case 6 => ctx.failureCreatedAt.Some? && now - ctx.failureCreatedAt.value > MaxWindow(ctx.rail)
    case _ => false
  }

  /** The first two escalating guards send the case to a human; the others stop it. */
  predicate Escalates(n: nat) {
    n == 0 || n == 3
  }

  /** How many guards pass before the first objection; 7 when none objects. */
  function PassedGuards(ctx: Context, plan: Plan, now: real): (n: nat)
    ensures n <= 7
    ensures forall k :: 0 <= k < n ==> !Objects(k, ctx, plan, now)
    ensures n < 7 ==> Objects(n, ctx, plan, now)
  {
    if Objects(0, ctx, plan, now) then 0
    else if Objects(1, ctx, plan, now) then 1
    else if Objects(2, ctx, plan, now) then 2
    else if Objects(3, ctx, plan, now) then 3
    else if Objects(4, ctx, plan, now) then 4
    else if Objects(5, ctx, plan, now) then 5
    else if Objects(6, ctx, plan, now) then 6
    else 7
  }

  /** All seven guards pass exactly under these facts. */
  lemma GuardsPassIff(ctx: Context, plan: Plan, now: real)
    ensures PassedGuards(ctx, plan, now) == 7 <==>
            && plan.retryability !in {Unknown, NonRetryable} && plan.strategy !in {ManualReview, TerminalAbandon}
            && ctx.recoveryEnabled && (ctx.attempt >= 2 ==> ctx.amount < ctx.autoEscalateThreshold)
            && ctx.attempt < ctx.maxAutoRetries && ctx.minRecoveryAmount <= ctx.amount
            && (ctx.failureCreatedAt.Some? ==>
                  now - ctx.failureCreatedAt.value <=
                  if ctx.rail == Upi then 900.0 else if ctx.rail in {CreditCard, DebitCard} then 7200.0 else 3600.0)
  {
  }

  /** Approved exactly when no guard objects; otherwise the first objection decides, and what is reported is
      the guards up to it. */
  method Evaluate(ctx: Context, plan: Plan, now: real) returns (r: GuardResult)
    ensures var n := PassedGuards(ctx, plan, now);
            if n == 7 then r == GuardResult(true, false, None, GUARDS, [])
            else r == GuardResult(false, Escalates(n), Some(REASONS[n]), GUARDS[..n + 1], [GUARDS[n]])
  {
    var checked: seq<string> := [];
    checked := checked + ["SAFETY_UNKNOWN_ERROR_GUARD"];
    if plan.retryability == Unknown || plan.strategy == ManualReview {
      return GuardResult(false, true, Some("UNKNOWN_ERROR_SAFETY_ESCALATION"), checked, ["SAFETY_UNKNOWN_ERROR_GUARD"]);
    }
    checked := checked + ["NON_RETRYABLE_ERROR_GUARD"];
    if plan.retryability == NonRetryable || plan.strategy == TerminalAbandon {
      return GuardResult(false, false, Some("NON_RETRYABLE_ERROR"), checked, ["NON_RETRYABLE_ERROR_GUARD"]);
    }
    checked := checked + ["MERCHANT_ENABLED_GUARD"];
    if !ctx.recoveryEnabled {
      return GuardResult(false, false, Some("MERCHANT_RECOVERY_DISABLED"), checked, ["MERCHANT_ENABLED_GUARD"]);
    }
    checked := checked + ["HIGH_VALUE_ESCALATION_GUARD"];
    if ctx.amount >= ctx.autoEscalateThreshold && ctx.attempt >= 2 {
      return GuardResult(false, true, Some("HIGH_VALUE_ENTERPRISE_ESCALATION"), checked,
                         ["HIGH_VALUE_ESCALATION_GUARD"]);
    }
    checked := checked + ["MAX_RETRIES_GUARD"];
    if ctx.attempt >= ctx.maxAutoRetries {
      return GuardResult(false, false, Some("MAX_RETRIES_EXCEEDED"), checked, ["MAX_RETRIES_GUARD"]);
    }
    checked := checked + ["MIN_RECOVERY_VALUE_GUARD"];
    if ctx.amount < ctx.minRecoveryAmount {
      return GuardResult(false, false, Some("INSUFFICIENT_RECOVERY_VALUE"), checked, ["MIN_RECOVERY_VALUE_GUARD"]);
    }
    checked := checked + ["MAX_WINDOW_SLA_GUARD"];
    var maxWindow :=
      if ctx.rail == Upi then 900.0 else if ctx.rail == CreditCard || ctx.rail == DebitCard then 7200.0 else 3600.0;
    if ctx.failureCreatedAt.Some? {
      var elapsed := now - ctx.failureCreatedAt.value;
      if elapsed > maxWindow {
        return GuardResult(false, false, Some("MAX_WINDOW_EXCEEDED"), checked, ["MAX_WINDOW_SLA_GUARD"]);
      }
    }
    return GuardResult(true, false, None, checked, []);
  }
}
