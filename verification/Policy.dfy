/** The financial safety policy: ten rules and the engine that joins them (app/policy). Amounts are in paise. */
module Policy {
  import opened RecoveryTypes
  import ErrorCodes

  datatype Context = Context(
    paymentId: string,
    merchantId: string,
    amount: int,
    rail: PaymentMethod,
    routeId: string,
    errorCode: string,
    attempt: int,
    failureCreatedAt: Option<real>,
    recoveryEnabled: bool,
    maxAutoRetries: int,
    minRecoveryAmount: int,
    autoEscalateThreshold: int,
    paymentStatus: Option<PaymentLifecycleState>)

  datatype Plan = Plan(
    strategy: RecoveryStrategy,
    retryability: RetryabilityClass,
    targetRoute: Option<string>,
    backoff: Option<real>,
    notificationChannel: Option<string>,
    notificationTemplate: Option<string>)

  datatype Config = Config(
    maxWindowSec: map<PaymentMethod, real>,
    defaultWindowSec: real,
    systemMaxAmount: int,
    permittedStrategies: set<RecoveryStrategy>,
    permittedRetryMethods: set<PaymentMethod>,
    maxFraudRisk: real)

  const DEFAULT_CONFIG := Config(
    map[Upi := 900.0, CreditCard := 7200.0, DebitCard := 7200.0, Netbanking := 3600.0, Wallet := 1800.0],
    3600.0,
    10_000_000,
    {DeterministicRetryBackoff, RouteFailover, NotifyCustomerLink, ManualReview, TerminalAbandon},
    {Upi, CreditCard, DebitCard, Netbanking},
    0.85)

  /** The case fields the rules look at. */
  datatype CaseView = CaseView(state: RecoveryState, status: PaymentLifecycleState)

  datatype Input = Input(ctx: Context, plan: Plan, config: Config, recoveryCase: Option<CaseView>, now: real)

  datatype Decision = Permitted | RequiresHumanApproval | Denied

  datatype Finding = Finding(decision: Decision, reason: string)

  /** A rule answers None when it has nothing against the plan. */
  datatype Rule = Rule(name: string, check: Input -> Option<Finding>)

  // ---- the ten rules ------------------------------------------------------------

  function FailClosed(i: Input): Option<Finding> {
    if i.ctx.merchantId == "" then Some(Finding(Denied, "POLICY_DATA_UNAVAILABLE"))
    else if i.ctx.amount <= 0 then Some(Finding(Denied, "POLICY_DATA_UNAVAILABLE"))
    else None
  }

  function TerminalLock(i: Input): Option<Finding> {
    if i.recoveryCase.Some? && i.recoveryCase.value.state.IsTerminal() then
      Some(Finding(Denied, "TERMINAL_WORKFLOW_LOCKED"))
    else if i.recoveryCase.Some? && i.recoveryCase.value.status.IsTerminal() then
      Some(Finding(Denied, "TERMINAL_WORKFLOW_LOCKED"))
    else if i.ctx.paymentStatus.Some? && i.ctx.paymentStatus.value.IsTerminal() then
      Some(Finding(Denied, "TERMINAL_WORKFLOW_LOCKED"))
    else None
  }

  const PENDING_ERROR_CODES: set<string> := {
    "PAYMENT_PENDING", "PROCESSING", "PROCESSING_IN_FLIGHT", "AWAITING_CONFIRMATION", "TRANSACTION_PENDING",
    "PENDING_CAPTURE"
  }

  function PendingReconciliation(i: Input): Option<Finding> {
    if ErrorCodes.Normalize(i.ctx.errorCode) in PENDING_ERROR_CODES then
      Some(Finding(Denied, "PENDING_PAYMENT_HOLD"))
    else None
  }

  const PROHIBITED_ERROR_CODES: set<string> := {
    "SANCTION_VIOLATION", "CARD_BLOCKED", "RISK_REJECTED", "FRAUD_SUSPECTED", "VELOCITY_CHECK_FAILED",
    "ACCOUNT_BLOCKED"
  }

  /** The context declares no customer_risk_score, so the lookup always yields its default. */
  const CUSTOMER_RISK_SCORE := 0.0

  function ProhibitedSituations(i: Input): Option<Finding> {
    if ErrorCodes.Normalize(i.ctx.errorCode) in PROHIBITED_ERROR_CODES then
      Some(Finding(Denied, "PROHIBITED_RECOVERY_SITUATION"))
    else if CUSTOMER_RISK_SCORE >= i.config.maxFraudRisk then
      Some(Finding(Denied, "PROHIBITED_RECOVERY_SITUATION"))
    else None
  }

  function MerchantRestrictions(i: Input): Option<Finding> {
    if !i.ctx.recoveryEnabled then Some(Finding(Denied, "MERCHANT_RESTRICTION"))
    else if i.ctx.amount < i.ctx.minRecoveryAmount then Some(Finding(Denied, "MERCHANT_RESTRICTION"))
    else None
  }

  function MaxRetryCount(i: Input): Option<Finding> {
    if i.plan.strategy.IsRetry() && i.ctx.attempt >= i.ctx.maxAutoRetries then
      Some(Finding(Denied, "MAX_RETRY_COUNT_EXCEEDED"))
    else None
  }

  function WindowFor(config: Config, m: PaymentMethod): real {
    if m in config.maxWindowSec then config.maxWindowSec[m] else config.defaultWindowSec
  }

  function RecoveryWindow(i: Input): Option<Finding> {
    if i.ctx.failureCreatedAt.Some?
       && i.now - i.ctx.failureCreatedAt.value > WindowFor(i.config, i.ctx.rail)
    then Some(Finding(Denied, "MAX_RECOVERY_WINDOW_EXCEEDED"))
    else None
  }

  function PermittedStrategies(i: Input): Option<Finding> {
    if i.plan.strategy !in i.config.permittedStrategies then Some(Finding(Denied, "UNAUTHORIZED_STRATEGY"))
    else None
  }

  function PermittedPaymentMethods(i: Input): Option<Finding> {
    if i.plan.strategy.IsRetry() && i.ctx.rail !in i.config.permittedRetryMethods then
      Some(Finding(Denied, "PAYMENT_METHOD_NOT_SUPPORTED"))
    else None
  }

  function Min(a: int, b: int): int {
    if b < a then b else a
  }

  function AutomatedAmountCap(i: Input): Option<Finding> {
    var threshold := Min(i.ctx.autoEscalateThreshold, i.config.systemMaxAmount);
    if i.ctx.amount > i.config.systemMaxAmount then Some(Finding(RequiresHumanApproval, "HIGH_VALUE_TRANSACTION"))
    else if i.ctx.amount >= threshold && i.ctx.attempt >= 2 then
      Some(Finding(RequiresHumanApproval, "HIGH_VALUE_TRANSACTION"))
    else None
  }

  const TERMINAL_LOCK_RULE := Rule("TERMINAL_WORKFLOW_LOCK_POLICY", i => TerminalLock(i))

  const DEFAULT_RULES: seq<Rule> := [
    Rule("FAIL_CLOSED_DATA_INTEGRITY_POLICY", i => FailClosed(i)),
    TERMINAL_LOCK_RULE,
    Rule("PENDING_PAYMENT_RECONCILIATION_POLICY", i => PendingReconciliation(i)),
    Rule("PROHIBITED_RECOVERY_SITUATION_POLICY", i => ProhibitedSituations(i)),
    Rule("MERCHANT_RESTRICTIONS_POLICY", i => MerchantRestrictions(i)),
    Rule("MAX_RETRY_COUNT_POLICY", i => MaxRetryCount(i)),
    Rule("MAX_RECOVERY_WINDOW_SLA_POLICY", i => RecoveryWindow(i)),
    Rule("PERMITTED_STRATEGIES_POLICY", i => PermittedStrategies(i)),
    Rule("PERMITTED_PAYMENT_METHODS_POLICY", i => PermittedPaymentMethods(i)),
    Rule("AUTOMATED_AMOUNT_CAP_POLICY", i => AutomatedAmountCap(i))
  ]

  function ChooseConfig(custom: Option<Config>): Config {
    if custom.Some? then custom.value else DEFAULT_CONFIG
  }

  /** An absent or empty custom list falls back to the ten rules. */
  function ChooseRules(custom: Option<seq<Rule>>): seq<Rule> {
    if custom.Some? && custom.value != [] then custom.value else DEFAULT_RULES
  }

  // ---- what the decision means ---------------------------------------------------

  function Verdict(r: Rule, i: Input): Decision {
    match r.check(i)
    case None => Permitted
    case Some(f) => f.decision
  }

  function Join(a: Decision, b: Decision): Decision {
    if a.Denied? || b.Denied? then Denied
    else if a.RequiresHumanApproval? || b.RequiresHumanApproval? then RequiresHumanApproval
    else Permitted
  }

  function JoinAll(rules: seq<Rule>, i: Input): Decision {
    if rules == [] then Permitted else Join(JoinAll(rules[..|rules| - 1], i), Verdict(rules[|rules| - 1], i))
  }

  /** The join, said without order: denied if any rule denies; otherwise held for approval if any rule asks. */
  lemma {:induction false} JoinMeans(rules: seq<Rule>, i: Input)
    ensures JoinAll(rules, i).Denied? <==> exists k :: 0 <= k < |rules| && Verdict(rules[k], i).Denied?
    ensures JoinAll(rules, i).Permitted? <==> forall k :: 0 <= k < |rules| ==> Verdict(rules[k], i).Permitted?
  {
    if rules != [] {
      var n := |rules| - 1;
      JoinMeans(rules[..n], i);
      assert forall k :: 0 <= k < n ==> rules[..n][k] == rules[k];
      if JoinAll(rules[..n], i).Denied? {
        var k :| 0 <= k < n && Verdict(rules[..n][k], i).Denied?;
        assert Verdict(rules[k], i).Denied?;
      }
    }
  }

  ghost predicate Within(rules: seq<Rule>, others: seq<Rule>) {
    forall k :: 0 <= k < |rules| ==> exists j :: 0 <= j < |others| && rules[k] == others[j]
  }

  predicate AtLeastAsStrict(a: Decision, b: Decision) {
    a.Denied? || a == b || b.Permitted?
  }

  /** More rules never make the decision more permissive. */
  lemma MoreRulesAreStricter(rules: seq<Rule>, more: seq<Rule>, i: Input)
    requires Within(rules, more)
    ensures AtLeastAsStrict(JoinAll(more, i), JoinAll(rules, i))
  {
    JoinMeans(rules, i);
    JoinMeans(more, i);
    if JoinAll(rules, i).Denied? {
      var k :| 0 <= k < |rules| && Verdict(rules[k], i).Denied?;
      var j :| 0 <= j < |more| && rules[k] == more[j];
      assert Verdict(more[j], i).Denied?;
    } else if JoinAll(more, i).Permitted? {
      forall k | 0 <= k < |rules| ensures Verdict(rules[k], i).Permitted? {
        var j :| 0 <= j < |more| && rules[k] == more[j];
        assert Verdict(more[j], i).Permitted?;
      }
    }
  }

  /** Neither the order of the rules nor repetition matters. */
  lemma OrderDoesNotMatter(rules: seq<Rule>, others: seq<Rule>, i: Input)
    requires Within(rules, others) && Within(others, rules)
    ensures JoinAll(rules, i) == JoinAll(others, i)
  {
    MoreRulesAreStricter(rules, others, i);
    MoreRulesAreStricter(others, rules, i);
  }

  // ---- what the ten rules decide -----------------------------------------------------

  const ENDED := {PaymentLifecycleState.Succeeded, PaymentLifecycleState.Recovered, PaymentLifecycleState.Stopped,
                  PaymentLifecycleState.Escalated}

  /** Nothing is missing, ended, pending, prohibited, restricted, exhausted, late or unauthorised. */
  predicate Allowed(i: Input) {
    var x, code := i.ctx, ErrorCodes.Normalize(i.ctx.errorCode);
    && x.merchantId != "" && 0 < x.amount
    && (i.recoveryCase.Some? ==>
          && i.recoveryCase.value.state !in {RecoveryState.RecoverySucceeded, RecoveryState.Stopped,
                                             RecoveryState.Escalated}
          && i.recoveryCase.value.status !in ENDED)
    && (x.paymentStatus.Some? ==> x.paymentStatus.value !in ENDED)
    && code !in {"PAYMENT_PENDING", "PROCESSING", "PROCESSING_IN_FLIGHT", "AWAITING_CONFIRMATION",
                 "TRANSACTION_PENDING", "PENDING_CAPTURE"}
    && code !in {"SANCTION_VIOLATION", "CARD_BLOCKED", "RISK_REJECTED", "FRAUD_SUSPECTED", "VELOCITY_CHECK_FAILED",
                 "ACCOUNT_BLOCKED"}
    && 0.0 < i.config.maxFraudRisk
    && x.recoveryEnabled && x.minRecoveryAmount <= x.amount
    && (i.plan.strategy in {DeterministicRetryBackoff, RouteFailover} ==>
          x.attempt < x.maxAutoRetries && x.rail in i.config.permittedRetryMethods)
    && (x.failureCreatedAt.Some? ==>
          i.now - x.failureCreatedAt.value <=
          if x.rail in i.config.maxWindowSec then i.config.maxWindowSec[x.rail] else i.config.defaultWindowSec)
    && i.plan.strategy in i.config.permittedStrategies
  }

  /** Above the system's cap, or a repeated failure on an amount at either threshold. */
  predicate NeedsHuman(i: Input) {
    || i.config.systemMaxAmount < i.ctx.amount
    || (i.ctx.attempt >= 2 && (i.ctx.autoEscalateThreshold <= i.ctx.amount || i.config.systemMaxAmount <= i.ctx.amount))
  }

  predicate NineSilent(i: Input) {
    && FailClosed(i).None? && TerminalLock(i).None? && PendingReconciliation(i).None? && ProhibitedSituations(i).None?
    && MerchantRestrictions(i).None? && MaxRetryCount(i).None? && RecoveryWindow(i).None?
    && PermittedStrategies(i).None? && PermittedPaymentMethods(i).None?
  }

  lemma SilentIffAllowed(i: Input)
    ensures NineSilent(i) <==> Allowed(i)
  {
    hide ErrorCodes.Normalize;
  }

  /** The rule has nothing against the plan, or denies it. */
  predicate Denies(f: Option<Finding>) {
    f.Some? ==> f.value.decision.Denied?
  }

  lemma NineDeny(i: Input)
    ensures Denies(FailClosed(i)) && Denies(TerminalLock(i)) && Denies(PendingReconciliation(i))
    ensures Denies(ProhibitedSituations(i)) && Denies(MerchantRestrictions(i)) && Denies(MaxRetryCount(i))
    ensures Denies(RecoveryWindow(i)) && Denies(PermittedStrategies(i)) && Denies(PermittedPaymentMethods(i))
  {
  }

  lemma TenChecks(i: Input)
    ensures var rules := DEFAULT_RULES;
            && |rules| == 10
            && rules[0].check(i) == FailClosed(i) && rules[1].check(i) == TerminalLock(i)
            && rules[2].check(i) == PendingReconciliation(i) && rules[3].check(i) == ProhibitedSituations(i)
            && rules[4].check(i) == MerchantRestrictions(i) && rules[5].check(i) == MaxRetryCount(i)
            && rules[6].check(i) == RecoveryWindow(i) && rules[7].check(i) == PermittedStrategies(i)
            && rules[8].check(i) == PermittedPaymentMethods(i) && rules[9].check(i) == AutomatedAmountCap(i)
  {
    hide FailClosed, TerminalLock, PendingReconciliation, ProhibitedSituations, MerchantRestrictions, MaxRetryCount,
         RecoveryWindow, PermittedStrategies, PermittedPaymentMethods, AutomatedAmountCap;
  }

  lemma TenVerdicts(i: Input)
    ensures |DEFAULT_RULES| == 10
    ensures (forall k :: 0 <= k < 9 ==> Verdict(DEFAULT_RULES[k], i).Permitted?) <==> Allowed(i)
    ensures forall k :: 0 <= k < 9 ==> !Verdict(DEFAULT_RULES[k], i).RequiresHumanApproval?
    ensures Verdict(DEFAULT_RULES[9], i) == if NeedsHuman(i) then RequiresHumanApproval else Permitted
  {
    TenChecks(i);
    SilentIffAllowed(i);
    NineDeny(i);
    hide Allowed, FailClosed, TerminalLock, PendingReconciliation, ProhibitedSituations, MerchantRestrictions,
         MaxRetryCount, RecoveryWindow, PermittedStrategies, PermittedPaymentMethods, ErrorCodes.Normalize;
    VerdictsOf(DEFAULT_RULES, i);
  }

  /** The verdicts of ten rules, one by one. */
  lemma VerdictsOf(rules: seq<Rule>, i: Input)
    requires |rules| == 10
    ensures (forall k :: 0 <= k < 9 ==> Verdict(rules[k], i).Permitted?) <==>
            && Verdict(rules[0], i).Permitted? && Verdict(rules[1], i).Permitted? && Verdict(rules[2], i).Permitted?
            && Verdict(rules[3], i).Permitted? && Verdict(rules[4], i).Permitted? && Verdict(rules[5], i).Permitted?
            && Verdict(rules[6], i).Permitted? && Verdict(rules[7], i).Permitted? && Verdict(rules[8], i).Permitted?
  {
    hide Verdict;
  }

  /** The ten rules together: denied unless everything is in order, then held for a human exactly for high values. */
  lemma DefaultRulesDecide(i: Input)
    ensures JoinAll(DEFAULT_RULES, i) ==
            if !Allowed(i) then Denied else if NeedsHuman(i) then RequiresHumanApproval else Permitted
  {
    var rules := DEFAULT_RULES;
    TenVerdicts(i);
    JoinMeans(rules, i);
    hide Allowed, NeedsHuman, JoinAll, Verdict;
    if !Allowed(i) {
      var k :| 0 <= k < 9 && !Verdict(rules[k], i).Permitted?;
      assert Verdict(rules[k], i).Denied?;
    } else {
      assert forall k :: 0 <= k < 10 ==> !Verdict(rules[k], i).Denied?;
      if NeedsHuman(i) {
        assert !Verdict(rules[9], i).Permitted?;
      }
    }
  }

  // ---- the engine ------------------------------------------------------------------

  datatype Evaluation = Evaluation(
    decision: Decision,
    violated: seq<string>,
    reason: string,
    evaluated: seq<string>,
    risk: string)

  function Names(rules: seq<Rule>): seq<string> {
    if rules == [] then [] else Names(rules[..|rules| - 1]) + [rules[|rules| - 1].name]
  }

  /** The names of the rules that objected, in order. */
  function Objections(rules: seq<Rule>, i: Input): seq<string> {
    if rules == [] then []
    else
      var last := rules[|rules| - 1];
      Objections(rules[..|rules| - 1], i) + (if last.check(i).Some? then [last.name] else [])
  }

  /** The reason given by the last rule that asked for approval. */
  function LastApproval(rules: seq<Rule>, i: Input): string {
    if rules == [] then ""
    else
      var last := rules[|rules| - 1];
      if Verdict(last, i).RequiresHumanApproval? then last.check(i).value.reason
      else LastApproval(rules[..|rules| - 1], i)
  }

  /** The reason given by the first rule that denied. */
  function FirstDenial(rules: seq<Rule>, i: Input): string {
    if rules == [] then ""
    else
      var n := |rules| - 1;
      if JoinAll(rules[..n], i).Denied? || !Verdict(rules[n], i).Denied? then FirstDenial(rules[..n], i)
      else rules[n].check(i).value.reason
  }

  lemma {:induction false} FirstDenialAt(rules: seq<Rule>, i: Input, n: nat)
    requires n < |rules| && Verdict(rules[n], i).Denied?
    requires forall k :: 0 <= k < n ==> !Verdict(rules[k], i).Denied?
    ensures FirstDenial(rules, i) == rules[n].check(i).value.reason
  {
    var m := |rules| - 1;
    JoinMeans(rules[..m], i);
    if n < m {
      assert Verdict(rules[..m][n], i).Denied?;
      FirstDenialAt(rules[..m], i, n);
    }
  }

  lemma SnocRules(rules: seq<Rule>, n: nat)
    requires n < |rules|
    ensures rules[..n + 1][..n] == rules[..n] && rules[..n + 1][n] == rules[n]
  {
  }

  /** The loop stops at the first denial, yet decides exactly as if every rule had been asked. */
  method Evaluate(rules: seq<Rule>, i: Input) returns (r: Evaluation)
    ensures r.decision == JoinAll(rules, i)
    ensures r.decision.Denied? ==> exists n ::
              && 0 <= n < |rules| && Verdict(rules[n], i).Denied?
              && (forall k :: 0 <= k < n ==> !Verdict(rules[k], i).Denied?)
              && r.reason == rules[n].check(i).value.reason
              && r.evaluated == Names(rules[..n + 1]) && r.violated == Objections(rules[..n + 1], i)
    ensures r.decision.Denied? ==> r.reason == FirstDenial(rules, i)
    ensures !r.decision.Denied? ==> r.evaluated == Names(rules)
    ensures r.decision.RequiresHumanApproval? ==>
              r.violated == Objections(rules, i) && r.reason == LastApproval(rules, i)
    ensures r.decision.Permitted? ==> r.violated == []
  {
    var evaluated, violated: seq<string> := [], [];
    var approvalRequired, approvalReason := false, "";
    var n := 0;
    while n < |rules|
      invariant 0 <= n <= |rules|
      invariant evaluated == Names(rules[..n]) && violated == Objections(rules[..n], i)
      invariant forall k :: 0 <= k < n ==> !Verdict(rules[k], i).Denied?
      invariant JoinAll(rules[..n], i) == if approvalRequired then RequiresHumanApproval else Permitted
      invariant approvalReason == LastApproval(rules[..n], i)
    {
      var rule := rules[n];
      SnocRules(rules, n);
      evaluated := evaluated + [rule.name];
      var outcome := rule.check(i);
      if outcome.Some? {
        violated := violated + [rule.name];
        if outcome.value.decision == Denied {
          assert Verdict(rules[n], i).Denied?;
          JoinMeans(rules, i);
          FirstDenialAt(rules, i, n);
          return Evaluation(Denied, violated, outcome.value.reason, evaluated, "HIGH");
        } else if outcome.value.decision == RequiresHumanApproval {
          approvalRequired := true;
          approvalReason := outcome.value.reason;
        }
      }
      n := n + 1;
    }
    assert rules[..n] == rules;
    if approvalRequired {
      return Evaluation(RequiresHumanApproval, violated, approvalReason, evaluated, "MEDIUM");
    }
    return Evaluation(Permitted, [], "Approved under financial safety policy", evaluated, "LOW");
  }
}
