/** One orchestration of a failed payment: guard, policy, commit, events (app/orchestrator/orchestrator.py).
    The plan is whatever the decision engine returns, so it is an arbitrary argument throughout. */
module Orchestrator {
  import opened RecoveryTypes
  import opened Policy
  import Guard
  import StateMachine
  import ErrorCodes

  datatype PaymentRow = PaymentRow(merchantId: string, amount: int, rail: PaymentMethod, status: PaymentLifecycleState)

  datatype MerchantRow = MerchantRow(recoveryEnabled: bool, maxAutoRetries: int, minAmount: int, escalateThreshold: int)

  datatype RecoveryCase = RecoveryCase(
    id: string,
    status: PaymentLifecycleState,
    state: RecoveryState,
    strategy: RecoveryStrategy,
    attemptCount: int,
    maxAttempts: int,
    stopReason: Option<string>,
    completedAt: Option<real>)

  datatype Payload = Payload(
    paymentId: string,
    merchantId: string,
    amount: int,
    rail: PaymentMethod,
    routeId: string,
    errorCode: string,
    attempt: int)

  datatype Event =
    | RecoveryStarted(payment: string, caseId: string, strategy: RecoveryStrategy, attemptCount: int)
    | NotificationRequested(payment: string, channel: string, template: string)
    | RetryRequested(payment: string, caseId: string, attempt: int, route: string, strategy: RecoveryStrategy,
                     delay: real)
    | RecoveryStopped(payment: string, caseId: string, reason: string)
    | RecoveryEscalated(payment: string, caseId: string, reason: string, amount: int)

  datatype Store = Store(
    payments: map<string, PaymentRow>,
    merchants: map<string, MerchantRow>,
    cases: map<string, RecoveryCase>)

  /** A call of orchestrate_failure: the event, the plan chosen for it, the clock when the context is built and
      when the guards run, and the id a new case would get. */
  datatype Call = Call(payload: Payload, plan: Plan, builtAt: real, now: real, newId: string)

  datatype Disposition = Approve | Stop(reason: string) | Escalate(reason: string)

  function Max(a: int, b: int): int {
    if a < b then b else a
  }

  const DEFAULT_MERCHANT := MerchantRow(true, 2, 5_000, 5_000_000)

  /** The authoritative rows win over the event's own copy of the amount and the rail. */
  function BuildContext(s: Store, c: Call): Context {
    var p := c.payload;
    var row := if p.paymentId in s.payments then Some(s.payments[p.paymentId]) else None;
    var merchantId := if row.Some? then row.value.merchantId else p.merchantId;
    var m := if merchantId in s.merchants then s.merchants[merchantId] else DEFAULT_MERCHANT;
    Context(
      p.paymentId,
      merchantId,
      if row.Some? then row.value.amount else p.amount,
      if row.Some? then row.value.rail else p.rail,
      p.routeId,
      p.errorCode,
      p.attempt,
      Some(c.builtAt),
      m.recoveryEnabled,
      m.maxAutoRetries,
      m.minAmount,
      m.escalateThreshold,
      if row.Some? then Some(row.value.status) else None)
  }

  function OpenCase(s: Store, c: Call): RecoveryCase {
    var p := c.payload.paymentId;
    if p in s.cases then s.cases[p].(state := RecoveryState.Failed)
    else
      RecoveryCase(c.newId, PaymentLifecycleState.RecoveryPending, RecoveryState.Failed, NoStrategy,
                   Max(0, c.payload.attempt - 1), 2, None, None)
  }

  /** The case as the guards see it: bound to the merchant's limit and the plan, waiting for a decision. */
  function PendingCase(s: Store, c: Call): RecoveryCase {
    OpenCase(s, c).(maxAttempts := BuildContext(s, c).maxAutoRetries, strategy := c.plan.strategy,
                    state := RecoveryState.GuardPending)
  }

  function PolicyInput(config: Config, s: Store, c: Call): Input {
    Input(BuildContext(s, c), c.plan, config,
          Some(CaseView(RecoveryState.GuardPending, OpenCase(s, c).status)), c.now)
  }

  /** Both layers, in order: the first guard that objects, then the join of the policy rules. */
  function Dispose(rules: seq<Rule>, config: Config, s: Store, c: Call): Disposition {
    var n := Guard.PassedGuards(BuildContext(s, c), c.plan, c.now);
    if n < 7 then
      if Guard.Escalates(n) then Escalate(Guard.REASONS[n]) else Stop(Guard.REASONS[n])
    else
      var i := PolicyInput(config, s, c);
      match JoinAll(rules, i)
      case Denied => Stop(FirstDenial(rules, i))
      case RequiresHumanApproval => Escalate(LastApproval(rules, i))
      case Permitted => Approve
  }

  function Or(text: Option<string>, default: string): string {
    if text.Some? && text.value != "" then text.value else default
  }

  function FinalCase(rules: seq<Rule>, config: Config, s: Store, c: Call): RecoveryCase {
    var case0 := PendingCase(s, c);
    match Dispose(rules, config, s, c)
    case Approve => case0.(state := RecoveryState.Approved, status := PaymentLifecycleState.RecoveryPending)
    case Stop(reason) =>
      case0.(state := RecoveryState.Stopped, status := PaymentLifecycleState.Stopped, stopReason := Some(reason),
             completedAt := Some(c.now))
    case Escalate(reason) =>
      case0.(state := RecoveryState.Escalated, status := PaymentLifecycleState.Escalated, stopReason := Some(reason),
             completedAt := Some(c.now))
  }

  function Events(rules: seq<Rule>, config: Config, s: Store, c: Call): seq<Event> {
    var p := c.payload.paymentId;
    var done := FinalCase(rules, config, s, c);
    match Dispose(rules, config, s, c)
    case Stop(reason) => [RecoveryStopped(p, done.id, reason)]
    case Escalate(reason) => [RecoveryEscalated(p, done.id, reason, BuildContext(s, c).amount)]
    case Approve =>
      [RecoveryStarted(p, done.id, c.plan.strategy, done.attemptCount),
       NotificationRequested(p, Or(c.plan.notificationChannel, "SMS"),
                             Or(c.plan.notificationTemplate, "PAYMENT_FAILED_RECOVERY_STARTED"))]
      + if c.plan.strategy.IsRetry() then
          [RetryRequested(p, done.id, c.payload.attempt + 1, Or(c.plan.targetRoute, c.payload.routeId),
                          c.plan.strategy, if c.plan.backoff.Some? then c.plan.backoff.value else 0.0)]
        else []
  }

  function After(rules: seq<Rule>, config: Config, s: Store, c: Call): Store {
    s.(cases := s.cases[c.payload.paymentId := FinalCase(rules, config, s, c)])
  }

  // ---- the method ------------------------------------------------------------------

  class IntelligentRecoveryOrchestrator {
    const config: Config
    const rules: seq<Rule>
    var store: Store
    var outbox: seq<Event>

    constructor (config: Option<Config>, custom: Option<seq<Rule>>, store: Store)
      ensures this.config == ChooseConfig(config) && rules == ChooseRules(custom)
      ensures this.store == store && outbox == []
    {
      this.config := if config.Some? then config.value else DEFAULT_CONFIG;
      this.rules := if custom.Some? && |custom.value| > 0 then custom.value else DEFAULT_RULES;
      this.store := store;
      this.outbox := [];
    }

    /** The case object is changed step by step in the session; one commit makes it visible, and only then
        are events published. No transition the method asks for is ever refused. */
    method OrchestrateFailure(c: Call) returns (done: RecoveryCase)
      modifies this
      ensures done == FinalCase(rules, config, old(store), c)
      ensures store == After(rules, config, old(store), c)
      ensures outbox == old(outbox) + Events(rules, config, old(store), c)
      ensures rules == DEFAULT_RULES ==>
                ((exists e :: e in outbox[|old(outbox)|..] && e.RetryRequested?) <==> MayRetry(config, old(store), c))
    {
      RetryIff(config, store, c);
      var rc, context := Prepare(c);
      var guard := Guard.Evaluate(context, c.plan, c.now);
      if guard.escalated {
        done := Escalate(c.payload.paymentId, rc, guard.stopReason.value, c.now, context.amount);
      } else if !guard.approved {
        done := Halt(c.payload.paymentId, rc, guard.stopReason.value, c.now);
      } else {
        done := Authorize(c, rc, context);
      }
    }

    /** Create or reset the case, gather the context, and walk the case up to GUARD_PENDING. */
    method Prepare(c: Call) returns (rc: RecoveryCase, context: Context)
      ensures rc == PendingCase(store, c) && context == BuildContext(store, c)
    {
      var p := c.payload.paymentId;
      if p in store.cases {
        rc := store.cases[p].(state := RecoveryState.Failed);
      } else {
        var attempts := if c.payload.attempt - 1 > 0 then c.payload.attempt - 1 else 0;
        rc := RecoveryCase(c.newId, PaymentLifecycleState.RecoveryPending, RecoveryState.Failed, NoStrategy,
                           attempts, 2, None, None);
      }
      context := GatherContext(c);
      rc := rc.(maxAttempts := context.maxAutoRetries);
      rc := Transition(rc, RecoveryState.Classified);
      rc := Transition(rc, RecoveryState.RecoveryPlanned);
      rc := rc.(strategy := c.plan.strategy);
      rc := Transition(rc, RecoveryState.GuardPending);
    }

    /** The rows of the payment and its merchant, where there are any; otherwise the event's copy and the defaults. */
    method GatherContext(c: Call) returns (context: Context)
      ensures context == BuildContext(store, c)
    {
      var p := c.payload;
      var amount, rail, merchantId := p.amount, p.rail, p.merchantId;
      var status: Option<PaymentLifecycleState> := None;
      if p.paymentId in store.payments {
        var payment := store.payments[p.paymentId];
        amount, rail, merchantId, status := payment.amount, payment.rail, payment.merchantId, Some(payment.status);
      }
      var enabled, retries, least, escalate := true, 2, 5_000, 5_000_000;
      if merchantId in store.merchants {
        var m := store.merchants[merchantId];
        enabled, retries, least, escalate := m.recoveryEnabled, m.maxAutoRetries, m.minAmount, m.escalateThreshold;
      }
      context := Context(p.paymentId, merchantId, amount, rail, p.routeId, p.errorCode, p.attempt, Some(c.builtAt),
                         enabled, retries, least, escalate, status);
    }

    /** The policy stage, once the guards have passed. */
    method Authorize(c: Call, rc: RecoveryCase, context: Context) returns (done: RecoveryCase)
      requires rc == PendingCase(store, c) && context == BuildContext(store, c)
      requires Guard.PassedGuards(context, c.plan, c.now) == 7
      modifies this
      ensures done == FinalCase(rules, config, old(store), c)
      ensures store == After(rules, config, old(store), c)
      ensures outbox == old(outbox) + Events(rules, config, old(store), c)
    {
      var input := Input(context, c.plan, config, Some(CaseView(rc.state, rc.status)), c.now);
      assert input == PolicyInput(config, store, c);
      var policy := Policy.Evaluate(rules, input);
      if policy.decision == Denied {
        done := Halt(c.payload.paymentId, rc, policy.reason, c.now);
      } else if policy.decision == RequiresHumanApproval {
        done := Escalate(c.payload.paymentId, rc, policy.reason, c.now, context.amount);
      } else {
        done := Transition(rc, RecoveryState.Approved);
        done := done.(status := PaymentLifecycleState.RecoveryPending);
        Commit(c.payload.paymentId, done);
        EmitApproved(done, c);
      }
    }

    /** Escalate, commit, then tell. */
    method Escalate(p: string, rc: RecoveryCase, reason: string, now: real, amount: int) returns (done: RecoveryCase)
      requires rc.state == RecoveryState.GuardPending
      modifies this
      ensures done == rc.(state := RecoveryState.Escalated, status := PaymentLifecycleState.Escalated,
                          stopReason := Some(reason), completedAt := Some(now))
      ensures store == old(store).(cases := old(store).cases[p := done])
      ensures outbox == old(outbox) + [RecoveryEscalated(p, rc.id, reason, amount)]
    {
      done := Transition(rc, RecoveryState.Escalated);
      done := Close(done, PaymentLifecycleState.Escalated, reason, now);
      Commit(p, done);
      outbox := outbox + [RecoveryEscalated(p, done.id, reason, amount)];
    }

    /** Stop, commit, then tell. */
    method Halt(p: string, rc: RecoveryCase, reason: string, now: real) returns (done: RecoveryCase)
      requires rc.state == RecoveryState.GuardPending
      modifies this
      ensures done == rc.(state := RecoveryState.Stopped, status := PaymentLifecycleState.Stopped,
                          stopReason := Some(reason), completedAt := Some(now))
      ensures store == old(store).(cases := old(store).cases[p := done])
      ensures outbox == old(outbox) + [RecoveryStopped(p, rc.id, reason)]
    {
      done := Transition(rc, RecoveryState.Stopped);
      done := Close(done, PaymentLifecycleState.Stopped, reason, now);
      Commit(p, done);
      outbox := outbox + [RecoveryStopped(p, done.id, reason)];
    }

    method Transition(rc: RecoveryCase, target: RecoveryState) returns (moved: RecoveryCase)
      requires StateMachine.CanTransition(rc.state, target)
      ensures moved == rc.(state := target)
    {
      moved := rc.(state := target);
    }

    method Close(rc: RecoveryCase, status: PaymentLifecycleState, reason: string, now: real)
      returns (closed: RecoveryCase)
      ensures closed == rc.(status := status, stopReason := Some(reason), completedAt := Some(now))
    {
      closed := rc.(status := status, stopReason := Some(reason), completedAt := Some(now));
    }

    method Commit(p: string, rc: RecoveryCase)
      modifies this`store
      ensures store == old(store).(cases := old(store).cases[p := rc])
    {
      store := store.(cases := store.cases[p := rc]);
    }

    method EmitApproved(rc: RecoveryCase, c: Call)
      modifies this`outbox
      ensures outbox == old(outbox) + (
        [RecoveryStarted(c.payload.paymentId, rc.id, c.plan.strategy, rc.attemptCount),
         NotificationRequested(c.payload.paymentId, Or(c.plan.notificationChannel, "SMS"),
                               Or(c.plan.notificationTemplate, "PAYMENT_FAILED_RECOVERY_STARTED"))]
        + if c.plan.strategy.IsRetry() then
            [RetryRequested(c.payload.paymentId, rc.id, c.payload.attempt + 1,
                            Or(c.plan.targetRoute, c.payload.routeId), c.plan.strategy,
                            if c.plan.backoff.Some? then c.plan.backoff.value else 0.0)]
          else [])
    {
      var p := c.payload.paymentId;
      outbox := outbox + [RecoveryStarted(p, rc.id, c.plan.strategy, rc.attemptCount)];
      var template, channel := "PAYMENT_FAILED_RECOVERY_STARTED", "SMS";
      if c.plan.notificationTemplate.Some? && c.plan.notificationTemplate.value != "" {
        template := c.plan.notificationTemplate.value;
      }
      if c.plan.notificationChannel.Some? && c.plan.notificationChannel.value != "" {
        channel := c.plan.notificationChannel.value;
      }
      outbox := outbox + [NotificationRequested(p, channel, template)];
      if c.plan.strategy == DeterministicRetryBackoff || c.plan.strategy == RouteFailover {
        var route, delay := c.payload.routeId, 0.0;
        if c.plan.targetRoute.Some? && c.plan.targetRoute.value != "" {
          route := c.plan.targetRoute.value;
        }
        if c.plan.backoff.Some? {
          delay := c.plan.backoff.value;
        }
        outbox := outbox + [RetryRequested(p, rc.id, c.payload.attempt + 1, route, c.plan.strategy, delay)];
      }
    }
  }

  // ---- the boundary ------------------------------------------------------------------

  predicate EmitsRetry(rules: seq<Rule>, config: Config, s: Store, c: Call) {
    exists e :: e in Events(rules, config, s, c) && e.RetryRequested?
  }

  /** The facts under which another debit may be requested: those of the payment's and the merchant's rows where there
      are any, otherwise those of the event and the defaults. */
  predicate MayRetry(config: Config, s: Store, c: Call) {
    var p, plan, known := c.payload, c.plan, c.payload.paymentId in s.payments;
    var merchantId := if known then s.payments[p.paymentId].merchantId else p.merchantId;
    var amount := if known then s.payments[p.paymentId].amount else p.amount;
    var rail := if known then s.payments[p.paymentId].rail else p.rail;
    var m := if merchantId in s.merchants then s.merchants[merchantId] else MerchantRow(true, 2, 5_000, 5_000_000);
    var code := ErrorCodes.Normalize(p.errorCode);
    var waited := c.now - c.builtAt;
    // the plan asks for a retry and admits to a known, retryable cause
    && plan.strategy in {DeterministicRetryBackoff, RouteFailover} && plan.strategy in config.permittedStrategies
    && !plan.retryability.Unknown? && !plan.retryability.NonRetryable?
    // merchant
    && m.recoveryEnabled && merchantId != "" && p.attempt < m.maxAutoRetries
    // money
    && 0 < amount && m.minAmount <= amount <= config.systemMaxAmount
    && (p.attempt >= 2 ==> amount < m.escalateThreshold && amount < config.systemMaxAmount)
    // rail and cause
    && rail in config.permittedRetryMethods && 0.0 < config.maxFraudRisk
    && code !in {"PAYMENT_PENDING", "PROCESSING", "PROCESSING_IN_FLIGHT", "AWAITING_CONFIRMATION",
                 "TRANSACTION_PENDING", "PENDING_CAPTURE"}
    && code !in {"SANCTION_VIOLATION", "CARD_BLOCKED", "RISK_REJECTED", "FRAUD_SUSPECTED", "VELOCITY_CHECK_FAILED",
                 "ACCOUNT_BLOCKED"}
    // time
    && waited <= (if rail == Upi then 900.0 else if rail in {CreditCard, DebitCard} then 7200.0 else 3600.0)
    && waited <= (if rail in config.maxWindowSec then config.maxWindowSec[rail] else config.defaultWindowSec)
    // nothing has ended
    && (known ==> s.payments[p.paymentId].status !in ENDED)
    && (p.paymentId in s.cases ==> s.cases[p.paymentId].status !in ENDED)
  }

  lemma EmitsRetryIffApproved(rules: seq<Rule>, config: Config, s: Store, c: Call)
    ensures EmitsRetry(rules, config, s, c) <==> Dispose(rules, config, s, c).Approve? && c.plan.strategy.IsRetry()
  {
    var es := Events(rules, config, s, c);
    if Dispose(rules, config, s, c).Approve? && c.plan.strategy.IsRetry() {
      assert es[2].RetryRequested? && es[2] in es;
    }
  }

  /** The decision boundary, both ways: whatever plan the decision engine returns, a retry is requested
      exactly when the authoritative facts permit one. */
  lemma RetryIff(config: Config, s: Store, c: Call)
    ensures EmitsRetry(DEFAULT_RULES, config, s, c) <==> MayRetry(config, s, c)
  {
    EmitsRetryIffApproved(DEFAULT_RULES, config, s, c);
    Guard.GuardsPassIff(BuildContext(s, c), c.plan, c.now);
    DefaultRulesDecide(PolicyInput(config, s, c));
    hide EmitsRetry, JoinAll, Guard.PassedGuards, FirstDenial, LastApproval, ErrorCodes.Normalize;
  }

  /** Every retry the orchestrator requests is the next attempt of this payment's case, within the limit in its
      merchant's row, on the plan's route if it names one. */
  lemma RetryStaysWithinLimit(rules: seq<Rule>, config: Config, s: Store, c: Call, e: Event)
    requires e in Events(rules, config, s, c) && e.RetryRequested?
    ensures var p, plan := c.payload, c.plan;
            var merchantId := if p.paymentId in s.payments then s.payments[p.paymentId].merchantId else p.merchantId;
            && e.attempt == p.attempt + 1
            && e.attempt <= (if merchantId in s.merchants then s.merchants[merchantId].maxAutoRetries else 2)
            && e.payment == p.paymentId
            && e.caseId == (if p.paymentId in s.cases then s.cases[p.paymentId].id else c.newId)
            && e.route == (if plan.targetRoute.Some? && plan.targetRoute.value != "" then plan.targetRoute.value
                           else p.routeId)
            && e.strategy == plan.strategy
            && e.delay == if plan.backoff.Some? then plan.backoff.value else 0.0
  {
    assert !Guard.Objects(4, BuildContext(s, c), c.plan, c.now);
  }

  // ---- what has ended stays ended -------------------------------------------------------

  predicate Locked(s: Store, p: string) {
    || (p in s.cases && s.cases[p].status.IsTerminal())
    || (p in s.payments && s.payments[p].status.IsTerminal())
  }

  /** The terminal-workflow rule alone keeps a locked payment from ever being approved. */
  lemma LockedIsNotApproved(rules: seq<Rule>, config: Config, s: Store, c: Call)
    requires TERMINAL_LOCK_RULE in rules && Locked(s, c.payload.paymentId)
    ensures !Dispose(rules, config, s, c).Approve?
    ensures FinalCase(rules, config, s, c).status.IsTerminal()
  {
    var i := PolicyInput(config, s, c);
    assert TerminalLock(i).Some?;
    var k :| 0 <= k < |rules| && rules[k] == TERMINAL_LOCK_RULE;
    assert Verdict(rules[k], i).Denied?;
    JoinMeans(rules, i);
  }

  function RunAll(rules: seq<Rule>, config: Config, s: Store, calls: seq<Call>): Store {
    if calls == [] then s
    else After(rules, config, RunAll(rules, config, s, calls[..|calls| - 1]), calls[|calls| - 1])
  }

  lemma {:induction false} LockedStays(rules: seq<Rule>, config: Config, s: Store, p: string, calls: seq<Call>)
    requires TERMINAL_LOCK_RULE in rules && Locked(s, p)
    ensures Locked(RunAll(rules, config, s, calls), p)
  {
    if calls != [] {
      var n := |calls| - 1;
      LockedStays(rules, config, s, p, calls[..n]);
      if calls[n].payload.paymentId == p {
        LockedIsNotApproved(rules, config, RunAll(rules, config, s, calls[..n]), calls[n]);
      }
    }
  }

  /** Once the orchestrator has stopped or escalated a case, or the payment is terminal, no later run of any
      length, with any plans and any other payments in between, approves it or requests a retry. */
  lemma {:induction false} EndedStaysEnded(
    rules: seq<Rule>, config: Config, s: Store, p: string, calls: seq<Call>, last: Call)
    requires TERMINAL_LOCK_RULE in rules && Locked(s, p) && last.payload.paymentId == p
    ensures var t := RunAll(rules, config, s, calls);
            && !EmitsRetry(rules, config, t, last)
            && FinalCase(rules, config, t, last).state in {RecoveryState.Stopped, RecoveryState.Escalated}
            && Locked(After(rules, config, t, last), p)
  {
    LockedStays(rules, config, s, p, calls);
    var t := RunAll(rules, config, s, calls);
    LockedIsNotApproved(rules, config, t, last);
    EmitsRetryIffApproved(rules, config, t, last);
  }

  /** A stop or an escalation by the orchestrator is such an end. */
  lemma RefusalLocks(rules: seq<Rule>, config: Config, s: Store, c: Call)
    ensures !Dispose(rules, config, s, c).Approve? ==> Locked(After(rules, config, s, c), c.payload.paymentId)
    ensures Dispose(rules, config, s, c).Approve? && TERMINAL_LOCK_RULE in rules ==>
              !Locked(After(rules, config, s, c), c.payload.paymentId)
  {
    if TERMINAL_LOCK_RULE in rules && Locked(s, c.payload.paymentId) {
      LockedIsNotApproved(rules, config, s, c);
    }
  }

  /** recovery_state by itself locks nothing: whatever the stored case's recovery_state was, the run decides
      and emits the same. An executor that stops a case writes only that field. */
  lemma RecoveryStateAloneLocksNothing(rules: seq<Rule>, config: Config, s: Store, c: Call, state: RecoveryState)
    requires c.payload.paymentId in s.cases
    ensures var p := c.payload.paymentId;
            var t := s.(cases := s.cases[p := s.cases[p].(state := state)]);
            && Dispose(rules, config, t, c) == Dispose(rules, config, s, c)
            && Events(rules, config, t, c) == Events(rules, config, s, c)
            && FinalCase(rules, config, t, c) == FinalCase(rules, config, s, c)
  {
    var p := c.payload.paymentId;
    var t := s.(cases := s.cases[p := s.cases[p].(state := state)]);
    assert OpenCase(t, c) == OpenCase(s, c);
    assert BuildContext(t, c) == BuildContext(s, c);
    assert PolicyInput(config, t, c) == PolicyInput(config, s, c);
  }
}
