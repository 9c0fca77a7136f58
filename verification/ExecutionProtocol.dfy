/** The safe-execution protocol as an interleaved step system (app/execution/service.py).

    Any number of workers run the recovery attempt against one lock store and one database. Each action is
    the code between two awaits of one worker, a crash, the passage of time, or a write by some other service.
    A worker's uncommitted writes stay in its own record (`dirty`, and the pending unique-key row) until its
    session commits or is dropped. */
module ExecutionProtocol {
  import opened RecoveryTypes
  import opened TtlStore
  import opened DistributedLock
  import Idempotency
  import RetryPolicy
  import StateMachine

  datatype Job = Job(payment: string, caseId: string, attempt: int)
  {
    function Key(): string {
      Idempotency.GenerateIdempotencyKey(caseId, attempt)
    }

    function UniqueSlot(): Slot {
      Slot(payment, attempt)
    }
  }

  datatype CaseRow = CaseRow(state: RecoveryState, attemptCount: int)

  datatype AttemptRow = AttemptRow(payment: string, number: int, status: AttemptStatus)

  /** The unique (payment_id, attempt_number) index entry of an attempt row. */
  datatype Slot = Slot(payment: string, number: int)

  datatype Outcome = Charged | Declined(code: string) | TimedOut | Unavailable | DuplicateRequest | OtherError

  /** What the policy re-validation says when it does not permit the attempt. */
  datatype Verdict = Denied | NeedsApproval

  datatype Status =
    | Success | RetryScheduled | Halted | LockContention | DuplicateBlocked | AlreadyCompleted | NotFound | Raised

  datatype Phase =
    | Starting
    | Locked
    | PaymentLoaded
    | Loaded
    | Executing
    | Checked
    | Reserved
    | Calling
    | Responded(outcome: Outcome)
    | Releasing(status: Status)
    | Done(status: Status)
    | Dead

  /** One run of the recovery attempt; its owner token is its name in the table of workers. */
  datatype Worker = Worker(
    job: Job,
    leaseEnd: real,
    payment: PaymentLifecycleState,
    loaded: CaseRow,
    dirty: CaseRow,
    phase: Phase)
  {
    /** Between a successful acquisition and the release. */
    predicate HoldsLock() {
      !phase.Starting? && !phase.Done? && !phase.Dead?
    }

    /** Owns an uncommitted attempt row. */
    predicate HoldsRow() {
      phase.Reserved? || CallStarted()
    }

    predicate CallStarted() {
      phase.Calling? || phase.Responded?
    }

    /** Inside the try block, with a session that can still be dropped. */
    predicate InTransaction() {
      phase.Locked? || phase.PaymentLoaded? || phase.Loaded? || phase.Executing? || phase.Checked? || HoldsRow()
    }

    /** Has read both rows and not yet committed. */
    predicate HasRows() {
      phase.Loaded? || phase.Executing? || phase.Checked? || HoldsRow()
    }

    predicate MustDiscard() {
      payment.IsCompleted() || payment.IsInFlight() || loaded.state.IsTerminal()
    }
  }

  /** Event counts, by idempotency key (successes: by payment). */
  datatype Tally = Tally(
    reserved: multiset<string>,
    calls: multiset<string>,
    commits: multiset<string>,
    aborted: multiset<string>,
    lost: multiset<string>,
    successes: multiset<string>)

  datatype World = World(
    now: real,
    locks: Entries,
    payments: map<string, PaymentLifecycleState>,
    cases: map<string, CaseRow>,
    attempts: map<string, AttemptRow>,
    slots: set<Slot>,
    pending: map<string, string>,
    pendingSlots: set<Slot>,
    workers: map<string, Worker>,
    tally: Tally)

  /** One worker's code between two awaits, or the end of its session or process. */
  datatype Move =
    | Acquire(ttl: real)
    | LoadPayment
    | LoadCase
    | Discard
    | PolicyBlock(verdict: Verdict)
    | BeginExecution
    | QuickCheck
    | Insert
    | CallProvider
    | ProviderReturns(outcome: Outcome)
    | CommitOutcome(policy: RetryPolicy.Policy, maxRetries: int)
    | Release
    | Fail
    | Crash

  datatype Action =
    | Tick(dt: real)
    | Spawn(w: string, job: Job)
    | Step(w: string, move: Move)
    | OtherPaymentWrite(payment: string, status: PaymentLifecycleState)
    | OtherCaseWrite(caseId: string, row: CaseRow)
    | OtherAttemptWrite(slot: Slot)

  function NewWorker(job: Job): Worker {
    var blank := CaseRow(RecoveryState.Failed, 0);
    Worker(job, 0.0, PaymentLifecycleState.Failed, blank, blank, Starting)
  }

  // ---- when a move can happen ------------------------------------------------

  predicate CanMove(s: World, k: Worker, m: Move) {
    match m
    case Acquire(_) => k.phase.Starting?
    case LoadPayment => k.phase.Locked?
    case LoadCase => k.phase.PaymentLoaded?
    case Discard => k.phase.Loaded? && k.MustDiscard()
    case PolicyBlock(_) => k.phase.Loaded? && !k.MustDiscard()
    case BeginExecution => k.phase.Loaded? && !k.MustDiscard()
    case QuickCheck => k.phase.Executing?
    // The database makes a competing insert wait while another session holds the same unique value.
    case Insert => k.phase.Checked? && k.job.Key() !in s.pending && k.job.UniqueSlot() !in s.pendingSlots
    case CallProvider => k.phase.Reserved?
    case ProviderReturns(_) => k.phase.Calling?
    case CommitOutcome(_, _) => k.phase.Responded?
    case Release => k.phase.Releasing?
    case Fail => k.InTransaction()
    case Crash => !k.phase.Done? && !k.phase.Dead?
  }

  predicate Enabled(s: World, a: Action) {
    match a
    case Tick(dt) => dt >= 0.0
    case Spawn(w, _) => w !in s.workers
    case Step(w, m) => w in s.workers && CanMove(s, s.workers[w], m)
    case OtherPaymentWrite(_, _) => true
    // No other service ever commits a case in EXECUTING.
    case OtherCaseWrite(_, row) => row.state != RecoveryState.Executing
    case OtherAttemptWrite(slot) => slot !in s.slots && slot !in s.pendingSlots
  }

  // ---- what a move does to the worker -----------------------------------------

  /** The order of the checks: completed payment, payment in flight, finished case. */
  function DiscardStatus(k: Worker): Status {
    if k.payment.IsCompleted() then AlreadyCompleted
    else if k.payment.IsInFlight() then DuplicateBlocked
    else AlreadyCompleted
  }

  function BlockTarget(verdict: Verdict): RecoveryState {
    if verdict.NeedsApproval? then RecoveryState.Escalated else RecoveryState.Stopped
  }

  function FailureCode(outcome: Outcome): string
    requires !outcome.Charged?
  {
    match outcome
    case Declined(code) => if code == "" then "PAYMENT_FAILED" else code
    case TimedOut => "GATEWAY_TIMEOUT"
    case Unavailable => "DOWNSTREAM_503"
    case DuplicateRequest => "DUPLICATE_IDEMPOTENCY_KEY"
    case OtherError => "UNKNOWN_ERROR"
  }

  function FinalStatus(outcome: Outcome, attempt: int, policy: RetryPolicy.Policy, maxRetries: int): Status {
    if outcome.Charged? then Success
    else match RetryPolicy.ExecutorDecision(policy, attempt, maxRetries, FailureCode(outcome))
      case Retry(_) => RetryScheduled
      case Stop(_) => Halted
  }

  function FinalState(status: Status): RecoveryState {
    match status
    case Success => RecoveryState.RecoverySucceeded
    case RetryScheduled => RecoveryState.RecoveryFailed
    case _ => RecoveryState.Stopped
  }

  predicate InsertConflicts(s: World, k: Worker) {
    k.job.Key() in s.attempts || k.job.UniqueSlot() in s.slots
  }

  function WorkerAfter(s: World, k: Worker, m: Move): Worker
    requires CanMove(s, k, m)
  {
    match m
    case Acquire(ttl) =>
      if CanAcquire(s.locks, LockKey(k.job.payment), s.now) then k.(phase := Locked, leaseEnd := s.now + ttl)
      else k.(phase := Done(LockContention))
    case LoadPayment =>
      if k.job.payment in s.payments then k.(phase := PaymentLoaded, payment := s.payments[k.job.payment])
      else k.(phase := Releasing(NotFound))
    case LoadCase =>
      if k.job.caseId in s.cases then
        k.(phase := Loaded, loaded := s.cases[k.job.caseId], dirty := s.cases[k.job.caseId])
      else k.(phase := Releasing(NotFound))
    case Discard => k.(phase := Releasing(DiscardStatus(k)))
    case PolicyBlock(verdict) =>
      if StateMachine.CanTransition(k.loaded.state, BlockTarget(verdict)) then k.(phase := Releasing(Halted))
      else k.(phase := Releasing(Raised))
    case BeginExecution =>
      if StateMachine.CanTransition(k.loaded.state, RecoveryState.Executing) then
        k.(phase := Phase.Executing, dirty := CaseRow(RecoveryState.Executing, k.job.attempt))
      else k.(phase := Releasing(Raised))
    case QuickCheck => k.(phase := if k.job.Key() in s.attempts then Releasing(DuplicateBlocked) else Checked)
    case Insert => k.(phase := if InsertConflicts(s, k) then Releasing(DuplicateBlocked) else Reserved)
    case CallProvider => k.(phase := Calling)
    case ProviderReturns(outcome) => k.(phase := Responded(outcome))
    case CommitOutcome(policy, maxRetries) =>
      k.(phase := Releasing(FinalStatus(k.phase.outcome, k.job.attempt, policy, maxRetries)))
    case Release => k.(phase := Done(k.phase.status))
    case Fail => k.(phase := Releasing(Raised))
    case Crash => k.(phase := Dead)
  }

  // ---- what a move does to the lock store and the database --------------------

  function LocksAfter(s: World, w: string, k: Worker, m: Move): Entries {
    match m
    case Acquire(ttl) => AcquireNext(s.locks, LockKey(k.job.payment), w, s.now + ttl, s.now)
    case Release => ReleaseNext(s.locks, LockKey(k.job.payment), w, s.now)
    case _ => s.locks
  }

  predicate Pays(k: Worker, m: Move) {
    m.CommitOutcome? && k.phase == Responded(Charged)
  }

  function PaymentsAfter(s: World, k: Worker, m: Move): map<string, PaymentLifecycleState> {
    if Pays(k, m) then s.payments[k.job.payment := PaymentLifecycleState.Recovered] else s.payments
  }

  /** The case row a move commits, if it commits one: the worker's own uncommitted row, with the final state. */
  function CommittedCase(s: World, k: Worker, m: Move): Option<CaseRow>
    requires CanMove(s, k, m)
  {
    match m
    case PolicyBlock(verdict) =>
      if StateMachine.CanTransition(k.loaded.state, BlockTarget(verdict)) then
        Some((if k.job.caseId in s.cases then s.cases[k.job.caseId] else k.loaded).(state := BlockTarget(verdict)))
      else None
    case CommitOutcome(policy, maxRetries) =>
      Some(k.dirty.(state := FinalState(FinalStatus(k.phase.outcome, k.job.attempt, policy, maxRetries))))
    case _ => None
  }

  function CasesAfter(s: World, k: Worker, m: Move): map<string, CaseRow>
    requires CanMove(s, k, m)
  {
    match CommittedCase(s, k, m)
    case Some(row) => s.cases[k.job.caseId := row]
    case None => s.cases
  }

  function AttemptsAfter(s: World, k: Worker, m: Move): map<string, AttemptRow> {
    if m.CommitOutcome? then
      s.attempts[k.job.Key() :=
        AttemptRow(k.job.payment, k.job.attempt, if Pays(k, m) then AttemptSucceeded else AttemptFailed)]
    else s.attempts
  }

  function SlotsAfter(s: World, k: Worker, m: Move): set<Slot> {
    if m.CommitOutcome? then s.slots + {k.job.UniqueSlot()} else s.slots
  }

  predicate Reserves(s: World, k: Worker, m: Move) {
    m.Insert? && !InsertConflicts(s, k)
  }

  /** The session ends without committing: whatever it had written disappears. */
  predicate DropsRow(k: Worker, m: Move) {
    (m.Fail? || m.Crash?) && k.HoldsRow()
  }

  function PendingAfter(s: World, w: string, k: Worker, m: Move): map<string, string> {
    if Reserves(s, k, m) then s.pending[k.job.Key() := w]
    else if m.CommitOutcome? || DropsRow(k, m) then s.pending - {k.job.Key()}
    else s.pending
  }

  function PendingSlotsAfter(s: World, k: Worker, m: Move): set<Slot> {
    if Reserves(s, k, m) then s.pendingSlots + {k.job.UniqueSlot()}
    else if m.CommitOutcome? || DropsRow(k, m) then s.pendingSlots - {k.job.UniqueSlot()}
    else s.pendingSlots
  }

  function Once(happens: bool, x: string): multiset<string> {
    if happens then multiset{x} else multiset{}
  }

  function TallyAfter(s: World, k: Worker, m: Move): Tally {
    var t, key := s.tally, k.job.Key();
    Tally(
      t.reserved + Once(Reserves(s, k, m), key),
      t.calls + Once(m.CallProvider?, key),
      t.commits + Once(m.CommitOutcome?, key),
      t.aborted + Once(DropsRow(k, m), key),
      t.lost + Once(DropsRow(k, m) && k.CallStarted(), key),
      t.successes + Once(m == ProviderReturns(Charged), k.job.payment))
  }

  function Perform(s: World, w: string, m: Move): World
    requires Enabled(s, Step(w, m))
  {
    var k := s.workers[w];
    World(
      s.now,
      LocksAfter(s, w, k, m),
      PaymentsAfter(s, k, m),
      CasesAfter(s, k, m),
      AttemptsAfter(s, k, m),
      SlotsAfter(s, k, m),
      PendingAfter(s, w, k, m),
      PendingSlotsAfter(s, k, m),
      s.workers[w := WorkerAfter(s, k, m)],
      TallyAfter(s, k, m))
  }

  function Apply(s: World, a: Action): World
    requires Enabled(s, a)
  {
    match a
    case Tick(dt) => s.(now := s.now + dt)
    case Spawn(w, job) => s.(workers := s.workers[w := NewWorker(job)])
    case Step(w, m) => Perform(s, w, m)
    case OtherPaymentWrite(p, status) => s.(payments := s.payments[p := status])
    case OtherCaseWrite(c, row) => s.(cases := s.cases[c := row])
    case OtherAttemptWrite(slot) => s.(slots := s.slots + {slot})
  }

  /** Before any worker starts: any lock contents, any committed rows, none of them in EXECUTING. */
  ghost predicate Initial(s: World) {
    && s.workers == map[] && s.pending == map[] && s.pendingSlots == {}
    && s.tally == Tally(multiset{}, multiset{}, multiset{}, multiset{}, multiset{}, multiset{})
    && forall c :: c in s.cases ==> s.cases[c].state != RecoveryState.Executing
  }

  predicate IsRun(s: World, acts: seq<Action>)
    decreases |acts|
  {
    acts != [] ==> Enabled(s, acts[0]) && IsRun(Apply(s, acts[0]), acts[1..])
  }

  function Exec(s: World, acts: seq<Action>): World
    requires IsRun(s, acts)
    decreases |acts|
  {
    if acts == [] then s else Exec(Apply(s, acts[0]), acts[1..])
  }

  lemma RunOne(s: World, a: Action)
    requires Enabled(s, a)
    ensures IsRun(s, [a]) && Exec(s, [a]) == Apply(s, a)
  {
    assert [a][1..] == [];
  }

  lemma {:induction false} RunConcat(s: World, xs: seq<Action>, ys: seq<Action>)
    requires IsRun(s, xs) && IsRun(Exec(s, xs), ys)
    ensures IsRun(s, xs + ys) && Exec(s, xs + ys) == Exec(Exec(s, xs), ys)
    decreases |xs|
  {
    if xs == [] {
      assert xs + ys == ys;
    } else {
      RunConcat(Apply(s, xs[0]), xs[1..], ys);
      assert (xs + ys)[1..] == xs[1..] + ys;
    }
  }
}
