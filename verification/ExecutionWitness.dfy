/** Complete runs of the protocol: a crashed attempt can be rerun, none of the three assumptions behind the
    at-most-one-charge theorem can be dropped, and commits can leave the transition table. */
module ExecutionWitness {
  import opened RecoveryTypes
  import opened DistributedLock
  import opened ExecutionProtocol
  import opened ExecutionSafety
  import RetryPolicy
  import StateMachine
  import ExecutionWorkflow
  import Idempotency

  // ---- building runs from pieces ----------------------------------------------

  lemma {:induction false} DisciplineConcat(s: World, xs: seq<Action>, ys: seq<Action>, rules: Rules)
    requires IsRun(s, xs) && IsRun(Exec(s, xs), ys)
    requires Disciplined(s, xs, rules) && Disciplined(Exec(s, xs), ys, rules)
    ensures IsRun(s, xs + ys) && Exec(s, xs + ys) == Exec(Exec(s, xs), ys)
    ensures Disciplined(s, xs + ys, rules)
    decreases |xs|
  {
    RunConcat(s, xs, ys);
    if xs == [] {
      assert xs + ys == ys;
    } else {
      DisciplineConcat(Apply(s, xs[0]), xs[1..], ys, rules);
      assert (xs + ys)[1..] == xs[1..] + ys;
    }
  }

  lemma NoActs(s: World, rules: Rules)
    ensures IsRun(s, []) && Exec(s, []) == s && Disciplined(s, [], rules)
  {
  }

  /** Nobody but the workers and the clock acts. */
  predicate OnlyWorkers(acts: seq<Action>) {
    forall i :: 0 <= i < |acts| ==> acts[i].Tick? || acts[i].Spawn? || acts[i].Step?
  }

  /** Extend a run by one step that keeps the rules. */
  lemma Extend(s: World, xs: seq<Action>, a: Action, rules: Rules) returns (longer: seq<Action>)
    requires IsRun(s, xs) && Disciplined(s, xs, rules)
    requires Enabled(Exec(s, xs), a) && KeepsWord(Exec(s, xs), a, rules)
    requires rules.leases ==> InTime(Apply(Exec(s, xs), a))
    ensures IsRun(s, longer) && Exec(s, longer) == Apply(Exec(s, xs), a) && Disciplined(s, longer, rules)
    ensures longer == xs + [a]
  {
    longer := xs + [a];
    RunOne(Exec(s, xs), a);
    assert [a][1..] == [];
    DisciplineConcat(s, xs, [a], rules);
  }

  // ---- one worker's way through ------------------------------------------------

  /** Nothing in the database or the lock store stands in the way of this job. */
  predicate Ready(s: World, job: Job) {
    && CanAcquire(s.locks, LockKey(job.payment), s.now)
    && job.payment in s.payments && !s.payments[job.payment].IsCompleted() && !s.payments[job.payment].IsInFlight()
    && job.caseId in s.cases
    && StateMachine.CanTransition(s.cases[job.caseId].state, RecoveryState.Executing)
  }

  predicate KeyFree(s: World, job: Job) {
    && job.Key() !in s.attempts && job.Key() !in s.pending
    && job.UniqueSlot() !in s.slots && job.UniqueSlot() !in s.pendingSlots
  }

  predicate IsQuiet(m: Move) {
    m.LoadPayment? || m.LoadCase? || m.BeginExecution? || m.QuickCheck?
  }

  /** A world in which worker w is where k says, and which is otherwise s. */
  function With(s: World, w: string, k: Worker): World {
    s.(workers := s.workers[w := k])
  }

  /** Reading moves change nothing but the worker itself. */
  lemma QuietMove(s: World, w: string, m: Move)
    requires Enabled(s, Step(w, m)) && IsQuiet(m)
    ensures Apply(s, Step(w, m)) == With(s, w, WorkerAfter(s, s.workers[w], m))
    ensures !m.Crash? && !m.Fail? && !WorkerAfter(s, s.workers[w], m).CallStarted()
  {
    TallyUnchanged(s, s.workers[w], m);
  }

  lemma TallyUnchanged(s: World, k: Worker, m: Move)
    requires !m.Insert? && !m.CallProvider? && !m.CommitOutcome? && !m.Fail? && !m.Crash? && !m.ProviderReturns?
    ensures TallyAfter(s, k, m) == s.tally
  {
    var t := s.tally;
    assert t.reserved + multiset{} == t.reserved && t.calls + multiset{} == t.calls;
    assert t.commits + multiset{} == t.commits && t.aborted + multiset{} == t.aborted;
    assert t.lost + multiset{} == t.lost && t.successes + multiset{} == t.successes;
  }

  /** The lease is taken; nothing else has changed. */
  function Leased(s: World, w: string, job: Job, ttl: real): World {
    s.(locks := AcquireNext(s.locks, LockKey(job.payment), w, s.now + ttl, s.now))
  }

  lemma AcquireMove(s: World, w: string, ttl: real)
    requires Enabled(s, Step(w, Acquire(ttl))) && CanAcquire(s.locks, LockKey(s.workers[w].job.payment), s.now)
    ensures Apply(s, Step(w, Acquire(ttl))) ==
            With(Leased(s, w, s.workers[w].job, ttl), w, s.workers[w].(phase := Locked, leaseEnd := s.now + ttl))
  {
    TallyUnchanged(s, s.workers[w], Acquire(ttl));
  }

  lemma InTimeWith(s: World, t: World, w: string, k: Worker)
    requires InTime(s) && t.now == s.now && t.workers == s.workers[w := k]
    requires k.CallStarted() ==> t.now < k.leaseEnd
    ensures InTime(t)
  {
  }

  lemma InTimeSame(s: World, t: World)
    requires InTime(s) && t.now == s.now && t.workers == s.workers
    ensures InTime(t)
  {
  }

  lemma WithTwice(s: World, w: string, k: Worker, next: Worker)
    ensures With(With(s, w, k), w, next) == With(s, w, next)
  {
    assert s.workers[w := k][w := next] == s.workers[w := next];
  }

  /** One more step by w of a run that stands at `s` but for w itself. */
  lemma OneLap(s0: World, xs: seq<Action>, s: World, w: string, k: Worker, m: Move, t: World, next: Worker,
               rules: Rules)
    returns (longer: seq<Action>)
    requires IsRun(s0, xs) && Disciplined(s0, xs, rules) && Exec(s0, xs) == With(s, w, k)
    requires !m.Crash? && !m.Fail? && Enabled(With(s, w, k), Step(w, m))
    requires Apply(With(s, w, k), Step(w, m)) == With(t, w, next)
    requires t.now == s.now && t.workers == s.workers
    requires rules.leases ==> InTime(s) && (next.CallStarted() ==> s.now < next.leaseEnd)
    ensures IsRun(s0, longer) && Disciplined(s0, longer, rules) && (OnlyWorkers(xs) ==> OnlyWorkers(longer))
    ensures Exec(s0, longer) == With(t, w, next)
  {
    hide Perform, CanMove, InTime, IsRun, Exec, Disciplined;
    if rules.leases {
      InTimeWith(s, With(t, w, next), w, next);
    }
    longer := Extend(s0, xs, Step(w, m), rules);
  }

  lemma ExtendQuietly(s0: World, xs: seq<Action>, s: World, w: string, k: Worker, m: Move, rules: Rules)
    returns (longer: seq<Action>)
    requires IsRun(s0, xs) && Disciplined(s0, xs, rules) && Exec(s0, xs) == With(s, w, k)
    requires IsQuiet(m) && CanMove(With(s, w, k), k, m)
    requires rules.leases ==> InTime(s)
    ensures IsRun(s0, longer) && Disciplined(s0, longer, rules) && (OnlyWorkers(xs) ==> OnlyWorkers(longer))
    ensures Exec(s0, longer) == With(s, w, WorkerAfter(With(s, w, k), k, m))
  {
    hide Perform, CanMove, WorkerAfter, InTime, IsRun, Exec, Disciplined, IsQuiet;
    var t := With(s, w, k);
    var next := WorkerAfter(t, k, m);
    QuietMove(t, w, m);
    WithTwice(s, w, k, next);
    longer := OneLap(s0, xs, s, w, k, m, s, next, rules);
  }

  lemma SpawnLap(s0: World, xs: seq<Action>, w: string, job: Job, rules: Rules) returns (longer: seq<Action>)
    requires IsRun(s0, xs) && Disciplined(s0, xs, rules) && w !in Exec(s0, xs).workers
    requires rules.leases ==> InTime(Exec(s0, xs))
    ensures IsRun(s0, longer) && Disciplined(s0, longer, rules) && (OnlyWorkers(xs) ==> OnlyWorkers(longer))
    ensures Exec(s0, longer) == With(Exec(s0, xs), w, NewWorker(job))
  {
    var s := Exec(s0, xs);
    if rules.leases {
      InTimeWith(s, With(s, w, NewWorker(job)), w, NewWorker(job));
    }
    longer := Extend(s0, xs, Spawn(w, job), rules);
  }

  lemma AcquireLap(s0: World, xs: seq<Action>, s: World, w: string, k: Worker, ttl: real, rules: Rules)
    returns (longer: seq<Action>)
    requires IsRun(s0, xs) && Disciplined(s0, xs, rules) && Exec(s0, xs) == With(s, w, k)
    requires k.phase.Starting? && CanAcquire(s.locks, LockKey(k.job.payment), s.now)
    requires rules.leases ==> InTime(s)
    ensures IsRun(s0, longer) && Disciplined(s0, longer, rules) && (OnlyWorkers(xs) ==> OnlyWorkers(longer))
    ensures Exec(s0, longer) == With(Leased(s, w, k.job, ttl), w, k.(phase := Locked, leaseEnd := s.now + ttl))
  {
    hide Perform, WorkerAfter, InTime, IsRun, Exec, Disciplined, AcquireNext, CanAcquire;
    var next := k.(phase := Locked, leaseEnd := s.now + ttl);
    AcquireMove(With(s, w, k), w, ttl);
    WithTwice(Leased(s, w, k.job, ttl), w, k, next);
    longer := OneLap(s0, xs, s, w, k, Acquire(ttl), Leased(s, w, k.job, ttl), next, rules);
  }

  /** The worker that has taken the lease in `s` and read both rows. */
  function ReaderAt(s: World, job: Job, ttl: real): Worker
    requires job.payment in s.payments && job.caseId in s.cases
  {
    Worker(job, s.now + ttl, s.payments[job.payment], s.cases[job.caseId], s.cases[job.caseId], Loaded)
  }

  lemma ReaderMayCharge(s: World, w: string, job: Job, ttl: real)
    requires Ready(s, job) && KeyFree(s, job) && !s.cases[job.caseId].state.IsTerminal()
    ensures KeyFree(Leased(s, w, job, ttl), job) && !ReaderAt(s, job, ttl).MustDiscard()
    ensures StateMachine.CanTransition(s.cases[job.caseId].state, RecoveryState.Executing)
  {
  }

  /** Acquire the lease and read both rows. */
  lemma ReadLap(s0: World, xs: seq<Action>, w: string, job: Job, ttl: real, rules: Rules) returns (longer: seq<Action>)
    requires IsRun(s0, xs) && Disciplined(s0, xs, rules)
    requires Ready(Exec(s0, xs), job) && w !in Exec(s0, xs).workers
    requires rules.leases ==> InTime(Exec(s0, xs))
    ensures IsRun(s0, longer) && Disciplined(s0, longer, rules) && (OnlyWorkers(xs) ==> OnlyWorkers(longer))
    ensures Exec(s0, longer) == With(Leased(Exec(s0, xs), w, job, ttl), w, ReaderAt(Exec(s0, xs), job, ttl))
  {
    hide Perform, InTime, IsRun, Exec, Disciplined, AcquireNext, CanAcquire;
    var s := Exec(s0, xs);
    longer := SpawnLap(s0, xs, w, job, rules);
    longer := AcquireLap(s0, longer, s, w, NewWorker(job), ttl, rules);
    var base := Leased(s, w, job, ttl);
    var k := NewWorker(job).(phase := Locked, leaseEnd := s.now + ttl);
    if rules.leases {
      InTimeSame(s, base);
    }
    longer := ExtendQuietly(s0, longer, base, w, k, LoadPayment, rules);
    k := k.(phase := PaymentLoaded, payment := s.payments[job.payment]);
    longer := ExtendQuietly(s0, longer, base, w, k, LoadCase, rules);
  }

  /** The unique row is written, uncommitted. */
  function RowTaken(s: World, w: string, job: Job): World {
    s.(pending := s.pending[job.Key() := w],
       pendingSlots := s.pendingSlots + {job.UniqueSlot()},
       tally := s.tally.(reserved := s.tally.reserved + multiset{job.Key()}))
  }

  /** The provider has been called. */
  function CalledBy(s: World, job: Job): World {
    s.(tally := s.tally.(calls := s.tally.calls + multiset{job.Key()}))
  }

  /** The provider has been called and has taken the money. */
  function ChargedBy(s: World, job: Job): World {
    CalledBy(s, job).(tally := CalledBy(s, job).tally.(successes := s.tally.successes + multiset{job.payment}))
  }

  lemma TallyReserved(s: World, k: Worker)
    requires Reserves(s, k, Insert)
    ensures TallyAfter(s, k, Insert) == s.tally.(reserved := s.tally.reserved + multiset{k.job.Key()})
  {
    var t := s.tally;
    assert t.calls + multiset{} == t.calls && t.commits + multiset{} == t.commits;
    assert t.aborted + multiset{} == t.aborted && t.lost + multiset{} == t.lost;
    assert t.successes + multiset{} == t.successes;
  }

  lemma InsertMove(s: World, w: string)
    requires Enabled(s, Step(w, Insert)) && !InsertConflicts(s, s.workers[w])
    ensures Apply(s, Step(w, Insert)) ==
            With(RowTaken(s, w, s.workers[w].job), w, s.workers[w].(phase := Reserved))
  {
    hide TallyAfter, InsertConflicts;
    TallyReserved(s, s.workers[w]);
  }

  lemma TallyCalled(s: World, k: Worker)
    ensures TallyAfter(s, k, CallProvider) == s.tally.(calls := s.tally.calls + multiset{k.job.Key()})
  {
    var t := s.tally;
    assert t.reserved + multiset{} == t.reserved && t.commits + multiset{} == t.commits;
    assert t.aborted + multiset{} == t.aborted && t.lost + multiset{} == t.lost;
    assert t.successes + multiset{} == t.successes;
  }

  lemma CallMove(s: World, w: string)
    requires Enabled(s, Step(w, CallProvider))
    ensures Apply(s, Step(w, CallProvider)) ==
            With(CalledBy(s, s.workers[w].job), w, s.workers[w].(phase := Calling))
  {
    hide TallyAfter;
    TallyCalled(s, s.workers[w]);
  }

  lemma TallyPaid(s: World, k: Worker)
    ensures TallyAfter(s, k, ProviderReturns(Charged)) ==
            s.tally.(successes := s.tally.successes + multiset{k.job.payment})
  {
    var t := s.tally;
    assert t.reserved + multiset{} == t.reserved && t.commits + multiset{} == t.commits;
    assert t.aborted + multiset{} == t.aborted && t.lost + multiset{} == t.lost;
    assert t.calls + multiset{} == t.calls;
  }

  lemma ReturnMove(s: World, w: string)
    requires Enabled(s, Step(w, ProviderReturns(Charged)))
    ensures Apply(s, Step(w, ProviderReturns(Charged))) ==
            With(s.(tally := s.tally.(successes := s.tally.successes + multiset{s.workers[w].job.payment})), w,
                 s.workers[w].(phase := Responded(Charged)))
  {
    hide TallyAfter;
    TallyPaid(s, s.workers[w]);
  }

  /** From both rows read to the provider's positive answer. */
  lemma ChargeLap(s0: World, xs: seq<Action>, s: World, w: string, k: Worker, rules: Rules)
    returns (longer: seq<Action>)
    requires IsRun(s0, xs) && Disciplined(s0, xs, rules) && Exec(s0, xs) == With(s, w, k)
    requires k.phase.Loaded? && !k.MustDiscard() && KeyFree(s, k.job)
    requires StateMachine.CanTransition(k.loaded.state, RecoveryState.Executing)
    requires rules.leases ==> InTime(s) && s.now < k.leaseEnd
    ensures IsRun(s0, longer) && Disciplined(s0, longer, rules) && (OnlyWorkers(xs) ==> OnlyWorkers(longer))
    ensures Exec(s0, longer) ==
            With(ChargedBy(RowTaken(s, w, k.job), k.job), w,
                 k.(phase := Responded(Charged), dirty := CaseRow(RecoveryState.Executing, k.job.attempt)))
  {
    hide Perform, InTime, IsRun, Exec, Disciplined;
    longer := ExtendQuietly(s0, xs, s, w, k, BeginExecution, rules);
    var k1 := k.(phase := Phase.Executing, dirty := CaseRow(RecoveryState.Executing, k.job.attempt));
    longer := ExtendQuietly(s0, longer, s, w, k1, QuickCheck, rules);
    var k2 := k1.(phase := Checked);
    longer := InsertLap(s0, longer, s, w, k2, rules);
    if rules.leases {
      InTimeSame(s, RowTaken(s, w, k.job));
    }
    longer := CallLap(s0, longer, RowTaken(s, w, k.job), w, k2.(phase := Reserved), rules);
  }

  lemma InsertLap(s0: World, xs: seq<Action>, s: World, w: string, k: Worker, rules: Rules)
    returns (longer: seq<Action>)
    requires IsRun(s0, xs) && Disciplined(s0, xs, rules) && Exec(s0, xs) == With(s, w, k)
    requires k.phase.Checked? && KeyFree(s, k.job)
    requires rules.leases ==> InTime(s)
    ensures IsRun(s0, longer) && Disciplined(s0, longer, rules) && (OnlyWorkers(xs) ==> OnlyWorkers(longer))
    ensures Exec(s0, longer) == With(RowTaken(s, w, k.job), w, k.(phase := Reserved))
  {
    hide Perform, InTime, IsRun, Exec, Disciplined;
    var next := k.(phase := Reserved);
    InsertMove(With(s, w, k), w);
    WithTwice(RowTaken(s, w, k.job), w, k, next);
    longer := OneLap(s0, xs, s, w, k, Insert, RowTaken(s, w, k.job), next, rules);
  }

  lemma CallLap(s0: World, xs: seq<Action>, s: World, w: string, k: Worker, rules: Rules) returns (longer: seq<Action>)
    requires IsRun(s0, xs) && Disciplined(s0, xs, rules) && Exec(s0, xs) == With(s, w, k)
    requires k.phase.Reserved?
    requires rules.leases ==> InTime(s) && s.now < k.leaseEnd
    ensures IsRun(s0, longer) && Disciplined(s0, longer, rules) && (OnlyWorkers(xs) ==> OnlyWorkers(longer))
    ensures Exec(s0, longer) == With(ChargedBy(s, k.job), w, k.(phase := Responded(Charged)))
  {
    longer := CallHalf(s0, xs, s, w, k, rules);
    longer := ReturnHalf(s0, longer, s, w, k.(phase := Calling), rules);
  }

  lemma CallHalf(s0: World, xs: seq<Action>, s: World, w: string, k: Worker, rules: Rules) returns (longer: seq<Action>)
    requires IsRun(s0, xs) && Disciplined(s0, xs, rules) && Exec(s0, xs) == With(s, w, k)
    requires k.phase.Reserved?
    requires rules.leases ==> InTime(s) && s.now < k.leaseEnd
    ensures IsRun(s0, longer) && Disciplined(s0, longer, rules) && (OnlyWorkers(xs) ==> OnlyWorkers(longer))
    ensures Exec(s0, longer) == With(CalledBy(s, k.job), w, k.(phase := Calling))
  {
    hide Perform, InTime, IsRun, Exec, Disciplined;
    var next := k.(phase := Calling);
    CallMove(With(s, w, k), w);
    WithTwice(CalledBy(s, k.job), w, k, next);
    longer := OneLap(s0, xs, s, w, k, CallProvider, CalledBy(s, k.job), next, rules);
  }

  lemma ReturnHalf(s0: World, xs: seq<Action>, s: World, w: string, k: Worker, rules: Rules)
    returns (longer: seq<Action>)
    requires IsRun(s0, xs) && Disciplined(s0, xs, rules) && Exec(s0, xs) == With(CalledBy(s, k.job), w, k)
    requires k.phase.Calling?
    requires rules.leases ==> InTime(s) && s.now < k.leaseEnd
    ensures IsRun(s0, longer) && Disciplined(s0, longer, rules) && (OnlyWorkers(xs) ==> OnlyWorkers(longer))
    ensures Exec(s0, longer) == With(ChargedBy(s, k.job), w, k.(phase := Responded(Charged)))
  {
    var next := k.(phase := Responded(Charged));
    var t := CalledBy(s, k.job);
    hide Perform, InTime, IsRun, Exec, Disciplined;
    ReturnMove(With(t, w, k), w);
    WithTwice(ChargedBy(s, k.job), w, k, next);
    if rules.leases {
      InTimeSame(s, t);
    }
    longer := OneLap(s0, xs, t, w, k, ProviderReturns(Charged), ChargedBy(s, k.job), next, rules);
  }

  // ---- a crashed attempt can be rerun -------------------------------------------

  const NO_RULES := Rules(false, false, false)

  lemma CommitCharged(s: World, w: string, policy: RetryPolicy.Policy, maxRetries: int)
    requires w in s.workers && s.workers[w].phase == Responded(Charged)
    ensures var k := s.workers[w];
            var t := Apply(s, Step(w, CommitOutcome(policy, maxRetries)));
            && t.now == s.now && t.locks == s.locks
            && t.payments == s.payments[k.job.payment := PaymentLifecycleState.Recovered]
            && t.cases == s.cases[k.job.caseId := k.dirty.(state := RecoveryState.RecoverySucceeded)]
            && t.attempts.Keys == s.attempts.Keys + {k.job.Key()}
            && t.slots == s.slots + {k.job.UniqueSlot()}
            && t.pending == s.pending - {k.job.Key()} && t.pendingSlots == s.pendingSlots - {k.job.UniqueSlot()}
            && t.workers == s.workers[w := k.(phase := Releasing(Success))]
            && t.tally.successes == s.tally.successes
  {
    assert s.tally.successes + multiset{} == s.tally.successes;
  }

  lemma CrashMove(s: World, w: string)
    requires Enabled(s, Step(w, Crash))
    ensures var k := s.workers[w];
            var t := Apply(s, Step(w, Crash));
            && t.now == s.now && t.locks == s.locks && t.payments == s.payments && t.cases == s.cases
            && t.attempts == s.attempts && t.slots == s.slots
            && t.workers == s.workers[w := k.(phase := Dead)]
            && (k.HoldsRow() ==> t.pending == s.pending - {k.job.Key()}
                                 && t.pendingSlots == s.pendingSlots - {k.job.UniqueSlot()})
            && (!k.HoldsRow() ==> t.pending == s.pending && t.pendingSlots == s.pendingSlots)
            && t.tally.successes == s.tally.successes && t.tally.calls == s.tally.calls
  {
    assert s.tally.successes + multiset{} == s.tally.successes && s.tally.calls + multiset{} == s.tally.calls;
  }

  /** A lease holder whose payment is neither collected nor in flight, whose case may be executed, and whose
      unique values nobody else has written. */
  predicate Interruptible(s: World, w: string) {
    && w in s.workers && s.workers[w].HoldsLock()
    && var k, job := s.workers[w], s.workers[w].job;
    && HasLease(s.locks, LockKey(job.payment), w, k.leaseEnd)
    && job.payment in s.payments && !s.payments[job.payment].IsCompleted() && !s.payments[job.payment].IsInFlight()
    && job.caseId in s.cases && s.cases[job.caseId].state in {RecoveryState.Approved, RecoveryState.RecoveryFailed}
    && job.Key() !in s.attempts && job.UniqueSlot() !in s.slots
    && (!k.HoldsRow() ==> job.Key() !in s.pending && job.UniqueSlot() !in s.pendingSlots)
  }

  /** Wherever a lease holder dies before committing, once its lease has run out another worker can run the
      same job again and collect the payment. */
  lemma RerunAfterCrash(s: World, w: string, v: string, ttl: real) returns (acts: seq<Action>)
    requires Interruptible(s, w) && v !in s.workers
    ensures |acts| > 0 && acts[0] == Step(w, Crash) && IsRun(s, acts)
    ensures Collected(Exec(s, acts), s.workers[w].job.payment)
    ensures s.workers[w].job.caseId in Exec(s, acts).cases
            && Exec(s, acts).cases[s.workers[w].job.caseId].state == RecoveryState.RecoverySucceeded
  {
    hide Perform, WorkerAfter, HasLease, Ready, KeyFree, Exec, IsRun;
    var job, end := s.workers[w].job, s.workers[w].leaseEnd;
    var first := [Step(w, Crash)];
    RunOne(s, first[0]);
    var wait := if s.now < end then end - s.now else 0.0;
    CrashClearsTheWay(s, w, wait);
    RunOne(Apply(s, first[0]), Tick(wait));
    var rest := Collect(Apply(Apply(s, first[0]), Tick(wait)), v, job, ttl);
    RunConcat(Apply(s, first[0]), [Tick(wait)], rest);
    RunConcat(s, first, [Tick(wait)] + rest);
    acts := first + ([Tick(wait)] + rest);
  }

  lemma CrashClearsTheWay(s: World, w: string, wait: real)
    requires Interruptible(s, w) && wait >= 0.0 && s.now + wait >= s.workers[w].leaseEnd
    ensures Enabled(s, Step(w, Crash))
    ensures var t, job := Apply(Apply(s, Step(w, Crash)), Tick(wait)), s.workers[w].job;
            && Ready(t, job) && KeyFree(t, job) && !t.cases[job.caseId].state.IsTerminal()
            && t.workers.Keys == s.workers.Keys
  {
    hide Perform, WorkerAfter, HasLease, CanAcquire;
    CrashMove(s, w);
    var k := s.workers[w];
    ExpiredLeaseIsFree(s.locks, LockKey(k.job.payment), w, k.leaseEnd, s.now + wait);
  }

  lemma Collect(s: World, v: string, job: Job, ttl: real) returns (acts: seq<Action>)
    requires v !in s.workers && Ready(s, job) && KeyFree(s, job) && !s.cases[job.caseId].state.IsTerminal()
    ensures IsRun(s, acts) && Collected(Exec(s, acts), job.payment)
    ensures job.caseId in Exec(s, acts).cases
    ensures Exec(s, acts).cases[job.caseId].state == RecoveryState.RecoverySucceeded
  {
    NoActs(s, NO_RULES);
    ReaderMayCharge(s, v, job, ttl);
    hide Perform, WorkerAfter, AcquireNext, Ready, KeyFree, InTime, IsRun, Exec, Disciplined;
    acts := ReadLap(s, [], v, job, ttl, NO_RULES);
    acts := ChargeLap(s, acts, Leased(s, v, job, ttl), v, ReaderAt(s, job, ttl), NO_RULES);
    acts := CommitLap(s, acts, v);
  }

  lemma CommitLap(s: World, xs: seq<Action>, w: string) returns (longer: seq<Action>)
    requires IsRun(s, xs) && Disciplined(s, xs, NO_RULES)
    requires w in Exec(s, xs).workers && Exec(s, xs).workers[w].phase == Responded(Charged)
    ensures var job := Exec(s, xs).workers[w].job;
            && IsRun(s, longer) && Collected(Exec(s, longer), job.payment) && job.caseId in Exec(s, longer).cases
            && Exec(s, longer).cases[job.caseId].state == RecoveryState.RecoverySucceeded
  {
    hide Perform, WorkerAfter, InTime, IsRun, Exec, Disciplined;
    CommitCharged(Exec(s, xs), w, RetryPolicy.Policy(1.0, 60.0), 2);
    longer := Extend(s, xs, Step(w, CommitOutcome(RetryPolicy.Policy(1.0, 60.0), 2)), NO_RULES);
  }

  // ---- each assumption is needed -------------------------------------------------

  /** One failed payment with one approved case, and nobody at work. */
  function Fresh(p: string, c: string): World {
    World(0.0, map[], map[p := PaymentLifecycleState.Failed], map[c := CaseRow(RecoveryState.Approved, 0)],
          map[], {}, map[], {}, map[], Tally(multiset{}, multiset{}, multiset{}, multiset{}, multiset{}, multiset{}))
  }

  lemma FreshIsInitial(p: string, c: string)
    ensures Initial(Fresh(p, c))
  {
  }

  /** The world after worker w has been told that its charge succeeded, before it commits. */
  ghost predicate OneCharge(s: World, w: string, job: Job) {
    && s.now == 0.0 && HasLease(s.locks, LockKey(job.payment), w, 10.0)
    && s.payments == map[job.payment := PaymentLifecycleState.Failed]
    && s.cases == map[job.caseId := CaseRow(RecoveryState.Approved, 0)]
    && s.attempts == map[] && s.slots == {}
    && s.pending == map[job.Key() := w] && s.pendingSlots == {job.UniqueSlot()}
    && s.workers == map[w := Worker(job, 10.0, PaymentLifecycleState.Failed, CaseRow(RecoveryState.Approved, 0),
                                    CaseRow(RecoveryState.Executing, job.attempt), Responded(Charged))]
    && s.tally.successes == multiset{job.payment} && s.tally.calls == multiset{job.Key()}
  }

  lemma FirstCharge(w: string, job: Job, rules: Rules) returns (acts: seq<Action>)
    ensures var f := Fresh(job.payment, job.caseId);
            IsRun(f, acts) && Disciplined(f, acts, rules) && OneCharge(Exec(f, acts), w, job)
    ensures OnlyWorkers(acts)
  {
    var f := Fresh(job.payment, job.caseId);
    FreshIsReady(w, job);
    FreshChargeIsOne(w, job);
    NoActs(f, rules);
    hide IsRun, Exec, Disciplined, InTime, Ready, KeyFree, Fresh, OneCharge, AcquireNext, RowTaken, ChargedBy;
    acts := ReadLap(f, [], w, job, 10.0, rules);
    var k := ReaderOf(job);
    acts := ChargeLap(f, acts, Leased(f, w, job, 10.0), w, k, rules);
  }

  /** The worker that has read both rows of the fresh world. */
  function ReaderOf(job: Job): Worker {
    var row := CaseRow(RecoveryState.Approved, 0);
    Worker(job, 10.0, PaymentLifecycleState.Failed, row, row, Loaded)
  }

  lemma FreshIsReady(w: string, job: Job)
    ensures var f := Fresh(job.payment, job.caseId);
            && Ready(f, job) && w !in f.workers && f.now == 0.0
            && f.payments[job.payment] == PaymentLifecycleState.Failed
            && f.cases[job.caseId] == CaseRow(RecoveryState.Approved, 0)
            && KeyFree(Leased(f, w, job, 10.0), job) && InTime(f) && InTime(Leased(f, w, job, 10.0))
  {
  }

  lemma FreshChargeIsOne(w: string, job: Job)
    ensures OneCharge(
              With(ChargedBy(RowTaken(Leased(Fresh(job.payment, job.caseId), w, job, 10.0), w, job), job), w,
                   ReaderOf(job).(phase := Responded(Charged), dirty := CaseRow(RecoveryState.Executing, job.attempt))),
              w, job)
  {
  }

  /** The way is clear for this worker and job. */
  ghost predicate Clear(s: World, w: string, job: Job) {
    w !in s.workers && Ready(s, job) && KeyFree(s, job) && !s.cases[job.caseId].state.IsTerminal() && InTime(s)
  }

  /** A worker whose way is clear adds a charge. */
  lemma ChargeAgain(f: World, xs: seq<Action>, w: string, job: Job, rules: Rules) returns (acts: seq<Action>)
    requires IsRun(f, xs) && Disciplined(f, xs, rules) && Clear(Exec(f, xs), w, job)
    ensures IsRun(f, acts) && Disciplined(f, acts, rules)
    ensures Exec(f, acts).tally.successes == Exec(f, xs).tally.successes + multiset{job.payment}
    ensures Exec(f, acts).tally.calls == Exec(f, xs).tally.calls + multiset{job.Key()}
  {
    var s := Exec(f, xs);
    InTimeSame(s, Leased(s, w, job, 10.0));
    ReaderMayCharge(s, w, job, 10.0);
    hide Perform, WorkerAfter, AcquireNext, Ready, KeyFree, InTime, IsRun, Exec, Disciplined;
    acts := ReadLap(f, xs, w, job, 10.0, rules);
    acts := ChargeLap(f, acts, Leased(s, w, job, 10.0), w, ReaderAt(s, job, 10.0), rules);
  }

  /** The world after that worker's process has died: only its lease is left. */
  ghost predicate Stranded(s: World, w: string, job: Job) {
    && s.now == 0.0 && HasLease(s.locks, LockKey(job.payment), w, 10.0)
    && s.payments == map[job.payment := PaymentLifecycleState.Failed]
    && s.cases == map[job.caseId := CaseRow(RecoveryState.Approved, 0)]
    && s.attempts == map[] && s.slots == {} && s.pending == map[] && s.pendingSlots == {}
    && s.workers.Keys == {w} && s.workers[w].phase == Dead
  }

  lemma CrashStrands(s: World, w: string, job: Job)
    requires OneCharge(s, w, job)
    ensures Enabled(s, Step(w, Crash))
    ensures Stranded(Apply(s, Step(w, Crash)), w, job)
    ensures Apply(s, Step(w, Crash)).tally.successes == multiset{job.payment}
    ensures Apply(s, Step(w, Crash)).tally.calls == multiset{job.Key()}
  {
    hide Perform, WorkerAfter, HasLease;
    CrashMove(s, w);
  }

  lemma StrandedIsClear(t: World, w: string, v: string, job: Job)
    requires Stranded(t, w, job) && v != w
    ensures InTime(t) && Clear(t.(now := t.now + 10.0), v, job)
  {
    ExpiredLeaseIsFree(t.locks, LockKey(job.payment), w, 10.0, t.now + 10.0);
  }

  /** If a process may die between its provider call and its commit, the same key is charged twice: the
      reservation was only flushed, and vanishes with the session. */
  lemma LostSessionChargesTwice(w: string, v: string, job: Job) returns (acts: seq<Action>)
    requires v != w
    ensures var f := Fresh(job.payment, job.caseId);
            && Initial(f) && IsRun(f, acts) && Disciplined(f, acts, Rules(false, true, true))
            && Exec(f, acts).tally.successes[job.payment] == 2 && Exec(f, acts).tally.calls[job.Key()] == 2
  {
    hide Initial, Fresh, OneCharge, Stranded, Clear, Perform, CanMove, InTime, IsRun, Exec, Disciplined;
    var rules := Rules(false, true, true);
    var f := Fresh(job.payment, job.caseId);
    FreshIsInitial(job.payment, job.caseId);
    acts := FirstCharge(w, job, rules);
    CrashStrands(Exec(f, acts), w, job);
    StrandedIsClear(Apply(Exec(f, acts), Step(w, Crash)), w, v, job);
    acts := Extend(f, acts, Step(w, Crash), rules);
    acts := Extend(f, acts, Tick(10.0), rules);
    acts := ChargeAgain(f, acts, v, job, rules);
  }

  /** The world once worker w has committed its charge. */
  ghost predicate OneCommit(s: World, w: string, job: Job) {
    && HasLease(s.locks, LockKey(job.payment), w, 10.0) && s.now == 0.0
    && s.cases.Keys == {job.caseId} && s.attempts.Keys == {job.Key()} && s.slots == {job.UniqueSlot()}
    && s.pending == map[] && s.pendingSlots == {}
    && s.workers.Keys == {w} && s.workers[w].phase == Releasing(Success)
    && s.tally.successes == multiset{job.payment}
  }

  lemma FirstCommit(w: string, job: Job, rules: Rules) returns (acts: seq<Action>)
    ensures var f := Fresh(job.payment, job.caseId);
            IsRun(f, acts) && Disciplined(f, acts, rules) && OneCommit(Exec(f, acts), w, job)
  {
    var f := Fresh(job.payment, job.caseId);
    hide Perform, WorkerAfter, HasLease, IsRun, Exec, Disciplined;
    acts := FirstCharge(w, job, rules);
    var s := Exec(f, acts);
    var commit := Step(w, CommitOutcome(RetryPolicy.Policy(1.0, 60.0), 2));
    CommitCharged(s, w, RetryPolicy.Policy(1.0, 60.0), 2);
    assert Apply(s, commit).pending == map[] && Apply(s, commit).pendingSlots == {};
    assert KeepsWord(s, commit, rules) && InTime(Apply(s, commit));
    acts := Extend(f, acts, commit, rules);
  }

  /** The same case, one attempt later. */
  function NextJob(job: Job): Job {
    job.(attempt := job.attempt + 1)
  }

  lemma NextKeyDiffers(job: Job)
    ensures NextJob(job).Key() != job.Key() && NextJob(job).UniqueSlot() != job.UniqueSlot()
  {
    Idempotency.KeyInjective(job.caseId, job.attempt, job.caseId, job.attempt + 1);
  }

  function Reopened(s: World, job: Job): World {
    s.(payments := s.payments[job.payment := PaymentLifecycleState.Failed],
       cases := s.cases[job.caseId := CaseRow(RecoveryState.Approved, job.attempt)],
       now := s.now + 10.0)
  }

  lemma ReopeningClearsTheWay(s: World, w: string, v: string, job: Job)
    requires OneCommit(s, w, job) && v != w
    ensures Clear(Reopened(s, job), v, NextJob(job))
  {
    NextKeyDiffers(job);
    ExpiredLeaseIsFree(s.locks, LockKey(job.payment), w, 10.0, s.now + 10.0);
  }

  /** If another service may write FAILED over a completed payment, the next attempt charges it again, even
      though every session and every lease behaved. */
  lemma ReopenedPaymentChargesTwice(w: string, v: string, job: Job) returns (acts: seq<Action>)
    requires v != w
    ensures var f := Fresh(job.payment, job.caseId);
            && Initial(f) && IsRun(f, acts) && Disciplined(f, acts, Rules(true, false, true))
            && Exec(f, acts).tally.successes[job.payment] == 2
  {
    var rules := Rules(true, false, true);
    var f := Fresh(job.payment, job.caseId);
    FreshIsInitial(job.payment, job.caseId);
    acts := FirstCommit(w, job, rules);
    var s := Exec(f, acts);
    ReopeningClearsTheWay(s, w, v, job);
    acts := Extend(f, acts, OtherPaymentWrite(job.payment, PaymentLifecycleState.Failed), rules);
    acts := Extend(f, acts, OtherCaseWrite(job.caseId, CaseRow(RecoveryState.Approved, job.attempt)), rules);
    acts := Extend(f, acts, Tick(10.0), rules);
    assert Exec(f, acts) == Reopened(s, job);
    acts := ChargeAgain(f, acts, v, NextJob(job), rules);
  }

  /** Worker w's lease runs out after its charge; worker v reads both rows, and only then does w commit. */
  lemma Overtaken(w: string, v: string, job: Job) returns (acts: seq<Action>, k: Worker)
    requires v != w
    ensures var f := Fresh(job.payment, job.caseId);
            && IsRun(f, acts) && Disciplined(f, acts, Rules(true, true, false)) && OnlyWorkers(acts)
    ensures k.job == NextJob(job) && k.phase == Loaded && !k.MustDiscard() && k.leaseEnd == 20.0
    ensures k.loaded.state == RecoveryState.Approved
    ensures var u := Exec(Fresh(job.payment, job.caseId), acts);
            && KeyFree(u, k.job) && With(u, v, k) == u && u.tally.successes == multiset{job.payment} && u.now == 10.0
            && job.caseId in u.cases && u.cases[job.caseId].state == RecoveryState.RecoverySucceeded
  {
    var rules := Rules(true, true, false);
    var f := Fresh(job.payment, job.caseId);
    hide Fresh, OneCharge, BothIn, Ready, KeyFree, AcquireNext, InTime, Perform, IsRun, Exec, Disciplined;
    acts := FirstCharge(w, job, rules);
    LeaseEndsBeforeCommit(Exec(f, acts), w, v, job);
    acts := Extend(f, acts, Tick(10.0), rules);
    acts := ReadLap(f, acts, v, NextJob(job), 10.0, rules);
    k := ReaderOf(NextJob(job)).(leaseEnd := 20.0);
    acts := OvertakenCommit(f, acts, w, v, job, k, rules);
  }

  lemma LeaseEndsBeforeCommit(s: World, w: string, v: string, job: Job)
    requires OneCharge(s, w, job) && v != w
    ensures var u := s.(now := s.now + 10.0);
            && Ready(u, NextJob(job)) && v !in u.workers && u.now == 10.0
            && u.payments[job.payment] == PaymentLifecycleState.Failed
            && u.cases[job.caseId] == CaseRow(RecoveryState.Approved, 0)
            && u.tally.successes == multiset{job.payment}
            && var k := ReaderOf(NextJob(job)).(leaseEnd := 20.0);
               BothIn(With(Leased(u, v, NextJob(job), 10.0), v, k), w, v, job, k)
  {
    ExpiredLeaseIsFree(s.locks, LockKey(job.payment), w, 10.0, s.now + 10.0);
  }

  /** Worker w has been charged and has yet to commit; worker v stands where k says. */
  predicate BothIn(s: World, w: string, v: string, job: Job, k: Worker) {
    && w in s.workers && s.workers[w].phase == Responded(Charged) && s.workers[w].job == job
    && v in s.workers && s.workers[v] == k
    && s.attempts == map[] && s.slots == {}
    && s.pending == map[job.Key() := w] && s.pendingSlots == {job.UniqueSlot()}
  }

  /** If a lease may run out between the call and the commit, a second worker that read the payment before
      that commit charges it again under the next attempt number. */
  lemma LateCommitChargesTwice(w: string, v: string, job: Job) returns (acts: seq<Action>)
    requires v != w
    ensures var f := Fresh(job.payment, job.caseId);
            && Initial(f) && IsRun(f, acts) && Disciplined(f, acts, Rules(true, true, false))
            && Exec(f, acts).tally.successes[job.payment] == 2
  {
    FreshIsInitial(job.payment, job.caseId);
    var f, k := Fresh(job.payment, job.caseId), NewWorker(job);
    acts, k := Overtaken(w, v, job);
    var u := Exec(f, acts);
    acts := ChargeLap(f, acts, u, v, k, Rules(true, true, false));
  }

  /** Worker w commits after worker v has already read both rows. */
  lemma OvertakenCommit(f: World, xs: seq<Action>, w: string, v: string, job: Job, k: Worker, rules: Rules)
    returns (acts: seq<Action>)
    requires IsRun(f, xs) && Disciplined(f, xs, rules) && !rules.leases && v != w && k.job == NextJob(job)
    requires BothIn(Exec(f, xs), w, v, job, k)
    ensures IsRun(f, acts) && Disciplined(f, acts, rules)
    ensures var u := Exec(f, acts);
            && KeyFree(u, k.job) && With(u, v, k) == u && u.tally.successes == Exec(f, xs).tally.successes
            && job.caseId in u.cases && u.cases[job.caseId].state == RecoveryState.RecoverySucceeded
            && u.now == Exec(f, xs).now && (OnlyWorkers(xs) ==> OnlyWorkers(acts))
  {
    hide Perform, WorkerAfter, InTime, IsRun, Exec, Disciplined;
    NextKeyDiffers(job);
    CommitCharged(Exec(f, xs), w, RetryPolicy.Policy(1.0, 60.0), 2);
    acts := Extend(f, xs, Step(w, CommitOutcome(RetryPolicy.Policy(1.0, 60.0), 2)), rules);
    var u := Exec(f, acts);
    assert u.workers[v := k] == u.workers;
  }

  // ---- commits that leave the transition table -----------------------------------

  /** The worker's next commit would write RECOVERY_SUCCEEDED over a state from which the table does not lead there. */
  ghost predicate Overwrites(s: World, w: string, over: RecoveryState) {
    var commit := Step(w, CommitOutcome(RetryPolicy.Policy(1.0, 60.0), 2));
    && Enabled(s, commit) && s.now < s.workers[w].leaseEnd
    && s.workers[w].job.caseId in s.cases && s.cases[s.workers[w].job.caseId].state == over
    && Apply(s, commit).cases[s.workers[w].job.caseId].state == RecoveryState.RecoverySucceeded
    && !ExecutionWorkflow.TablePath(over, RecoveryState.RecoverySucceeded)
  }

  lemma ChargedOverwrites(s: World, w: string, over: RecoveryState)
    requires w in s.workers && s.workers[w].phase == Responded(Charged) && s.now < s.workers[w].leaseEnd
    requires s.workers[w].job.caseId in s.cases && s.cases[s.workers[w].job.caseId].state == over && over.IsTerminal()
    ensures Overwrites(s, w, over)
  {
    hide Perform, WorkerAfter;
    CommitCharged(s, w, RetryPolicy.Policy(1.0, 60.0), 2);
  }

  /** Another service stops the case after the executor has read it: within its lease, with every rule about
      sessions, payments and leases kept, the executor then commits RECOVERY_SUCCEEDED over STOPPED. */
  lemma StoppedMeanwhile(w: string, job: Job) returns (acts: seq<Action>)
    ensures var f := Fresh(job.payment, job.caseId);
            Initial(f) && IsRun(f, acts) && Disciplined(f, acts, ALL_RULES)
    ensures Overwrites(Exec(Fresh(job.payment, job.caseId), acts), w, RecoveryState.Stopped)
  {
    var f, k := Fresh(job.payment, job.caseId), ReaderOf(job);
    FreshIsInitial(job.payment, job.caseId);
    FreshIsReady(w, job);
    var s := WithStopped(Leased(f, w, job, 10.0), job);
    StoppedIsReady(w, job);
    NoActs(f, ALL_RULES);
    hide Fresh, Initial, InTime, Ready, KeyFree, AcquireNext, Perform, IsRun, Exec, Disciplined, Overwrites;
    acts := ReadLap(f, [], w, job, 10.0, ALL_RULES);
    var stop := OtherCaseWrite(job.caseId, CaseRow(RecoveryState.Stopped, 0));
    assert Apply(Exec(f, acts), stop) == With(s, w, k);
    acts := Extend(f, acts, stop, ALL_RULES);
    acts := ChargeLap(f, acts, s, w, k, ALL_RULES);
    ChargedOverwrites(Exec(f, acts), w, RecoveryState.Stopped);
  }

  /** Another service has stopped the case. */
  function WithStopped(s: World, job: Job): World {
    s.(cases := s.cases[job.caseId := CaseRow(RecoveryState.Stopped, 0)])
  }

  lemma StoppedIsReady(w: string, job: Job)
    ensures var s := WithStopped(Leased(Fresh(job.payment, job.caseId), w, job, 10.0), job);
            KeyFree(s, job) && InTime(s) && InTime(With(s, w, ReaderOf(job)))
  {
  }

  /** Nobody but executors writes, but one of them commits after its lease has ended: the one that took over then
      commits, within its own lease, over the other's RECOVERY_SUCCEEDED. */
  lemma CommittedMeanwhile(w: string, v: string, job: Job) returns (acts: seq<Action>)
    requires v != w
    ensures var f := Fresh(job.payment, job.caseId);
            && Initial(f) && IsRun(f, acts) && Disciplined(f, acts, Rules(true, true, false)) && OnlyWorkers(acts)
    ensures Overwrites(Exec(Fresh(job.payment, job.caseId), acts), v, RecoveryState.RecoverySucceeded)
  {
    var f, k := Fresh(job.payment, job.caseId), NewWorker(job);
    FreshIsInitial(job.payment, job.caseId);
    acts, k := Overtaken(w, v, job);
    var u := Exec(f, acts);
    acts := ChargeLap(f, acts, u, v, k, Rules(true, true, false));
    ChargedOverwrites(Exec(f, acts), v, RecoveryState.RecoverySucceeded);
  }

  // ---- the three assumptions are exactly what is needed ---------------------------

  ghost predicate ChargesOnce(rules: Rules) {
    forall s, acts, p :: Initial(s) && IsRun(s, acts) && Disciplined(s, acts, rules) ==>
      Exec(s, acts).tally.successes[p] <= 1
  }

  /** Every assumption of `few` is one of `many`. */
  predicate Fewer(few: Rules, many: Rules) {
    (few.sessions ==> many.sessions) && (few.completed ==> many.completed) && (few.leases ==> many.leases)
  }

  lemma {:induction false} FewerIsWeaker(s: World, acts: seq<Action>, few: Rules, many: Rules)
    requires IsRun(s, acts) && Disciplined(s, acts, many) && Fewer(few, many)
    ensures Disciplined(s, acts, few)
    decreases |acts|
  {
    if acts != [] {
      FewerIsWeaker(Apply(s, acts[0]), acts[1..], few, many);
    }
  }

  lemma TwiceUnder(rules: Rules, many: Rules, s: World, acts: seq<Action>, p: string)
    requires Fewer(rules, many) && Initial(s) && IsRun(s, acts) && Disciplined(s, acts, many)
    requires Exec(s, acts).tally.successes[p] == 2
    ensures !ChargesOnce(rules)
  {
    FewerIsWeaker(s, acts, rules, many);
  }

  /** At most one charge per payment holds of all runs under exactly the full set of assumptions. */
  lemma AtMostOneChargeIff(rules: Rules)
    ensures ChargesOnce(rules) <==> rules == ALL_RULES
  {
    var job := Job("p", "c", 1);
    var f := Fresh(job.payment, job.caseId);
    if rules == ALL_RULES {
      forall s, acts, p | Initial(s) && IsRun(s, acts) && Disciplined(s, acts, rules)
        ensures Exec(s, acts).tally.successes[p] <= 1
      {
        AtMostOneCharge(s, acts, p);
      }
    } else if !rules.sessions {
      var acts := LostSessionChargesTwice("w", "v", job);
      TwiceUnder(rules, Rules(false, true, true), f, acts, job.payment);
    } else if !rules.completed {
      var acts := ReopenedPaymentChargesTwice("w", "v", job);
      TwiceUnder(rules, Rules(true, false, true), f, acts, job.payment);
    } else {
      var acts := LateCommitChargesTwice("w", "v", job);
      TwiceUnder(rules, Rules(true, true, false), f, acts, job.payment);
    }
  }
}
