/** What the executor makes of the rows it reads and what it writes, state by state and over whole runs
    (app/execution/service.py:151-572). */
module ExecutionRows {
  import opened RecoveryTypes
  import opened TtlStore
  import opened DistributedLock
  import opened ExecutionProtocol
  import opened ExecutionSafety
  import ErrorCodes
  import RetryPolicy

  // ---- which rows lead to a charge --------------------------------------------------

  /** With both rows read, an attempt is discarded for a payment that is collected or in flight and for a case that has
      ended, with the status of the first of these checks; any other may go on. */
  lemma DiscardedRows(s: World, k: Worker, verdict: Verdict)
    requires k.phase.Loaded?
    ensures CanMove(s, k, Discard) <==>
            || k.payment in {PaymentLifecycleState.Succeeded, PaymentLifecycleState.Recovered}
            || k.payment in {PaymentLifecycleState.Processing, PaymentLifecycleState.Created}
            || k.loaded.state in {RecoveryState.RecoverySucceeded, RecoveryState.Stopped, RecoveryState.Escalated}
    ensures CanMove(s, k, BeginExecution) <==> !CanMove(s, k, Discard)
    ensures CanMove(s, k, PolicyBlock(verdict)) <==> !CanMove(s, k, Discard)
    ensures CanMove(s, k, Discard) ==>
              WorkerAfter(s, k, Discard).phase == Releasing(
                if k.payment in {PaymentLifecycleState.Succeeded, PaymentLifecycleState.Recovered} then AlreadyCompleted
                else if k.payment in {PaymentLifecycleState.Processing, PaymentLifecycleState.Created} then
                  DuplicateBlocked
                else AlreadyCompleted)
  {
  }

  predicate HasBegun(k: Worker) {
    k.phase.Executing? || k.phase.Checked? || k.phase.Reserved? || k.phase.Calling? || k.phase.Responded?
  }

  /** A payment nobody has collected or is moving, and a case the table lets into EXECUTING. */
  ghost predicate ReadFit(k: Worker) {
    HasBegun(k) ==>
      && k.payment !in {PaymentLifecycleState.Succeeded, PaymentLifecycleState.Recovered,
                        PaymentLifecycleState.Processing, PaymentLifecycleState.Created}
      && k.loaded.state in {RecoveryState.Approved, RecoveryState.RecoveryFailed}
      && k.dirty == CaseRow(RecoveryState.Executing, k.job.attempt)
  }

  lemma MoveKeepsFit(s: World, k: Worker, m: Move)
    requires CanMove(s, k, m) && ReadFit(k)
    ensures ReadFit(WorkerAfter(s, k, m))
  {
  }

  ghost predicate AllFit(s: World) {
    forall w :: w in s.workers ==> ReadFit(s.workers[w])
  }

  lemma {:induction false} RunKeepsFit(s: World, acts: seq<Action>)
    requires AllFit(s) && IsRun(s, acts)
    ensures AllFit(Exec(s, acts))
    decreases |acts|
  {
    if acts != [] {
      var a, t := acts[0], Apply(s, acts[0]);
      forall w | w in t.workers ensures ReadFit(t.workers[w]) {
        hide Apply, CanMove, WorkerAfter;
        WhoChanges(s, a, w);
        if a.Step? && a.w == w {
          MoveKeepsFit(s, s.workers[w], a.move);
        }
      }
      RunKeepsFit(t, acts[1..]);
    }
  }

  /** In every run: whoever has begun executing read a payment that is neither collected nor in flight, and a case that
      is approved or waiting for another attempt. */
  lemma {:induction false} BegunReadFitRows(s: World, acts: seq<Action>, w: string)
    requires Initial(s) && IsRun(s, acts) && w in Exec(s, acts).workers
    requires var k := Exec(s, acts).workers[w];
             k.phase.Executing? || k.phase.Checked? || k.phase.Reserved? || k.phase.Calling? || k.phase.Responded?
    ensures var k := Exec(s, acts).workers[w];
            && k.payment !in {PaymentLifecycleState.Succeeded, PaymentLifecycleState.Recovered,
                              PaymentLifecycleState.Processing, PaymentLifecycleState.Created}
            && k.loaded.state in {RecoveryState.Approved, RecoveryState.RecoveryFailed}
  {
    RunKeepsFit(s, acts);
  }

  // ---- the rows were in the database --------------------------------------------------

  lemma {:induction false} RunSnoc(s: World, acts: seq<Action>, a: Action)
    requires IsRun(s, acts + [a])
    ensures IsRun(s, acts) && Enabled(Exec(s, acts), a) && Exec(s, acts + [a]) == Apply(Exec(s, acts), a)
    decreases |acts|
  {
    if acts == [] {
      assert [] + [a] == [a] && [a][1..] == [];
    } else {
      assert (acts + [a])[1..] == acts[1..] + [a];
      RunSnoc(Apply(s, acts[0]), acts[1..], a);
    }
  }

  /** Some prefix of the run ends with this worker's reading of this payment row. */
  ghost predicate ReadPayment(s: World, acts: seq<Action>, w: string, k: Worker)
    requires IsRun(s, acts)
  {
    exists before, after ::
      && acts == before + [Step(w, LoadPayment)] + after && IsRun(s, before)
      && k.job.payment in Exec(s, before).payments && Exec(s, before).payments[k.job.payment] == k.payment
  }

  ghost predicate ReadCase(s: World, acts: seq<Action>, w: string, k: Worker)
    requires IsRun(s, acts)
  {
    exists before, after ::
      && acts == before + [Step(w, LoadCase)] + after && IsRun(s, before)
      && k.job.caseId in Exec(s, before).cases && Exec(s, before).cases[k.job.caseId] == k.loaded
  }

  lemma ReadStays(s: World, acts: seq<Action>, a: Action, w: string, k: Worker, l: Worker)
    requires IsRun(s, acts + [a]) && IsRun(s, acts)
    requires k.job == l.job
    ensures k.payment == l.payment && ReadPayment(s, acts, w, k) ==> ReadPayment(s, acts + [a], w, l)
    ensures k.loaded == l.loaded && ReadCase(s, acts, w, k) ==> ReadCase(s, acts + [a], w, l)
  {
    if k.payment == l.payment && ReadPayment(s, acts, w, k) {
      var before, after :| acts == before + [Step(w, LoadPayment)] + after && IsRun(s, before)
        && k.job.payment in Exec(s, before).payments && Exec(s, before).payments[k.job.payment] == k.payment;
      assert acts + [a] == before + [Step(w, LoadPayment)] + (after + [a]);
    }
    if k.loaded == l.loaded && ReadCase(s, acts, w, k) {
      var before, after :| acts == before + [Step(w, LoadCase)] + after && IsRun(s, before)
        && k.job.caseId in Exec(s, before).cases && Exec(s, before).cases[k.job.caseId] == k.loaded;
      assert acts + [a] == before + [Step(w, LoadCase)] + (after + [a]);
    }
  }

  lemma JustRead(s: World, acts: seq<Action>, w: string, m: Move)
    requires IsRun(s, acts + [Step(w, m)]) && IsRun(s, acts) && Enabled(Exec(s, acts), Step(w, m))
    ensures var k := WorkerAfter(Exec(s, acts), Exec(s, acts).workers[w], m);
            && (m.LoadPayment? && k.phase.PaymentLoaded? ==> ReadPayment(s, acts + [Step(w, m)], w, k))
            && (m.LoadCase? && k.phase.Loaded? ==> ReadCase(s, acts + [Step(w, m)], w, k))
  {
    assert acts + [Step(w, m)] == acts + [Step(w, m)] + [];
  }

  predicate KnowsPayment(k: Worker) {
    k.phase.PaymentLoaded? || k.HasRows()
  }

  /** Every other move keeps what was read. */
  lemma MoveKeepsReading(s: World, k: Worker, m: Move)
    requires CanMove(s, k, m)
    ensures var l := WorkerAfter(s, k, m);
            && l.job == k.job
            && (KnowsPayment(l) ==> (m.LoadPayment? && l.phase.PaymentLoaded?)
                                    || (KnowsPayment(k) && l.payment == k.payment))
            && (l.HasRows() ==> (m.LoadCase? && l.phase.Loaded?) || (k.HasRows() && l.loaded == k.loaded))
  {
  }

  /** What a worker holds as the payment's status and the case's row, it read from the database earlier in the run. */
  lemma {:induction false} RowsWereRead(s: World, acts: seq<Action>, w: string)
    requires IsRun(s, acts) && w !in s.workers && w in Exec(s, acts).workers
    ensures var k := Exec(s, acts).workers[w];
            && (k.phase.PaymentLoaded? || k.HasRows() ==> ReadPayment(s, acts, w, k))
            && (k.HasRows() ==> ReadCase(s, acts, w, k))
    decreases |acts|
  {
    if acts != [] {
      var before, a := acts[..|acts| - 1], acts[|acts| - 1];
      assert acts == before + [a];
      RunSnoc(s, before, a);
      var t := Exec(s, before);
      hide Apply, CanMove, WorkerAfter, Exec, IsRun, ReadPayment, ReadCase;
      WhoChanges(t, a, w);
      if w in t.workers {
        RowsWereRead(s, before, w);
        ReadStays(s, before, a, w, t.workers[w], Exec(s, acts).workers[w]);
      }
      if a.Step? && a.w == w {
        JustRead(s, before, w, a.move);
        MoveKeepsReading(t, t.workers[w], a.move);
      }
    }
  }

  // ---- what is written -----------------------------------------------------------------

  /** The error code an answer stands for, as the executor names it. */
  function CodeOf(outcome: Outcome): string {
    match outcome
    case Charged => ""
    case Declined(code) => if code == "" then "PAYMENT_FAILED" else code
    case TimedOut => "GATEWAY_TIMEOUT"
    case Unavailable => "DOWNSTREAM_503"
    case DuplicateRequest => "DUPLICATE_IDEMPOTENCY_KEY"
    case OtherError => "UNKNOWN_ERROR"
  }

  /** The failure may be retried, and the merchant's limit leaves room. */
  predicate MayTryAgain(outcome: Outcome, attempt: int, maxRetries: int) {
    && attempt < maxRetries
    && ErrorCodes.Normalize(CodeOf(outcome)) in {
         "GATEWAY_TIMEOUT", "BANK_SYSTEM_BUSY", "NETWORK_ERROR", "ROUTE_DEGRADATION",
         "ACQUIRER_DOWNTIME", "TIMEOUT", "DOWNSTREAM_503", "CONNECTION_RESET"}
  }

  lemma StatusMeans(outcome: Outcome, attempt: int, policy: RetryPolicy.Policy, maxRetries: int)
    ensures FinalStatus(outcome, attempt, policy, maxRetries) ==
            if outcome == Charged then Success
            else if MayTryAgain(outcome, attempt, maxRetries) then RetryScheduled else Halted
  {
    if outcome != Charged {
      RetryPolicy.EvaluateMeans(policy, attempt, maxRetries, CodeOf(outcome), 0.0, 3600.0);
    }
  }

  /** What the commit of an answer writes, in every run: a charge collects the payment and ends the case; a failure
      leaves the payment alone and the case waiting for the next attempt or stopped. Nothing else is written. */
  lemma {:induction false} CommitWrites(s: World, acts: seq<Action>, w: string, policy: RetryPolicy.Policy,
                                        maxRetries: int)
    requires Initial(s) && IsRun(s, acts) && Enabled(Exec(s, acts), Step(w, CommitOutcome(policy, maxRetries)))
    ensures var t := Exec(s, acts);
            Wrote(t, Apply(t, Step(w, CommitOutcome(policy, maxRetries))), w, maxRetries)
  {
    RunKeepsFit(s, acts);
    CommitWritesAt(Exec(s, acts), w, policy, maxRetries);
  }

  predicate Wrote(t: World, u: World, w: string, maxRetries: int) {
    && w in t.workers && t.workers[w].phase.Responded?
    && var k, job, outcome := t.workers[w], t.workers[w].job, t.workers[w].phase.outcome;
       var again := MayTryAgain(outcome, job.attempt, maxRetries);
    && u.payments == (if outcome == Charged then t.payments[job.payment := PaymentLifecycleState.Recovered]
                      else t.payments)
    && u.cases == t.cases[job.caseId := CaseRow(
         if outcome == Charged then RecoveryState.RecoverySucceeded
         else if again then RecoveryState.RecoveryFailed else RecoveryState.Stopped, job.attempt)]
    && u.attempts == t.attempts[job.Key() := AttemptRow(
         job.payment, job.attempt, if outcome == Charged then AttemptSucceeded else AttemptFailed)]
    && u.slots == t.slots + {Slot(job.payment, job.attempt)}
    && u.locks == t.locks
    && u.workers == t.workers[w := k.(phase := Releasing(
         if outcome == Charged then Success else if again then RetryScheduled else Halted))]
  }

  lemma CommitWritesAt(t: World, w: string, policy: RetryPolicy.Policy, maxRetries: int)
    requires Enabled(t, Step(w, CommitOutcome(policy, maxRetries))) && ReadFit(t.workers[w])
    ensures Wrote(t, Apply(t, Step(w, CommitOutcome(policy, maxRetries))), w, maxRetries)
  {
    var k := t.workers[w];
    StatusMeans(k.phase.outcome, k.job.attempt, policy, maxRetries);
    hide FinalStatus, MayTryAgain, Job.Key, TallyAfter, PendingAfter, PendingSlotsAfter;
  }

  /** Only three kinds of moves write anything the database or the lock store keeps. */
  lemma OnlyCommitsWrite(s: World, w: string, m: Move)
    requires Enabled(s, Step(w, m))
    ensures var t := Apply(s, Step(w, m));
            && (!m.CommitOutcome? ==> t.payments == s.payments && t.attempts == s.attempts && t.slots == s.slots)
            && (!m.CommitOutcome? && !m.PolicyBlock? ==> t.cases == s.cases)
            && (!m.Acquire? && !m.Release? ==> t.locks == s.locks)
  {
    hide WorkerAfter;
  }

  /** A refusal by the policy stops the case or hands it to a human, if the table allows that from the state that was
      read; otherwise it writes nothing. */
  lemma BlockWrites(s: World, w: string, verdict: Verdict)
    requires Enabled(s, Step(w, PolicyBlock(verdict)))
    ensures var k, t := s.workers[w], Apply(s, Step(w, PolicyBlock(verdict)));
            var to := if verdict == NeedsApproval then RecoveryState.Escalated else RecoveryState.Stopped;
            var allowed := k.loaded.state in {RecoveryState.Classified, RecoveryState.GuardPending,
                                              RecoveryState.Approved, RecoveryState.Executing,
                                              RecoveryState.RecoveryFailed}
                           || (verdict == Denied && k.loaded.state in {RecoveryState.Failed,
                                                                       RecoveryState.RecoveryPlanned});
            var kept := if k.job.caseId in s.cases then s.cases[k.job.caseId].attemptCount else k.loaded.attemptCount;
            && t.cases == (if allowed then s.cases[k.job.caseId := CaseRow(to, kept)] else s.cases)
            && t.workers[w].phase == Releasing(if allowed then Halted else Raised)
  {
  }

  /** The reservation: refused exactly if either unique value is committed already, and otherwise held, uncommitted, by
      this worker alone. */
  lemma ReservationMeans(s: World, w: string)
    requires Enabled(s, Step(w, Insert))
    ensures var k, t := s.workers[w], Apply(s, Step(w, Insert));
            var taken := k.job.Key() in s.attempts || Slot(k.job.payment, k.job.attempt) in s.slots;
            && k.job.Key() !in s.pending && Slot(k.job.payment, k.job.attempt) !in s.pendingSlots
            && t.workers[w].phase == (if taken then Releasing(DuplicateBlocked) else Reserved)
            && t.pending == (if taken then s.pending else s.pending[k.job.Key() := w])
            && t.pendingSlots == s.pendingSlots + if taken then {} else {Slot(k.job.payment, k.job.attempt)}
  {
    hide Job.Key;
  }

  /** Releasing frees the key exactly if the store still shows this worker's token there: a lease that has run out and
      was taken over stays with its new owner. */
  lemma ReleaseFreesTheKey(s: World, w: string)
    requires Enabled(s, Step(w, Release))
    ensures var key, t := LockKey(s.workers[w].job.payment), Apply(s, Step(w, Release));
            var visible := LiveAt(s.locks, s.now);
            && LiveAt(t.locks, s.now) ==
               (if key in visible && visible[key].value == w then visible - {key} else visible)
            && (CanAcquire(t.locks, key, s.now) <==> key !in visible || visible[key].value == w)
  {
    ObserveLater(s.locks, s.now, s.now);
  }

  /** Acquiring takes the key for exactly the given time if nothing live is there, and otherwise changes nothing an
      observer can see. */
  lemma AcquireTakesTheKey(s: World, w: string, ttl: real)
    requires Enabled(s, Step(w, Acquire(ttl)))
    ensures var k, t := s.workers[w], Apply(s, Step(w, Acquire(ttl)));
            var key, visible := LockKey(k.job.payment), LiveAt(s.locks, s.now);
            && (key in visible ==> t.workers[w].phase == Done(LockContention) && LiveAt(t.locks, s.now) == visible)
            && (key !in visible ==>
                  && t.workers[w].phase == Locked && t.workers[w].leaseEnd == s.now + ttl
                  && t.locks == visible[key := Entry(w, Some(s.now + ttl))])
  {
    ObserveLater(s.locks, s.now, s.now);
  }
}
