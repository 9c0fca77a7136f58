/** What the database shows of the recovery workflow while executors run. */
module ExecutionWorkflow {
  import opened RecoveryTypes
  import opened ExecutionProtocol
  import opened ExecutionSafety
  import StateMachine

  // ---- EXECUTING is never committed ------------------------------------------

  ghost predicate NoneExecuting(s: World) {
    forall c :: c in s.cases ==> s.cases[c].state != RecoveryState.Executing
  }

  lemma CommitsAreFinal(s: World, k: Worker, m: Move)
    requires CanMove(s, k, m) && CommittedCase(s, k, m).Some?
    ensures var state := CommittedCase(s, k, m).value.state;
            state in {RecoveryState.RecoverySucceeded, RecoveryState.RecoveryFailed, RecoveryState.Stopped,
                      RecoveryState.Escalated}
  {
  }

  lemma StepKeepsNoneExecuting(s: World, a: Action)
    requires NoneExecuting(s) && Enabled(s, a)
    ensures NoneExecuting(Apply(s, a))
  {
    if a.Step? && CommittedCase(s, s.workers[a.w], a.move).Some? {
      CommitsAreFinal(s, s.workers[a.w], a.move);
    }
  }

  /** Whatever interleaves and wherever workers die, no committed case is ever left in EXECUTING. */
  lemma {:induction false} ExecutingIsNeverCommitted(s: World, acts: seq<Action>, c: string)
    requires NoneExecuting(s) && IsRun(s, acts) && c in Exec(s, acts).cases
    ensures Exec(s, acts).cases[c].state != RecoveryState.Executing
    decreases |acts|
  {
    if acts != [] {
      StepKeepsNoneExecuting(s, acts[0]);
      ExecutingIsNeverCommitted(Apply(s, acts[0]), acts[1..], c);
    }
  }

  /** Losing a session or a process changes no committed row. */
  lemma LosingASessionChangesNoRow(s: World, w: string, m: Move)
    requires Enabled(s, Step(w, m)) && (m.Fail? || m.Crash?)
    ensures var t := Apply(s, Step(w, m));
            t.payments == s.payments && t.cases == s.cases && t.attempts == s.attempts && t.slots == s.slots
  {
  }

  // ---- consecutive commits follow the table ----------------------------------

  predicate Writes(s: World, a: Action)
    requires Enabled(s, a)
  {
    a.Step? && CommittedCase(s, s.workers[a.w], a.move).Some?
  }

  ghost predicate BeingExecuted(s: World, c: string) {
    exists w :: LiveLease(s, w) && s.workers[w].HasRows() && s.workers[w].job.caseId == c
  }

  /** Each case belongs to one payment, executors commit before their lease ends, and no other service
      writes a case while an executor with time left is working on it. */
  ghost predicate Serial(owner: map<string, string>, s: World, a: Action)
    requires Enabled(s, a)
  {
    && (a.Spawn? ==> a.job.caseId in owner && owner[a.job.caseId] == a.job.payment)
    && (Writes(s, a) ==> s.now < s.workers[a.w].leaseEnd)
    && (a.OtherCaseWrite? ==> !BeingExecuted(s, a.caseId))
  }

  ghost predicate SerialRun(owner: map<string, string>, s: World, acts: seq<Action>)
    requires IsRun(s, acts)
    decreases |acts|
  {
    acts != [] ==> Serial(owner, s, acts[0]) && SerialRun(owner, Apply(s, acts[0]), acts[1..])
  }

  /** One or two transitions of the table: directly, or through EXECUTING. */
  predicate TablePath(from: RecoveryState, to: RecoveryState) {
    || StateMachine.CanTransition(from, to)
    || (StateMachine.CanTransition(from, RecoveryState.Executing)
        && StateMachine.CanTransition(RecoveryState.Executing, to))
  }

  predicate Begun(k: Worker) {
    k.HasRows() && !k.phase.Loaded?
  }

  ghost predicate FreshRow(s: World, w: string) {
    LiveLease(s, w) && s.workers[w].HasRows() ==>
      s.workers[w].job.caseId in s.cases && s.cases[s.workers[w].job.caseId] == s.workers[w].loaded
  }

  ghost predicate SerialInv(owner: map<string, string>, s: World) {
    && LeaseInv(s)
    && (forall w :: w in s.workers ==>
          s.workers[w].job.caseId in owner && owner[s.workers[w].job.caseId] == s.workers[w].job.payment)
    && (forall w :: w in s.workers && Begun(s.workers[w]) ==>
          StateMachine.CanTransition(s.workers[w].loaded.state, RecoveryState.Executing))
    && (forall w :: FreshRow(s, w))
  }

  lemma BegunStep(s: World, k: Worker, m: Move)
    requires CanMove(s, k, m) && Begun(WorkerAfter(s, k, m))
    requires Begun(k) ==> StateMachine.CanTransition(k.loaded.state, RecoveryState.Executing)
    ensures StateMachine.CanTransition(WorkerAfter(s, k, m).loaded.state, RecoveryState.Executing)
  {
  }

  /** A worker that has its rows after a move read them then, or had them before and did not commit. */
  lemma RowsAfter(s: World, k: Worker, m: Move)
    requires CanMove(s, k, m) && WorkerAfter(s, k, m).HasRows()
    ensures CommittedCase(s, k, m).None? && WorkerAfter(s, k, m).job == k.job
    ensures || (m.LoadCase? && k.job.caseId in s.cases && WorkerAfter(s, k, m).loaded == s.cases[k.job.caseId])
            || (k.HasRows() && k.HoldsLock() && WorkerAfter(s, k, m).loaded == k.loaded
                && WorkerAfter(s, k, m).leaseEnd == k.leaseEnd)
  {
  }

  lemma ActorFresh(s: World, w: string, m: Move)
    requires Enabled(s, Step(w, m)) && FreshRow(s, w)
    ensures FreshRow(Apply(s, Step(w, m)), w)
  {
    var t := Apply(s, Step(w, m));
    assert t.workers[w] == WorkerAfter(s, s.workers[w], m);
    if t.workers[w].HasRows() {
      RowsAfter(s, s.workers[w], m);
      assert t.cases == s.cases;
    }
  }

  lemma WritersHoldTheLock(s: World, k: Worker, m: Move)
    requires CanMove(s, k, m) && CommittedCase(s, k, m).Some?
    ensures k.HoldsLock()
  {
  }

  /** Nobody else with time left works on the case a commit writes. */
  lemma WriterIsAlone(owner: map<string, string>, s: World, a: Action, w: string)
    requires SerialInv(owner, s) && Enabled(s, a) && Serial(owner, s, a) && Writes(s, a)
    requires LiveLease(s, w) && s.workers[a.w].job.caseId == s.workers[w].job.caseId
    ensures a.w == w
  {
    hide CanMove, CommittedCase;
    WritersHoldTheLock(s, s.workers[a.w], a.move);
    assert LiveLease(s, a.w);
    LeasesExclude(s, a.w, w);
  }

  lemma NoRowsIsFresh(s: World, w: string)
    requires w !in s.workers || !s.workers[w].HasRows()
    ensures FreshRow(s, w)
  {
  }

  /** A worker's commit cannot change the row another worker with time left has read. */
  lemma BystanderFresh(owner: map<string, string>, s: World, a: Action, w: string)
    requires SerialInv(owner, s) && Enabled(s, a) && Serial(owner, s, a)
    requires w in s.workers && !(a.Step? && a.w == w)
    ensures FreshRow(Apply(s, a), w)
  {
    hide WorkerAfter, CanMove;
    var t := Apply(s, a);
    assert t.workers[w] == s.workers[w];
    if LiveLease(t, w) && s.workers[w].HasRows() {
      assert LiveLease(s, w) && FreshRow(s, w);
      var c := s.workers[w].job.caseId;
      if Writes(s, a) && s.workers[a.w].job.caseId == c {
        WriterIsAlone(owner, s, a, w);
      } else if a.OtherCaseWrite? {
        assert a.caseId == c ==> BeingExecuted(s, c);
      }
    }
  }

  lemma SerialStep(owner: map<string, string>, s: World, a: Action)
    requires SerialInv(owner, s) && Enabled(s, a) && Serial(owner, s, a)
    ensures SerialInv(owner, Apply(s, a))
  {
    hide Apply, WorkerAfter, CanMove, LeaseInv, FreshRow;
    var t := Apply(s, a);
    LeaseStep(s, a);
    forall w | w in t.workers
      ensures t.workers[w].job.caseId in owner && owner[t.workers[w].job.caseId] == t.workers[w].job.payment
      ensures Begun(t.workers[w]) ==> StateMachine.CanTransition(t.workers[w].loaded.state, RecoveryState.Executing)
    {
      WhoChanges(s, a, w);
      if a.Step? && a.w == w && Begun(t.workers[w]) {
        BegunStep(s, s.workers[w], a.move);
      }
    }
    forall w ensures FreshRow(t, w) {
      if a.Step? && a.w == w {
        ActorFresh(s, w, a.move);
      } else if w in s.workers {
        BystanderFresh(owner, s, a, w);
      } else {
        if w in t.workers {
          WhoChanges(s, a, w);
        }
        NoRowsIsFresh(t, w);
      }
    }
  }

  lemma {:induction false} SerialRunKeeps(owner: map<string, string>, s: World, acts: seq<Action>)
    requires SerialInv(owner, s) && IsRun(s, acts) && SerialRun(owner, s, acts)
    ensures SerialInv(owner, Exec(s, acts))
    decreases |acts|
  {
    if acts != [] {
      SerialStep(owner, s, acts[0]);
      SerialRunKeeps(owner, Apply(s, acts[0]), acts[1..]);
    }
  }

  /** Every executor commit moves the committed case along the transition table, the direct field writes
      that bypass the validator included. */
  lemma {:induction false} CommitsFollowTheTable(
    owner: map<string, string>, s: World, acts: seq<Action>, w: string, m: Move)
    requires Initial(s) && IsRun(s, acts) && SerialRun(owner, s, acts)
    requires var t := Exec(s, acts);
             Enabled(t, Step(w, m)) && Writes(t, Step(w, m)) && Serial(owner, t, Step(w, m))
    ensures var t := Exec(s, acts);
            var c := t.workers[w].job.caseId;
            c in t.cases && TablePath(t.cases[c].state, Apply(t, Step(w, m)).cases[c].state)
  {
    hide Exec, IsRun, SerialRun, TablePath, Perform, CanMove, CommittedCase;
    SerialRunKeeps(owner, s, acts);
    SerialCommitFollows(owner, Exec(s, acts), w, m);
  }

  lemma SerialCommitFollows(owner: map<string, string>, s: World, w: string, m: Move)
    requires SerialInv(owner, s) && Enabled(s, Step(w, m))
    requires Writes(s, Step(w, m)) && s.now < s.workers[w].leaseEnd
    ensures var c := s.workers[w].job.caseId;
            c in s.cases && TablePath(s.cases[c].state, Apply(s, Step(w, m)).cases[c].state)
  {
    hide WorkerAfter, LeaseInv;
    var k := s.workers[w];
    assert LiveLease(s, w) && FreshRow(s, w);
    if m.CommitOutcome? {
      assert Begun(k);
      CommitsAreFinal(s, k, m);
    }
  }

  // ---- exactly which commits follow the table ------------------------------------

  /** The move would still be allowed from the row that is committed now, not only from the row that was read. */
  predicate StillAllowed(current: RecoveryState, m: Move, to: RecoveryState) {
    if m.PolicyBlock? then StateMachine.CanTransition(current, to)
    else
      || StateMachine.CanTransition(current, RecoveryState.Executing)
      || (to.Stopped? && StateMachine.CanTransition(current, to))
  }

  /** A worker that has read its case still finds a row for it. */
  ghost predicate RowsRemain(s: World) {
    forall w :: w in s.workers && s.workers[w].HasRows() ==> s.workers[w].job.caseId in s.cases
  }

  lemma StepKeepsRows(s: World, a: Action)
    requires RowsRemain(s) && Enabled(s, a)
    ensures RowsRemain(Apply(s, a))
  {
    hide Apply, WorkerAfter, CanMove, CommittedCase;
    var t := Apply(s, a);
    CasesRemain(s, a);
    forall w | w in t.workers && t.workers[w].HasRows() ensures t.workers[w].job.caseId in t.cases {
      WhoChanges(s, a, w);
      if a.Step? && a.w == w {
        RowsAfter(s, s.workers[w], a.move);
      }
    }
  }

  lemma CasesRemain(s: World, a: Action)
    requires Enabled(s, a)
    ensures s.cases.Keys <= Apply(s, a).cases.Keys
  {
    hide WorkerAfter, CanMove;
  }

  lemma {:induction false} RunKeepsRows(s: World, acts: seq<Action>)
    requires RowsRemain(s) && NoneExecuting(s) && IsRun(s, acts)
    ensures RowsRemain(Exec(s, acts)) && NoneExecuting(Exec(s, acts))
    decreases |acts|
  {
    if acts != [] {
      StepKeepsRows(s, acts[0]);
      StepKeepsNoneExecuting(s, acts[0]);
      RunKeepsRows(Apply(s, acts[0]), acts[1..]);
    }
  }

  lemma PathIffAllowed(current: RecoveryState, m: Move, to: RecoveryState)
    requires current != RecoveryState.Executing
    requires to in {RecoveryState.RecoverySucceeded, RecoveryState.RecoveryFailed, RecoveryState.Stopped}
             || (m.PolicyBlock? && to == RecoveryState.Escalated)
    requires m.PolicyBlock? ==> to in {RecoveryState.Stopped, RecoveryState.Escalated}
    ensures TablePath(current, to) <==> StillAllowed(current, m, to)
  {
  }

  lemma CommitTargets(s: World, k: Worker, m: Move)
    requires CanMove(s, k, m) && CommittedCase(s, k, m).Some?
    ensures var to := CommittedCase(s, k, m).value.state;
            || to in {RecoveryState.RecoverySucceeded, RecoveryState.RecoveryFailed, RecoveryState.Stopped}
            || (m.PolicyBlock? && to == RecoveryState.Escalated)
    ensures m.PolicyBlock? ==>
              CommittedCase(s, k, m).value.state in {RecoveryState.Stopped, RecoveryState.Escalated}
    ensures m.PolicyBlock? || m.CommitOutcome?
  {
  }

  /** In every run, with no assumption on time or on other writers: an executor's commit follows the table exactly
      when the row committed at that moment would itself still allow it. */
  lemma {:induction false} CommitFollowsIff(s: World, acts: seq<Action>, w: string, m: Move)
    requires Initial(s) && IsRun(s, acts)
    requires Enabled(Exec(s, acts), Step(w, m)) && Writes(Exec(s, acts), Step(w, m))
    ensures var t := Exec(s, acts);
            var c, to := t.workers[w].job.caseId, CommittedCase(t, t.workers[w], m).value.state;
            && c in t.cases && Apply(t, Step(w, m)).cases[c].state == to
            && (TablePath(t.cases[c].state, to) <==> StillAllowed(t.cases[c].state, m, to))
  {
    RunKeepsRows(s, acts);
    var t := Exec(s, acts);
    var k := t.workers[w];
    CommitTargets(t, k, m);
    assert k.HasRows();
    PathIffAllowed(t.cases[k.job.caseId].state, m, CommittedCase(t, k, m).value.state);
  }
}
