/** At most one successful charge per payment, over every interleaving of the execution protocol. */
module ExecutionSafety {
  import opened DistributedLock
  import opened ExecutionProtocol

  // ---- leases in the protocol ----------------------------------------------

  predicate LiveLease(s: World, w: string) {
    w in s.workers && s.workers[w].HoldsLock() && s.now < s.workers[w].leaseEnd
  }

  /** The store agrees with every worker whose lease has not run out. */
  ghost predicate LeaseInv(s: World) {
    forall w :: LiveLease(s, w) ==>
      HasLease(s.locks, LockKey(s.workers[w].job.payment), w, s.workers[w].leaseEnd)
  }

  /** Two workers on one payment never both have time left on their lease. */
  lemma LeasesExclude(s: World, v: string, w: string)
    requires LeaseInv(s) && LiveLease(s, v) && LiveLease(s, w)
    requires s.workers[v].job.payment == s.workers[w].job.payment
    ensures v == w
  {
  }

  lemma LeaseTaken(s: World, v: string, ttl: real)
    requires LeaseInv(s) && Enabled(s, Step(v, Acquire(ttl)))
    ensures LeaseInv(Apply(s, Step(v, Acquire(ttl))))
  {
    var t := Apply(s, Step(v, Acquire(ttl)));
    var key := LockKey(s.workers[v].job.payment);
    forall w | LiveLease(t, w)
      ensures HasLease(t.locks, LockKey(t.workers[w].job.payment), w, t.workers[w].leaseEnd)
    {
      if w != v {
        assert LiveLease(s, w);
        var k := s.workers[w];
        LeaseSurvives(s.locks, LockKey(k.job.payment), w, k.leaseEnd, key, v, s.now + ttl, s.now);
      }
    }
  }

  lemma LeaseReturned(s: World, v: string)
    requires LeaseInv(s) && Enabled(s, Step(v, Release))
    ensures LeaseInv(Apply(s, Step(v, Release)))
  {
    var t := Apply(s, Step(v, Release));
    var key := LockKey(s.workers[v].job.payment);
    forall w | LiveLease(t, w)
      ensures HasLease(t.locks, LockKey(t.workers[w].job.payment), w, t.workers[w].leaseEnd)
    {
      assert w != v && LiveLease(s, w);
      var k := s.workers[w];
      LeaseSurvives(s.locks, LockKey(k.job.payment), w, k.leaseEnd, key, v, s.now, s.now);
    }
  }

  lemma LeaseStep(s: World, a: Action)
    requires LeaseInv(s) && Enabled(s, a)
    ensures LeaseInv(Apply(s, a))
  {
    if a.Step? && a.move.Acquire? {
      LeaseTaken(s, a.w, a.move.ttl);
    } else if a.Step? && a.move.Release? {
      LeaseReturned(s, a.w);
    } else {
      LeaseKept(s, a);
    }
  }

  /** Every other action leaves the store alone, and gives nobody a lease. */
  lemma LeaseKept(s: World, a: Action)
    requires LeaseInv(s) && Enabled(s, a) && (a.Step? ==> !a.move.Acquire? && !a.move.Release?)
    ensures LeaseInv(Apply(s, a))
  {
    hide HasLease, CanMove, WorkerAfter;
    var t := Apply(s, a);
    assert t.locks == s.locks;
    forall w | LiveLease(t, w)
      ensures HasLease(t.locks, LockKey(t.workers[w].job.payment), w, t.workers[w].leaseEnd)
    {
      if a.Step? && a.w == w {
        MoveKeepsLease(s, s.workers[w], a.move);
      }
      assert LiveLease(s, w);
    }
  }

  lemma MoveKeepsLease(s: World, k: Worker, m: Move)
    requires CanMove(s, k, m) && !m.Acquire? && WorkerAfter(s, k, m).HoldsLock()
    ensures k.HoldsLock() && WorkerAfter(s, k, m).leaseEnd == k.leaseEnd && WorkerAfter(s, k, m).job == k.job
  {
  }

  // ---- the discipline the documentation promises ----------------------------

  /** Every worker between its provider call and its commit still has time on its lease. */
  ghost predicate InTime(s: World) {
    forall w :: w in s.workers && s.workers[w].CallStarted() ==> s.now < s.workers[w].leaseEnd
  }

  /** Which of the three assumptions a run keeps. */
  datatype Rules = Rules(sessions: bool, completed: bool, leases: bool)

  const ALL_RULES := Rules(true, true, true)

  /** A worker that has called the provider does not lose its session; other services never take a
      completed payment back. */
  predicate KeepsWord(s: World, a: Action, rules: Rules)
    requires Enabled(s, a)
  {
    && (rules.sessions && a.Step? && (a.move.Crash? || a.move.Fail?) ==> !s.workers[a.w].CallStarted())
    && (rules.completed && a.OtherPaymentWrite? && a.payment in s.payments && s.payments[a.payment].IsCompleted()
        ==> a.status.IsCompleted())
  }

  ghost predicate Disciplined(s: World, acts: seq<Action>, rules: Rules)
    requires IsRun(s, acts)
    decreases |acts|
  {
    acts != [] ==>
      && KeepsWord(s, acts[0], rules)
      && (rules.leases ==> InTime(Apply(s, acts[0])))
      && Disciplined(Apply(s, acts[0]), acts[1..], rules)
  }

  // ---- the invariant ----------------------------------------------------------

  /** Past the payment check and not yet answered by the provider. */
  predicate MayStillCall(k: Worker) {
    || ((k.phase.PaymentLoaded? || k.phase.Loaded?) && !k.payment.IsCompleted())
    || k.phase.Executing? || k.phase.Checked? || k.phase.Reserved? || k.phase.Calling?
  }

  predicate Collected(s: World, p: string) {
    p in s.payments && s.payments[p].IsCompleted()
  }

  predicate AboutToCommit(s: World, w: string, p: string) {
    w in s.workers && s.workers[w].phase == Responded(Charged) && s.workers[w].job.payment == p
  }

  ghost predicate SafeInv(s: World) {
    && LeaseInv(s)
    && InTime(s)
    && (forall p :: s.tally.successes[p] <= 1)
    && (forall p :: s.tally.successes[p] > 0 ==> Collected(s, p) || exists w :: AboutToCommit(s, w, p))
    && (forall w :: LiveLease(s, w) && MayStillCall(s.workers[w]) ==> s.tally.successes[s.workers[w].job.payment] == 0)
  }

  lemma NoSuccessBeforeCheck(s: World, w: string)
    requires SafeInv(s) && LiveLease(s, w) && s.workers[w].phase.Locked?
    requires !Collected(s, s.workers[w].job.payment)
    ensures s.tally.successes[s.workers[w].job.payment] == 0
  {
    hide Perform;
    var p := s.workers[w].job.payment;
    if s.tally.successes[p] > 0 {
      var v :| AboutToCommit(s, v, p);
      LeasesExclude(s, v, w);
    }
  }

  predicate Charges(s: World, a: Action, p: string)
    requires Enabled(s, a)
  {
    a.Step? && a.move == ProviderReturns(Charged) && s.workers[a.w].job.payment == p
  }

  lemma StepKeepsCount(s: World, a: Action, p: string)
    requires SafeInv(s) && Enabled(s, a)
    ensures Apply(s, a).tally.successes[p] == s.tally.successes[p] + (if Charges(s, a, p) then 1 else 0)
    ensures Charges(s, a, p) ==> s.tally.successes[p] == 0
  {
    if Charges(s, a, p) {
      assert LiveLease(s, a.w) && MayStillCall(s.workers[a.w]);
    }
  }

  lemma CollectedStays(s: World, a: Action, p: string)
    requires Enabled(s, a) && KeepsWord(s, a, ALL_RULES) && Collected(s, p)
    ensures Collected(Apply(s, a), p)
  {
  }

  /** A worker that was charged stays where it is until its own commit collects the payment. */
  lemma WinnerStays(s: World, a: Action, w: string, p: string)
    requires Enabled(s, a) && KeepsWord(s, a, ALL_RULES) && AboutToCommit(s, w, p)
    ensures AboutToCommit(Apply(s, a), w, p) || Collected(Apply(s, a), p)
  {
    if a.Step? && a.w == w {
      assert Pays(s.workers[w], a.move);
    } else {
      hide WorkerAfter, CanMove;
      assert Apply(s, a).workers[w] == s.workers[w];
    }
  }

  lemma StepKeepsWinner(s: World, a: Action, p: string)
    requires SafeInv(s) && Enabled(s, a) && KeepsWord(s, a, ALL_RULES)
    requires s.tally.successes[p] > 0 || Charges(s, a, p)
    ensures Collected(Apply(s, a), p) || exists w :: AboutToCommit(Apply(s, a), w, p)
  {
    if Charges(s, a, p) {
      assert AboutToCommit(Apply(s, a), a.w, p);
    } else if Collected(s, p) {
      CollectedStays(s, a, p);
    } else {
      var w :| AboutToCommit(s, w, p);
      WinnerStays(s, a, w, p);
    }
  }

  /** How a worker can come to be in line for a call: it was already, or it has just read its payment. */
  lemma EntersLine(s: World, a: Action, w: string)
    requires Enabled(s, a)
    requires LiveLease(Apply(s, a), w) && MayStillCall(Apply(s, a).workers[w])
    ensures LiveLease(s, w) && Apply(s, a).workers[w].job == s.workers[w].job
    ensures MayStillCall(s.workers[w])
            || (s.workers[w].phase.Locked? && !Collected(s, s.workers[w].job.payment))
    ensures a.Step? && a.w == w ==> !a.move.ProviderReturns?
  {
    hide WorkerAfter, CanMove, MayStillCall;
    if a.Step? && a.w == w {
      hide Perform;
      StepMovesOne(s, w, a.move);
      MoveEntersLine(s, s.workers[w], a.move);
    } else {
      StaysPut(s, a, w);
    }
  }

  lemma StepMovesOne(s: World, w: string, m: Move)
    requires Enabled(s, Step(w, m))
    ensures Perform(s, w, m).workers[w] == WorkerAfter(s, s.workers[w], m) && Perform(s, w, m).now == s.now
    ensures WorkerAfter(s, s.workers[w], m).job == s.workers[w].job
  {
  }

  /** Nobody but the worker itself and the one who starts it sets its record; time only moves on. */
  lemma StaysPut(s: World, a: Action, w: string)
    requires Enabled(s, a) && !(a.Step? && a.w == w)
    requires w in Apply(s, a).workers && !Apply(s, a).workers[w].phase.Starting?
    ensures w in s.workers && Apply(s, a).workers[w] == s.workers[w] && Apply(s, a).now >= s.now
  {
    hide WorkerAfter, CanMove;
  }

  /** Every worker after an action is its actor, the one it starts, or as it was. */
  lemma WhoChanges(s: World, a: Action, w: string)
    requires Enabled(s, a) && w in Apply(s, a).workers
    ensures var k := Apply(s, a).workers[w];
            if a.Step? && a.w == w then
              k == WorkerAfter(s, s.workers[w], a.move) && k.job == s.workers[w].job
            else
              (a == Spawn(w, k.job) && k == NewWorker(k.job)) || (w in s.workers && k == s.workers[w])
  {
    if a.Step? && a.w == w {
      StepMovesOne(s, w, a.move);
    } else {
      hide WorkerAfter, CanMove;
    }
  }

  lemma MoveEntersLine(s: World, k: Worker, m: Move)
    requires CanMove(s, k, m) && WorkerAfter(s, k, m).HoldsLock() && MayStillCall(WorkerAfter(s, k, m))
    ensures k.HoldsLock() && WorkerAfter(s, k, m).leaseEnd == k.leaseEnd && !m.ProviderReturns?
    ensures MayStillCall(k) || (k.phase.Locked? && !Collected(s, k.job.payment))
  {
  }

  lemma StepKeepsClear(s: World, a: Action, w: string)
    requires SafeInv(s) && Enabled(s, a) && KeepsWord(s, a, ALL_RULES)
    requires LiveLease(Apply(s, a), w) && MayStillCall(Apply(s, a).workers[w])
    ensures Apply(s, a).tally.successes[Apply(s, a).workers[w].job.payment] == 0
  {
    hide Perform, WorkerAfter, MayStillCall;
    EntersLine(s, a, w);
    var p := s.workers[w].job.payment;
    if !MayStillCall(s.workers[w]) {
      NoSuccessBeforeCheck(s, w);
    }
    StepKeepsCount(s, a, p);
    if Charges(s, a, p) {
      assert LiveLease(s, a.w);
      LeasesExclude(s, a.w, w);
    }
  }

  lemma StepSafe(s: World, a: Action)
    requires SafeInv(s) && Enabled(s, a) && KeepsWord(s, a, ALL_RULES) && InTime(Apply(s, a))
    ensures SafeInv(Apply(s, a))
  {
    var t := Apply(s, a);
    LeaseStep(s, a);
    forall p
      ensures t.tally.successes[p] <= 1
      ensures t.tally.successes[p] > 0 ==> Collected(t, p) || exists w :: AboutToCommit(t, w, p)
    {
      StepKeepsCount(s, a, p);
      if t.tally.successes[p] > 0 {
        StepKeepsWinner(s, a, p);
      }
    }
    forall w | LiveLease(t, w) && MayStillCall(t.workers[w])
      ensures t.tally.successes[t.workers[w].job.payment] == 0
    {
      StepKeepsClear(s, a, w);
    }
  }

  lemma {:induction false} RunSafe(s: World, acts: seq<Action>)
    requires SafeInv(s) && IsRun(s, acts) && Disciplined(s, acts, ALL_RULES)
    ensures SafeInv(Exec(s, acts))
    decreases |acts|
  {
    if acts != [] {
      StepSafe(s, acts[0]);
      RunSafe(Apply(s, acts[0]), acts[1..]);
    }
  }

  /** For any number of workers and any interleaving in which a worker that reaches the provider commits
      before its lease ends (and may crash anywhere earlier), no payment is charged twice. */
  lemma {:induction false} AtMostOneCharge(s: World, acts: seq<Action>, p: string)
    requires Initial(s) && IsRun(s, acts) && Disciplined(s, acts, ALL_RULES)
    ensures Exec(s, acts).tally.successes[p] <= 1
    ensures Exec(s, acts).tally.successes[p] == 1 ==>
              Collected(Exec(s, acts), p) || exists w :: AboutToCommit(Exec(s, acts), w, p)
  {
    RunSafe(s, acts);
  }

  /** ... and once a charge has succeeded, no further provider call for that payment ever starts. */
  lemma {:induction false} NoCallAfterCharge(s: World, acts: seq<Action>, w: string)
    requires Initial(s) && IsRun(s, acts) && Disciplined(s, acts, ALL_RULES)
    requires Enabled(Exec(s, acts), Step(w, CallProvider))
    requires InTime(Apply(Exec(s, acts), Step(w, CallProvider)))
    ensures Exec(s, acts).tally.successes[Exec(s, acts).workers[w].job.payment] == 0
  {
    RunSafe(s, acts);
    var t := Exec(s, acts);
    assert Apply(t, Step(w, CallProvider)).workers[w].CallStarted();
    assert LiveLease(t, w) && MayStillCall(t.workers[w]);
  }
}
