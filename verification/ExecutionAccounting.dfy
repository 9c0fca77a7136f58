/** What the unique idempotency key guarantees with no timing assumption at all: leases may expire in
    mid-flight, sessions may be dropped and processes may die at any step. */
module ExecutionAccounting {
  import opened ExecutionProtocol

  /** Uncommitted attempt rows and the sessions that own them match one to one. */
  ghost predicate PendingInv(s: World) {
    && (forall key :: key in s.pending ==>
          && s.pending[key] in s.workers
          && s.workers[s.pending[key]].HoldsRow()
          && s.workers[s.pending[key]].job.Key() == key)
    && (forall w :: w in s.workers && s.workers[w].HoldsRow() ==>
          s.workers[w].job.Key() in s.pending && s.pending[s.workers[w].job.Key()] == w)
  }

  predicate InFlight(s: World, key: string) {
    key in s.pending
  }

  predicate CalledInFlight(s: World, key: string) {
    key in s.pending && s.pending[key] in s.workers && s.workers[s.pending[key]].CallStarted()
  }

  function Bit(b: bool): nat {
    if b then 1 else 0
  }

  /** The books for one key: every reservation is aborted, committed or still open, and every provider call
      belongs to a committed attempt, to an open one, or to a session that was lost after calling. */
  predicate Balanced(s: World, key: string) {
    && s.tally.reserved[key] == s.tally.aborted[key] + s.tally.commits[key] + Bit(InFlight(s, key))
    && s.tally.calls[key] == s.tally.lost[key] + s.tally.commits[key] + Bit(CalledInFlight(s, key))
    && s.tally.lost[key] <= s.tally.aborted[key]
    && s.tally.commits[key] <= 1
    && (s.tally.commits[key] == 1 ==> key in s.attempts)
    && (key in s.pending ==> key !in s.attempts)
  }

  ghost predicate BooksInv(s: World) {
    && PendingInv(s)
    && forall key :: Balanced(s, key)
  }

  predicate EndsRow(k: Worker, m: Move) {
    m.CommitOutcome? || DropsRow(k, m)
  }

  /** A move takes the uncommitted row, gives it up, or leaves it where it is. */
  lemma RowLifecycle(s: World, k: Worker, m: Move)
    requires CanMove(s, k, m)
    ensures WorkerAfter(s, k, m).job == k.job
    ensures Reserves(s, k, m) ==> !k.HoldsRow() && k.job.Key() !in s.pending && k.job.Key() !in s.attempts
    ensures EndsRow(k, m) ==> k.HoldsRow() && (m.CommitOutcome? ==> k.CallStarted())
    ensures WorkerAfter(s, k, m).HoldsRow() <==> Reserves(s, k, m) || (k.HoldsRow() && !EndsRow(k, m))
    ensures WorkerAfter(s, k, m).CallStarted() <==> m.CallProvider? || (k.CallStarted() && !EndsRow(k, m))
    ensures m.CallProvider? ==> k.HoldsRow() && !k.CallStarted()
  {
  }

  lemma PendingStep(s: World, w: string, m: Move)
    requires PendingInv(s) && Enabled(s, Step(w, m))
    ensures PendingInv(Perform(s, w, m))
  {
    hide WorkerAfter, CanMove, PendingInv, PendingAfter, Job.Key, Reserves, EndsRow;
    var k := s.workers[w];
    RowLifecycle(s, k, m);
    PendingAfterMove(s, w, m, WorkerAfter(s, k, m), Perform(s, w, m));
  }

  lemma PendingAfterMove(s: World, w: string, m: Move, next: Worker, t: World)
    requires PendingInv(s) && w in s.workers
    requires t.workers == s.workers[w := next] && t.pending == PendingAfter(s, w, s.workers[w], m)
    requires next.job == s.workers[w].job
    requires Reserves(s, s.workers[w], m) ==> next.job.Key() !in s.pending
    requires EndsRow(s.workers[w], m) ==> s.workers[w].HoldsRow()
    requires next.HoldsRow() <==>
               Reserves(s, s.workers[w], m) || (s.workers[w].HoldsRow() && !EndsRow(s.workers[w], m))
    ensures PendingInv(t)
  {
    hide Job.Key;
  }

  lemma BalanceStep(s: World, w: string, m: Move, key: string)
    requires BooksInv(s) && Enabled(s, Step(w, m))
    ensures Balanced(Perform(s, w, m), key)
  {
    hide WorkerAfter, CanMove, PendingInv, PendingAfter, TallyAfter, AttemptsAfter, Balanced, Job.Key, Reserves;
    var k := s.workers[w];
    var t := Perform(s, w, m);
    RowLifecycle(s, k, m);
    PendingStep(s, w, m);
    assert Balanced(s, key);
    if key == k.job.Key() {
      OwnKeyStep(s, w, m, WorkerAfter(s, k, m), t);
    } else {
      OtherKeyStep(s, w, m, WorkerAfter(s, k, m), t, key);
    }
  }

  lemma OwnKeyStep(s: World, w: string, m: Move, next: Worker, t: World)
    requires w in s.workers && PendingInv(s) && PendingInv(t)
    requires Balanced(s, next.job.Key()) && next.job == s.workers[w].job
    requires t.workers == s.workers[w := next] && t.pending == PendingAfter(s, w, s.workers[w], m)
    requires t.tally == TallyAfter(s, s.workers[w], m) && t.attempts == AttemptsAfter(s, s.workers[w], m)
    requires Reserves(s, s.workers[w], m) ==>
               !s.workers[w].HoldsRow() && next.job.Key() !in s.pending && next.job.Key() !in s.attempts
    requires EndsRow(s.workers[w], m) ==> s.workers[w].HoldsRow()
    requires m.CommitOutcome? ==> s.workers[w].CallStarted()
    requires next.HoldsRow() <==>
               Reserves(s, s.workers[w], m) || (s.workers[w].HoldsRow() && !EndsRow(s.workers[w], m))
    requires next.CallStarted() <==> m.CallProvider? || (s.workers[w].CallStarted() && !EndsRow(s.workers[w], m))
    requires m.CallProvider? ==> s.workers[w].HoldsRow() && !s.workers[w].CallStarted()
    ensures Balanced(t, next.job.Key())
  {
    hide Job.Key, PendingInv, PendingAfter, TallyAfter, Reserves, InFlight, CalledInFlight;
    OwnTally(s, s.workers[w], m);
    OwnRows(s, w, m, next, t);
  }

  lemma OwnTally(s: World, k: Worker, m: Move)
    ensures var t, u, key := s.tally, TallyAfter(s, k, m), k.job.Key();
            && u.reserved[key] == t.reserved[key] + Bit(Reserves(s, k, m))
            && u.calls[key] == t.calls[key] + Bit(m.CallProvider?)
            && u.commits[key] == t.commits[key] + Bit(m.CommitOutcome?)
            && u.aborted[key] == t.aborted[key] + Bit(DropsRow(k, m))
            && u.lost[key] == t.lost[key] + Bit(DropsRow(k, m) && k.CallStarted())
  {
    hide Job.Key, Reserves;
  }

  /** What a move does to the open row with its worker's own key, and where that row stood before. */
  lemma OwnRows(s: World, w: string, m: Move, next: Worker, t: World)
    requires w in s.workers && PendingInv(s) && next.job == s.workers[w].job
    requires t.workers == s.workers[w := next] && t.pending == PendingAfter(s, w, s.workers[w], m)
    requires Reserves(s, s.workers[w], m) ==> next.job.Key() !in s.pending
    requires EndsRow(s.workers[w], m) ==> s.workers[w].HoldsRow()
    requires next.CallStarted() <==> m.CallProvider? || (s.workers[w].CallStarted() && !EndsRow(s.workers[w], m))
    requires m.CallProvider? ==> s.workers[w].HoldsRow() && !s.workers[w].CallStarted()
    ensures var k, key := s.workers[w], next.job.Key();
            && (InFlight(t, key) <==> Reserves(s, k, m) || (InFlight(s, key) && !EndsRow(k, m)))
            && (CalledInFlight(t, key) <==> m.CallProvider? || (CalledInFlight(s, key) && !EndsRow(k, m)))
            && (EndsRow(k, m) ==> InFlight(s, key) && (CalledInFlight(s, key) <==> k.CallStarted()))
            && (m.CallProvider? ==> InFlight(s, key) && !CalledInFlight(s, key))
            && (Reserves(s, k, m) ==> !InFlight(s, key))
            && (key in t.pending <==> InFlight(t, key)) && (key in s.pending <==> InFlight(s, key))
  {
    hide Job.Key, Reserves;
  }

  lemma TallyElsewhere(s: World, k: Worker, m: Move, key: string)
    requires key != k.job.Key()
    ensures var t, u := s.tally, TallyAfter(s, k, m);
            && u.reserved[key] == t.reserved[key] && u.calls[key] == t.calls[key] && u.commits[key] == t.commits[key]
            && u.aborted[key] == t.aborted[key] && u.lost[key] == t.lost[key]
  {
  }

  lemma RowsElsewhere(s: World, w: string, k: Worker, m: Move, key: string)
    requires key != k.job.Key()
    ensures key in PendingAfter(s, w, k, m) <==> key in s.pending
    ensures key in s.pending ==> PendingAfter(s, w, k, m)[key] == s.pending[key]
    ensures key in AttemptsAfter(s, k, m) <==> key in s.attempts
  {
  }

  lemma OtherKeyStep(s: World, w: string, m: Move, next: Worker, t: World, key: string)
    requires w in s.workers && PendingInv(s) && Balanced(s, key)
    requires next.job == s.workers[w].job && key != next.job.Key()
    requires t.workers == s.workers[w := next] && t.pending == PendingAfter(s, w, s.workers[w], m)
    requires t.tally == TallyAfter(s, s.workers[w], m) && t.attempts == AttemptsAfter(s, s.workers[w], m)
    ensures Balanced(t, key)
  {
    TallyElsewhere(s, s.workers[w], m, key);
    RowsElsewhere(s, w, s.workers[w], m, key);
    if key in s.pending {
      assert s.pending[key] != w;
      assert t.workers[s.pending[key]] == s.workers[s.pending[key]];
    }
    SameBalance(s, t, key);
  }

  lemma SameBalance(s: World, t: World, key: string)
    requires Balanced(s, key)
    requires InFlight(t, key) == InFlight(s, key) && CalledInFlight(t, key) == CalledInFlight(s, key)
    requires t.tally.reserved[key] == s.tally.reserved[key] && t.tally.calls[key] == s.tally.calls[key]
    requires t.tally.commits[key] == s.tally.commits[key] && t.tally.aborted[key] == s.tally.aborted[key]
    requires t.tally.lost[key] == s.tally.lost[key] && (key in t.attempts <==> key in s.attempts)
    ensures Balanced(t, key)
  {
  }

  lemma OutsideKeepsBalance(s: World, a: Action, key: string)
    requires PendingInv(s) && Balanced(s, key) && Enabled(s, a) && !a.Step?
    ensures Balanced(Apply(s, a), key)
  {
    hide Job.Key;
  }

  lemma StepKeepsBooks(s: World, a: Action)
    requires BooksInv(s) && Enabled(s, a)
    ensures BooksInv(Apply(s, a))
  {
    hide Job.Key, Balanced;
    var t := Apply(s, a);
    if a.Step? {
      hide Perform, CanMove, PendingInv;
      PendingStep(s, a.w, a.move);
      forall key ensures Balanced(t, key) {
        BalanceStep(s, a.w, a.move, key);
      }
    } else {
      forall key ensures Balanced(t, key) {
        assert Balanced(s, key);
        OutsideKeepsBalance(s, a, key);
      }
    }
  }

  lemma {:induction false} RunKeepsBooks(s: World, acts: seq<Action>)
    requires BooksInv(s) && IsRun(s, acts)
    ensures BooksInv(Exec(s, acts))
    decreases |acts|
  {
    if acts != [] {
      StepKeepsBooks(s, acts[0]);
      RunKeepsBooks(Apply(s, acts[0]), acts[1..]);
    }
  }

  /** Provider calls are conserved: each one made with a key is accounted for exactly. */
  lemma {:induction false} CallsAreAccountedFor(s: World, acts: seq<Action>, key: string)
    requires Initial(s) && IsRun(s, acts)
    ensures var t := Exec(s, acts);
            && t.tally.calls[key] == t.tally.lost[key] + t.tally.commits[key] + Bit(CalledInFlight(t, key))
            && t.tally.commits[key] + Bit(CalledInFlight(t, key)) <= 1
  {
    RunKeepsBooks(s, acts);
    assert Balanced(Exec(s, acts), key);
  }

  /** The number of calls with one key never exceeds one plus the number of aborted transactions that had
      reserved it. */
  lemma {:induction false} CallsPerKey(s: World, acts: seq<Action>, key: string)
    requires Initial(s) && IsRun(s, acts)
    ensures Exec(s, acts).tally.calls[key] <= 1 + Exec(s, acts).tally.aborted[key]
  {
    RunKeepsBooks(s, acts);
    assert Balanced(Exec(s, acts), key);
  }

  /** "Never more than once per key" holds exactly as long as no session has been lost after its call, or the
      only call so far is the lost one. */
  lemma {:induction false} OneCallPerKeyIff(s: World, acts: seq<Action>, key: string)
    requires Initial(s) && IsRun(s, acts)
    ensures var t := Exec(s, acts);
            t.tally.calls[key] <= 1 <==>
            || t.tally.lost[key] == 0
            || (t.tally.lost[key] == 1 && t.tally.commits[key] == 0 && !CalledInFlight(t, key))
  {
    RunKeepsBooks(s, acts);
    assert Balanced(Exec(s, acts), key);
  }

  /** The same, told before the call: with this key the provider has been called as often as sessions were lost
      after calling it. So a call repeats its key exactly if such a session was lost. */
  lemma CallRepeatsKeyIff(s: World, acts: seq<Action>, w: string)
    requires Initial(s) && IsRun(s, acts) && Enabled(Exec(s, acts), Step(w, CallProvider))
    ensures var t := Exec(s, acts);
            var key := t.workers[w].job.Key();
            && t.tally.calls[key] == t.tally.lost[key]
            && (t.tally.calls[key] > 0 <==> t.tally.lost[key] > 0)
  {
    hide Exec, IsRun, Job.Key;
    RunKeepsBooks(s, acts);
    assert Balanced(Exec(s, acts), Exec(s, acts).workers[w].job.Key());
  }
}
