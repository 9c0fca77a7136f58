/** `execute_recovery_attempt` itself, written as the code is: step by step between awaits, with the lease
    released on every way out. Whatever the other participants do at each await, the method is a participant
    of the protocol, so every theorem about runs of the protocol applies to it. */
module ExecutionService {
  import opened RecoveryTypes
  import opened ExecutionProtocol
  import opened ExecutionRows
  import RetryPolicy
  import StateMachine

  /** The moves of one worker in a run, in order. */
  function MovesOf(acts: seq<Action>, w: string): seq<Move> {
    if acts == [] then []
    else
      var last := acts[|acts| - 1];
      MovesOf(acts[..|acts| - 1], w) + (if last.Step? && last.w == w then [last.move] else [])
  }

  predicate Mine(a: Action, w: string) {
    (a.Step? || a.Spawn?) && a.w == w
  }

  lemma MovesOfSnoc(acts: seq<Action>, a: Action, w: string)
    ensures MovesOf(acts + [a], w) == MovesOf(acts, w) + (if a.Step? && a.w == w then [a.move] else [])
  {
    assert (acts + [a])[..|acts|] == acts;
  }

  /** A run that read both rows, did `tail`, and released. */
  function Body(ttl: real, tail: seq<Move>): seq<Move> {
    [Acquire(ttl), LoadPayment, LoadCase] + tail + [Release]
  }

  lemma BodyFromParts(ttl: real, tail: seq<Move>)
    ensures [Acquire(ttl)] + [LoadPayment, LoadCase] + tail + [Release] == Body(ttl, tail)
  {
  }

  /** From the reservation to the provider's answer. */
  function Asked(outcome: Outcome): seq<Move> {
    [BeginExecution, QuickCheck, Insert, CallProvider, ProviderReturns(outcome)]
  }

  /** A database access raised after EXECUTING was entered: the session ends at once. */
  predicate Faltered(tail: seq<Move>, outcome: Outcome) {
    || tail == [BeginExecution, Fail]
    || tail == [BeginExecution, QuickCheck, Fail]
    || tail == Asked(outcome) + [Fail]
  }

  /** What the attempt was told: the policy's verdict if it objects, the provider's answer, and the retry policy. */
  datatype Circumstances = Circumstances(verdict: Option<Verdict>, outcome: Outcome, policy: RetryPolicy.Policy,
                                         maxRetries: int)

  /** The moves between reading the rows and releasing, and the status that belongs to each sequence. `k` is the
      worker with the rows it read. */
  predicate Accomplished(k: Worker, tail: seq<Move>, status: Status, c: Circumstances) {
    var mayTry := !k.MustDiscard() && c.verdict.None?;
    var mayBegin := mayTry && StateMachine.CanTransition(k.loaded.state, RecoveryState.Executing);
    var settled := mayBegin && tail == Asked(c.outcome) + [CommitOutcome(c.policy, c.maxRetries)]
                   && status == FinalStatus(c.outcome, k.job.attempt, c.policy, c.maxRetries);
    var discarded := tail == [Discard] && k.MustDiscard() && status == DiscardStatus(k);
    var blocked := !k.MustDiscard() && c.verdict.Some? && tail == [PolicyBlock(c.verdict.value)];
    match status
    case AlreadyCompleted => discarded
    case DuplicateBlocked =>
      discarded
      || (mayBegin && (tail == [BeginExecution, QuickCheck] || tail == [BeginExecution, QuickCheck, Insert]))
    case Raised =>
      || tail == [Fail]
      || (mayBegin && Faltered(tail, c.outcome))
      || (blocked && !StateMachine.CanTransition(k.loaded.state, BlockTarget(c.verdict.value)))
      || (mayTry && tail == [BeginExecution] && !StateMachine.CanTransition(k.loaded.state, RecoveryState.Executing))
    case Halted =>
      settled || (blocked && StateMachine.CanTransition(k.loaded.state, BlockTarget(c.verdict.value)))
    case Success => settled
    case RetryScheduled => settled
    case _ => false
  }

  /** The complete list of moves behind each status: nothing is skipped, repeated or reordered, the provider
      is called only after the row is reserved, and the lease goes back last on every path that took it. */
  predicate Explains(k: Worker, moves: seq<Move>, status: Status, ttl: real, c: Circumstances) {
    match status
    case LockContention => moves == [Acquire(ttl)]
    case NotFound => moves == [Acquire(ttl), LoadPayment, Release] || moves == Body(ttl, [])
    case _ =>
      || (status.Raised? && moves == [Acquire(ttl), Fail, Release])
      || (status.Raised? && moves == [Acquire(ttl), LoadPayment, Fail, Release])
      || (|moves| >= 4 && moves == Body(ttl, moves[3..|moves| - 1])
          && Accomplished(k, moves[3..|moves| - 1], status, c))
  }

  // What that means for the customer and the caller, written out.

  /** Who may be charged. */
  predicate ToldOfCharges(k: Worker, moves: seq<Move>, c: Circumstances) {
    CallProvider in moves ==>
      && k.payment !in {PaymentLifecycleState.Succeeded, PaymentLifecycleState.Recovered,
                        PaymentLifecycleState.Processing, PaymentLifecycleState.Created}
      && k.loaded.state in {RecoveryState.Approved, RecoveryState.RecoveryFailed}
      && c.verdict == None
      && |moves| == 10 && moves[5] == Insert && moves[6] == CallProvider && moves[7] == ProviderReturns(c.outcome)
  }

  /** What becomes of the rows, once both are read and no access raises. */
  predicate ToldOfRows(k: Worker, moves: seq<Move>, status: Status, ttl: real, c: Circumstances) {
    var collected := k.payment in {PaymentLifecycleState.Succeeded, PaymentLifecycleState.Recovered};
    var inFlight := k.payment in {PaymentLifecycleState.Processing, PaymentLifecycleState.Created};
    var ended := k.loaded.state in {RecoveryState.RecoverySucceeded, RecoveryState.Stopped, RecoveryState.Escalated};
    |moves| > 3 && moves[..3] == [Acquire(ttl), LoadPayment, LoadCase] && Fail !in moves && status != NotFound ==>
      if collected then moves[3] == Discard && status == AlreadyCompleted
      else if inFlight then moves[3] == Discard && status == DuplicateBlocked
      else if ended then moves[3] == Discard && status == AlreadyCompleted
      else if c.verdict.Some? then moves[3] == PolicyBlock(c.verdict.value)
      else moves[3] == BeginExecution
  }

  /** What the answer turns into. */
  predicate ToldOfAnswer(k: Worker, moves: seq<Move>, status: Status, c: Circumstances) {
    && (CommitOutcome(c.policy, c.maxRetries) in moves ==>
          status == if c.outcome == Charged then Success
                    else if MayTryAgain(c.outcome, k.job.attempt, c.maxRetries) then RetryScheduled else Halted)
    && (status == Success ==> CommitOutcome(c.policy, c.maxRetries) in moves)
  }

  lemma InBody(ttl: real, tail: seq<Move>, m: Move)
    ensures m in Body(ttl, tail) <==> m in tail || m in [Acquire(ttl), LoadPayment, LoadCase, Release]
    ensures |Body(ttl, tail)| == |tail| + 4 && Body(ttl, tail)[..3] == [Acquire(ttl), LoadPayment, LoadCase]
    ensures forall i :: 0 <= i < |tail| ==> Body(ttl, tail)[3 + i] == tail[i]
  {
  }

  lemma ExplainsCharges(k: Worker, moves: seq<Move>, status: Status, ttl: real, c: Circumstances)
    requires Explains(k, moves, status, ttl, c)
    ensures ToldOfCharges(k, moves, c)
  {
    hide Accomplished, Asked;
    if |moves| >= 4 && moves == Body(ttl, moves[3..|moves| - 1]) && Accomplished(k, moves[3..|moves| - 1], status, c) {
      var tail := moves[3..|moves| - 1];
      InBody(ttl, tail, CallProvider);
      if CallProvider in tail {
        AccomplishedCharges(k, tail, status, c);
        assert moves[5] == tail[2] && moves[6] == tail[3] && moves[7] == tail[4];
      }
    }
  }

  lemma AccomplishedCharges(k: Worker, tail: seq<Move>, status: Status, c: Circumstances)
    requires Accomplished(k, tail, status, c) && CallProvider in tail
    ensures k.payment !in {PaymentLifecycleState.Succeeded, PaymentLifecycleState.Recovered,
                           PaymentLifecycleState.Processing, PaymentLifecycleState.Created}
    ensures k.loaded.state in {RecoveryState.Approved, RecoveryState.RecoveryFailed} && c.verdict == None
    ensures |tail| == 6 && tail[2] == Insert && tail[3] == CallProvider && tail[4] == ProviderReturns(c.outcome)
  {
    hide FinalStatus, DiscardStatus;
  }

  lemma ExplainsRows(k: Worker, moves: seq<Move>, status: Status, ttl: real, c: Circumstances)
    requires Explains(k, moves, status, ttl, c)
    ensures ToldOfRows(k, moves, status, ttl, c)
  {
    hide FinalStatus;
    if |moves| >= 4 && moves == Body(ttl, moves[3..|moves| - 1]) && Accomplished(k, moves[3..|moves| - 1], status, c) {
      var tail := moves[3..|moves| - 1];
      InBody(ttl, tail, Fail);
      if tail != [] {
        assert moves[3] == tail[0];
      }
    }
  }

  lemma ExplainsAnswer(k: Worker, moves: seq<Move>, status: Status, ttl: real, c: Circumstances)
    requires Explains(k, moves, status, ttl, c)
    ensures ToldOfAnswer(k, moves, status, c)
  {
    StatusMeans(c.outcome, k.job.attempt, c.policy, c.maxRetries);
    hide FinalStatus, MayTryAgain;
    if |moves| >= 4 && moves == Body(ttl, moves[3..|moves| - 1]) && Accomplished(k, moves[3..|moves| - 1], status, c) {
      InBody(ttl, moves[3..|moves| - 1], CommitOutcome(c.policy, c.maxRetries));
    }
  }

  predicate Told(k: Worker, moves: seq<Move>, status: Status, ttl: real, c: Circumstances) {
    ToldOfCharges(k, moves, c) && ToldOfRows(k, moves, status, ttl, c) && ToldOfAnswer(k, moves, status, c)
  }

  lemma ExplainsTells(k: Worker, moves: seq<Move>, status: Status, ttl: real, c: Circumstances)
    requires Explains(k, moves, status, ttl, c)
    ensures Told(k, moves, status, ttl, c)
  {
    ExplainsCharges(k, moves, status, ttl, c);
    ExplainsRows(k, moves, status, ttl, c);
    ExplainsAnswer(k, moves, status, ttl, c);
  }

  lemma BodyExplains(k: Worker, ttl: real, tail: seq<Move>, status: Status, c: Circumstances)
    requires Accomplished(k, tail, status, c)
    ensures Explains(k, Body(ttl, tail), status, ttl, c)
  {
    assert Body(ttl, tail)[3..|Body(ttl, tail)| - 1] == tail;
  }

  lemma LoadsExplain(k: Worker, loads: seq<Move>, status: Status, ttl: real, c: Circumstances)
    requires (status == NotFound && (loads == [LoadPayment] || loads == [LoadPayment, LoadCase]))
             || (status == Raised && (loads == [Fail] || loads == [LoadPayment, Fail]))
    ensures Explains(k, [Acquire(ttl)] + loads + [Release], status, ttl, c)
  {
    BodyFromParts(ttl, []);
    assert [Acquire(ttl)] + [LoadPayment, LoadCase] + [Release] == Body(ttl, []);
  }

  /** Every raising access in `left` was one in `given`. */
  predicate Leaves(given: seq<bool>, left: seq<bool>) {
    true in left ==> true in given
  }

  /** The whole attempt, given up in the wait for the unique value. */
  function GaveUp(ttl: real): seq<Move> {
    Body(ttl, [BeginExecution, QuickCheck, Fail])
  }

  /** Nothing else is going to happen, and another session still holds the unique value. */
  predicate Hopeless(s: World, schedule: seq<seq<Action>>, job: Job) {
    schedule == [] && (job.Key() in s.pending || job.UniqueSlot() in s.pendingSlots)
  }

  /** A failure has its cause: an access raised, or a hopeless wait for the unique value was given up. */
  predicate Caused(moves: seq<Move>, given: seq<bool>, gaveUp: seq<Move>, hopeless: bool) {
    Fail in moves ==> true in given || (moves == gaveUp && hopeless)
  }

  /** A worker that owns no row leaves the unique values as they are when it fails or releases. */
  lemma StillHopeless(s: World, me: string, m: Move, schedule: seq<seq<Action>>, job: Job)
    requires me in s.workers && CanMove(s, s.workers[me], m) && !s.workers[me].HoldsRow() && (m.Fail? || m.Release?)
    requires Hopeless(s, schedule, job)
    ensures Hopeless(Apply(s, Step(me, m)), schedule, job)
  {
  }

  lemma AcquireFacts(s: World, k: Worker, ttl: real)
    requires k.phase.Starting?
    ensures CanMove(s, k, Acquire(ttl))
    ensures var l := WorkerAfter(s, k, Acquire(ttl)); l.phase == Done(LockContention) || l.phase.Locked?
    ensures WorkerAfter(s, k, Acquire(ttl)).job == k.job
  {
  }

  lemma BeginFacts(s: World, k: Worker)
    requires k.phase.Loaded? && !k.MustDiscard()
    ensures CanMove(s, k, BeginExecution) && k.InTransaction()
    ensures var l := WorkerAfter(s, k, BeginExecution);
            && SameReading(k, l)
            && ((l.phase == Phase.Executing && StateMachine.CanTransition(k.loaded.state, RecoveryState.Executing))
                || (l.phase == Releasing(Raised)
                    && !StateMachine.CanTransition(k.loaded.state, RecoveryState.Executing)))
  {
  }

  lemma QuickCheckFacts(s: World, k: Worker)
    requires k.phase.Executing?
    ensures CanMove(s, k, QuickCheck) && k.InTransaction()
    ensures var l := WorkerAfter(s, k, QuickCheck);
            SameReading(k, l) && (l.phase == Checked || l.phase == Releasing(DuplicateBlocked))
  {
  }

  lemma ContentionExplains(k: Worker, ttl: real, c: Circumstances, given: seq<bool>, hopeless: bool)
    ensures Explains(k, [Acquire(ttl)], LockContention, ttl, c)
    ensures Caused([Acquire(ttl)], given, GaveUp(ttl), hopeless)
  {
  }

  lemma ReleaseFacts(s: World, k: Worker)
    requires k.phase.Releasing?
    ensures CanMove(s, k, Release)
    ensures WorkerAfter(s, k, Release) == k.(phase := Done(k.phase.status))
  {
  }

  /** The same job, with the same rows read. */
  predicate SameReading(k: Worker, l: Worker) {
    k.job == l.job && k.payment == l.payment && k.loaded == l.loaded
  }

  /** Where the idempotency barrier leaves a worker, and how it got there. */
  predicate Prepared(k: Worker, moves: seq<Move>) {
    var entered := StateMachine.CanTransition(k.loaded.state, RecoveryState.Executing);
    || (k.phase.Reserved? && entered && moves == [BeginExecution, QuickCheck, Insert])
    || (k.phase == Releasing(DuplicateBlocked) && entered
        && (moves == [BeginExecution, QuickCheck] || moves == [BeginExecution, QuickCheck, Insert]))
    || (k.phase == Releasing(Raised)
        && (moves == [Fail] || (moves == [BeginExecution] && !entered)
            || (entered && (moves == [BeginExecution, Fail] || moves == [BeginExecution, QuickCheck, Fail]))))
  }

  /** How the barrier ends once EXECUTING is entered. */
  predicate Passed(phase: Phase, moves: seq<Move>) {
    || (phase.Reserved? && moves == [QuickCheck, Insert])
    || (phase == Releasing(DuplicateBlocked) && (moves == [QuickCheck] || moves == [QuickCheck, Insert]))
    || (phase == Releasing(Raised) && (moves == [Fail] || moves == [QuickCheck, Fail]))
  }

  lemma PassedPrepares(k: Worker, moves: seq<Move>)
    requires Passed(k.phase, moves) && StateMachine.CanTransition(k.loaded.state, RecoveryState.Executing)
    ensures Prepared(k, [BeginExecution] + moves)
  {
  }

  lemma ReleaseExplains(k: Worker, l: Worker, moves: seq<Move>, status: Status, ttl: real, c: Circumstances)
    requires SameReading(k, l) && Explains(k, moves, status, ttl, c)
    ensures Explains(l, moves, status, ttl, c)
  {
  }

  /** What is not mine to do leaves my record alone. */
  lemma OthersLeaveMe(s: World, a: Action, me: string)
    requires Enabled(s, a) && !Mine(a, me)
    ensures me in Apply(s, a).workers <==> me in s.workers
    ensures me in s.workers ==> Apply(s, a).workers[me] == s.workers[me]
  {
    hide WorkerAfter, CanMove;
  }

  /** The world after others have tried `todo`, in order: what is enabled happens, unless it is this worker's to do. */
  function Meanwhile(s: World, todo: seq<Action>, me: string): World
    decreases |todo|
  {
    if todo == [] then s
    else Meanwhile(if Enabled(s, todo[0]) && !Mine(todo[0], me) then Apply(s, todo[0]) else s, todo[1..], me)
  }

  class SafeRecoveryExecutionService {
    var world: World
    /** What the other participants attempt at each await of this service. */
    var schedule: seq<seq<Action>>
    /** Which of this service's database accesses raise; none does once the list is used up. */
    var faults: seq<bool>
    ghost var start: World
    ghost var history: seq<Action>

    ghost predicate Valid()
      reads this
    {
      IsRun(start, history) && Exec(start, history) == world
    }

    constructor (world: World, schedule: seq<seq<Action>>, faults: seq<bool>)
      ensures Valid() && this.world == world && start == world && history == []
      ensures this.schedule == schedule && this.faults == faults
    {
      this.world := world;
      this.schedule := schedule;
      this.faults := faults;
      this.start := world;
      this.history := [];
    }

    method Take(a: Action)
      requires Valid() && Enabled(world, a)
      modifies this`world, this`history
      ensures Valid() && world == Apply(old(world), a) && history == old(history) + [a]
    {
      RunOne(world, a);
      RunConcat(start, history, [a]);
      world := Apply(world, a);
      history := history + [a];
    }

    /** An await: others run. None of them acts under this worker's token. */
    method Await(me: string)
      requires Valid()
      modifies this`world, this`history, this`schedule
      ensures Valid() && old(history) <= history && MovesOf(history, me) == MovesOf(old(history), me)
      ensures me in world.workers <==> me in old(world).workers
      ensures me in world.workers ==> world.workers[me] == old(world).workers[me]
      ensures |schedule| == if old(schedule) == [] then 0 else |old(schedule)| - 1
      ensures world == if old(schedule) == [] then old(world) else Meanwhile(old(world), old(schedule)[0], me)
    {
      hide Enabled, Apply;
      if schedule == [] {
        return;
      }
      var todo := schedule[0];
      schedule := schedule[1..];
      var i := 0;
      while i < |todo|
        invariant 0 <= i <= |todo| && |schedule| == |old(schedule)| - 1
        invariant Valid() && old(history) <= history && MovesOf(history, me) == MovesOf(old(history), me)
        invariant me in world.workers <==> me in old(world).workers
        invariant me in world.workers ==> world.workers[me] == old(world).workers[me]
        invariant Meanwhile(world, todo[i..], me) == Meanwhile(old(world), todo, me)
      {
        var a := todo[i];
        assert todo[i..][0] == a && todo[i..][1..] == todo[i + 1..];
        if Enabled(world, a) && !Mine(a, me) {
          MovesOfSnoc(history, a, me);
          OthersLeaveMe(world, a, me);
          Take(a);
        }
        i := i + 1;
      }
    }

    /** One move of this worker, then an await. */
    method Do(me: string, m: Move)
      requires Valid() && me in world.workers && CanMove(world, world.workers[me], m)
      modifies this`world, this`history, this`schedule
      ensures Valid() && old(history) <= history
      ensures MovesOf(history, me) == MovesOf(old(history), me) + [m]
      ensures me in world.workers
      ensures world.workers[me] == WorkerAfter(old(world), old(world).workers[me], m)
      ensures |schedule| == if old(schedule) == [] then 0 else |old(schedule)| - 1
      ensures var after := Apply(old(world), Step(me, m));
              world == if old(schedule) == [] then after else Meanwhile(after, old(schedule)[0], me)
    {
      MovesOfSnoc(history, Step(me, m), me);
      Take(Step(me, m));
      Await(me);
    }

    /** A move that goes to the database: it happens, or raises and ends the session. */
    method Access(me: string, m: Move) returns (ok: bool)
      requires Valid() && me in world.workers && CanMove(world, world.workers[me], m)
      requires world.workers[me].InTransaction()
      modifies this`world, this`history, this`schedule, this`faults
      ensures Valid() && old(history) <= history && me in world.workers
      ensures MovesOf(history, me) == MovesOf(old(history), me) + [if ok then m else Fail]
      ensures ok ==> world.workers[me] == WorkerAfter(old(world), old(world).workers[me], m)
      ensures !ok ==>
                && world.workers[me].phase == Releasing(Raised)
                && SameReading(world.workers[me], old(world).workers[me])
      ensures ok <==> old(faults) == [] || !old(faults)[0]
      ensures faults == if old(faults) == [] then [] else old(faults)[1..]
    {
      ok := faults == [] || !faults[0];
      faults := if faults == [] then [] else faults[1..];
      if ok {
        Do(me, m);
      } else {
        Do(me, Fail);
      }
    }

    /** The quick check found nothing: wait for the unique value and insert. The database gives up the wait
        when nothing else is going to happen. */
    method Reserve(me: string) returns (ghost moves: seq<Move>)
      requires Valid() && me in world.workers && world.workers[me].phase.Checked?
      modifies this`world, this`history, this`schedule, this`faults
      ensures Valid() && old(history) <= history && MovesOf(history, me) == MovesOf(old(history), me) + moves
      ensures me in world.workers && SameReading(world.workers[me], old(world).workers[me])
      ensures (world.workers[me].phase.Reserved? && moves == [Insert])
              || (world.workers[me].phase == Releasing(DuplicateBlocked) && moves == [Insert])
              || (world.workers[me].phase == Releasing(Raised) && moves == [Fail])
      ensures Leaves(old(faults), faults)
      ensures Caused(moves, old(faults), [Fail],
                     Hopeless(world, schedule, world.workers[me].job))
    {
      while !CanMove(world, world.workers[me], Insert)
        invariant Valid() && old(history) <= history && MovesOf(history, me) == MovesOf(old(history), me)
        invariant me in world.workers && world.workers[me] == old(world).workers[me]
        invariant faults == old(faults)
        decreases |schedule|
      {
        if schedule == [] {
          StillHopeless(world, me, Fail, schedule, world.workers[me].job);
          Do(me, Fail);
          moves := [Fail];
          return;
        }
        Await(me);
      }
      var ok := Access(me, Insert);
      moves := [if ok then Insert else Fail];
    }

    /** Load the payment, then the case. */
    method LoadRows(me: string) returns (ghost moves: seq<Move>)
      requires Valid() && me in world.workers && world.workers[me].phase.Locked?
      modifies this`world, this`history, this`schedule, this`faults
      ensures Valid() && old(history) <= history && MovesOf(history, me) == MovesOf(old(history), me) + moves
      ensures me in world.workers && world.workers[me].job == old(world).workers[me].job
      ensures var phase := world.workers[me].phase;
              || (phase.Loaded? && moves == [LoadPayment, LoadCase])
              || (phase == Releasing(NotFound) && (moves == [LoadPayment] || moves == [LoadPayment, LoadCase]))
              || (phase == Releasing(Raised) && (moves == [Fail] || moves == [LoadPayment, Fail]))
      ensures Leaves(old(faults), faults)
      ensures Caused(moves, old(faults), [], false)
    {
      var ok := Access(me, LoadPayment);
      moves := [if ok then LoadPayment else Fail];
      if ok && world.workers[me].phase.PaymentLoaded? {
        ok := Access(me, LoadCase);
        moves := [LoadPayment, if ok then LoadCase else Fail];
      }
    }

    /** The quick check, then the reservation. */
    method PassBarrier(me: string) returns (ghost moves: seq<Move>)
      requires Valid() && me in world.workers && world.workers[me].phase.Executing?
      modifies this`world, this`history, this`schedule, this`faults
      ensures Valid() && old(history) <= history && MovesOf(history, me) == MovesOf(old(history), me) + moves
      ensures me in world.workers && SameReading(world.workers[me], old(world).workers[me])
      ensures Passed(world.workers[me].phase, moves)
      ensures Leaves(old(faults), faults)
      ensures Caused(moves, old(faults), [QuickCheck, Fail], Hopeless(world, schedule, world.workers[me].job))
    {
      QuickCheckFacts(world, world.workers[me]);
      var ok := Access(me, QuickCheck);
      moves := [if ok then QuickCheck else Fail];
      if ok && world.workers[me].phase.Checked? {
        ghost var tail := Reserve(me);
        moves := moves + tail;
      }
    }

    /** Enter EXECUTING and pass the idempotency barrier. */
    method Prepare(me: string) returns (ghost moves: seq<Move>)
      requires Valid() && me in world.workers
      requires world.workers[me].phase.Loaded? && !world.workers[me].MustDiscard()
      modifies this`world, this`history, this`schedule, this`faults
      ensures Valid() && old(history) <= history && MovesOf(history, me) == MovesOf(old(history), me) + moves
      ensures me in world.workers && SameReading(world.workers[me], old(world).workers[me])
      ensures Prepared(world.workers[me], moves)
      ensures Leaves(old(faults), faults)
      ensures Caused(moves, old(faults), [BeginExecution, QuickCheck, Fail],
                     Hopeless(world, schedule, world.workers[me].job))
    {
      BeginFacts(world, world.workers[me]);
      var ok := Access(me, BeginExecution);
      moves := [if ok then BeginExecution else Fail];
      if ok && world.workers[me].phase.Executing? {
        ghost var tail := PassBarrier(me);
        PassedPrepares(world.workers[me], tail);
        moves := moves + tail;
      }
    }

    /** Call the provider and wait for its answer. */
    method AskProvider(me: string, outcome: Outcome)
      requires Valid() && me in world.workers && world.workers[me].phase.Reserved?
      modifies this`world, this`history, this`schedule
      ensures Valid() && old(history) <= history && me in world.workers
      ensures MovesOf(history, me) == MovesOf(old(history), me) + [CallProvider, ProviderReturns(outcome)]
      ensures world.workers[me].phase == Responded(outcome)
      ensures SameReading(world.workers[me], old(world).workers[me])
    {
      Do(me, CallProvider);
      Do(me, ProviderReturns(outcome));
    }

    /** Call the provider and commit its answer; if the commit raises, the charge stands and the session is lost. */
    method Settle(me: string, c: Circumstances) returns (status: Status, ghost last: Move)
      requires Valid() && me in world.workers && world.workers[me].phase.Reserved?
      modifies this`world, this`history, this`schedule, this`faults
      ensures Valid() && old(history) <= history && me in world.workers
      ensures SameReading(world.workers[me], old(world).workers[me])
      ensures MovesOf(history, me) == MovesOf(old(history), me) + [CallProvider, ProviderReturns(c.outcome), last]
      ensures world.workers[me].phase == Releasing(status)
      ensures (last == Fail && status == Raised)
              || (last == CommitOutcome(c.policy, c.maxRetries)
                  && status == FinalStatus(c.outcome, old(world).workers[me].job.attempt, c.policy, c.maxRetries))
      ensures Leaves(old(faults), faults)
      ensures last == Fail ==> true in old(faults)
    {
      AskProvider(me, c.outcome);
      var ok := Access(me, CommitOutcome(c.policy, c.maxRetries));
      last := if ok then CommitOutcome(c.policy, c.maxRetries) else Fail;
      status := world.workers[me].phase.status;
    }

    /** The rows are read and the attempt is to go on: reserve, call, commit. */
    method Proceed(me: string, c: Circumstances) returns (status: Status, ghost tail: seq<Move>)
      requires Valid() && me in world.workers && c.verdict.None?
      requires world.workers[me].phase.Loaded? && !world.workers[me].MustDiscard()
      modifies this`world, this`history, this`schedule, this`faults
      ensures Valid() && old(history) <= history && me in world.workers
      ensures world.workers[me].phase == Releasing(status)
      ensures SameReading(world.workers[me], old(world).workers[me])
      ensures MovesOf(history, me) == MovesOf(old(history), me) + tail
      ensures Accomplished(world.workers[me], tail, status, c)
      ensures Leaves(old(faults), faults)
      ensures Caused(tail, old(faults), [BeginExecution, QuickCheck, Fail],
                     Hopeless(world, schedule, world.workers[me].job))
    {
      hide WorkerAfter, Perform, CanMove, MovesOf;
      tail := Prepare(me);
      if world.workers[me].phase.Releasing? {
        status := world.workers[me].phase.status;
        return;
      }
      ghost var last: Move;
      status, last := Settle(me, c);
      assert tail + [CallProvider, ProviderReturns(c.outcome), last] == Asked(c.outcome) + [last];
      tail := Asked(c.outcome) + [last];
    }

    /** The rows are read: discard, block, or proceed. */
    method Handle(me: string, c: Circumstances) returns (status: Status, ghost tail: seq<Move>)
      requires Valid() && me in world.workers && world.workers[me].phase.Loaded?
      modifies this`world, this`history, this`schedule, this`faults
      ensures Valid() && old(history) <= history && me in world.workers
      ensures world.workers[me].phase == Releasing(status)
      ensures SameReading(world.workers[me], old(world).workers[me])
      ensures MovesOf(history, me) == MovesOf(old(history), me) + tail
      ensures Accomplished(world.workers[me], tail, status, c)
      // Money that is collected or on its way, and cases that have ended, are left alone.
      ensures world.workers[me].payment in {PaymentLifecycleState.Succeeded, PaymentLifecycleState.Recovered,
                                            PaymentLifecycleState.Processing, PaymentLifecycleState.Created}
              || world.workers[me].loaded.state in {RecoveryState.RecoverySucceeded, RecoveryState.Stopped,
                                                    RecoveryState.Escalated} ==>
                tail == [Discard] || tail == [Fail]
      ensures Leaves(old(faults), faults)
      ensures Caused(tail, old(faults), [BeginExecution, QuickCheck, Fail],
                     Hopeless(world, schedule, world.workers[me].job))
    {
      if world.workers[me].MustDiscard() {
        var ok := Access(me, Discard);
        tail := [if ok then Discard else Fail];
        status := world.workers[me].phase.status;
      } else if c.verdict.Some? {
        var ok := Access(me, PolicyBlock(c.verdict.value));
        tail := [if ok then PolicyBlock(c.verdict.value) else Fail];
        status := world.workers[me].phase.status;
      } else {
        status, tail := Proceed(me, c);
      }
    }

    /** Everything inside the try block; ends with the worker about to release. */
    method Attempt(me: string, ttl: real, c: Circumstances) returns (status: Status)
      requires Valid() && me in world.workers && world.workers[me].phase.Locked?
      requires MovesOf(history, me) == [Acquire(ttl)]
      modifies this`world, this`history, this`schedule, this`faults
      ensures Valid() && old(history) <= history && me in world.workers
      ensures world.workers[me].phase == Releasing(status) && status != LockContention
      ensures world.workers[me].job == old(world).workers[me].job
      ensures Explains(world.workers[me], MovesOf(history, me) + [Release], status, ttl, c)
      ensures Caused(MovesOf(history, me) + [Release], old(faults), GaveUp(ttl),
                     Hopeless(world, schedule, world.workers[me].job))
    {
      ghost var loads := LoadRows(me);
      if world.workers[me].phase.Releasing? {
        LoadsExplain(world.workers[me], loads, world.workers[me].phase.status, ttl, c);
        return world.workers[me].phase.status;
      }
      ghost var tail: seq<Move>;
      status, tail := Handle(me, c);
      BodyFromParts(ttl, tail);
      BodyExplains(world.workers[me], ttl, tail, status, c);
    }

    /** Acquire, attempt, and release on every way out. */
    method ExecuteRecoveryAttempt(me: string, job: Job, ttl: real, c: Circumstances) returns (status: Status)
      requires Valid() && me !in world.workers && MovesOf(history, me) == []
      modifies this`world, this`history, this`schedule, this`faults
      ensures Valid() && old(history) <= history
      ensures me in world.workers && world.workers[me].phase == Done(status)
      ensures Explains(world.workers[me], MovesOf(history, me), status, ttl, c)
      ensures Caused(MovesOf(history, me), old(faults), GaveUp(ttl), Hopeless(world, schedule, job))
      // Who is charged, what is discarded with which status, and what each answer turns into.
      ensures Told(world.workers[me], MovesOf(history, me), status, ttl, c)
    {
      hide WorkerAfter, Perform, CanMove, MovesOf, Explains, Caused, Told, Hopeless, LocksAfter;
      MovesOfSnoc(history, Spawn(me, job), me);
      Take(Spawn(me, job));
      AcquireFacts(world, world.workers[me], ttl);
      Do(me, Acquire(ttl));
      if world.workers[me].phase.Done? {
        assert MovesOf(history, me) == [Acquire(ttl)];
        ContentionExplains(world.workers[me], ttl, c, faults, Hopeless(world, schedule, job));
        ExplainsTells(world.workers[me], MovesOf(history, me), LockContention, ttl, c);
        return LockContention;
      }
      status := Attempt(me, ttl, c);
      Finish(me, ttl, c, status, old(faults));
      ExplainsTells(world.workers[me], MovesOf(history, me), status, ttl, c);
    }

    /** The finally block. */
    method Finish(me: string, ttl: real, c: Circumstances, status: Status, ghost given: seq<bool>)
      requires Valid() && me in world.workers && world.workers[me].phase == Releasing(status)
      requires Explains(world.workers[me], MovesOf(history, me) + [Release], status, ttl, c)
      requires Caused(MovesOf(history, me) + [Release], given, GaveUp(ttl),
                      Hopeless(world, schedule, world.workers[me].job))
      modifies this`world, this`history, this`schedule
      ensures Valid() && old(history) <= history && me in world.workers
      ensures MovesOf(history, me) == MovesOf(old(history), me) + [Release]
      ensures world.workers[me].phase == Done(status) && world.workers[me].job == old(world).workers[me].job
      ensures Explains(world.workers[me], MovesOf(history, me), status, ttl, c)
      ensures Caused(MovesOf(history, me), given, GaveUp(ttl), Hopeless(world, schedule, world.workers[me].job))
    {
      ghost var k := world.workers[me];
      ReleaseFacts(world, k);
      if Hopeless(world, schedule, k.job) {
        StillHopeless(world, me, Release, schedule, k.job);
      }
      Do(me, Release);
      ReleaseExplains(k, world.workers[me], MovesOf(history, me), status, ttl, c);
    }
  }
}
