/**
 * Idempotent consumption under concurrency: sessions of two consumer groups handle events that may be
 * delivered any number of times, and may crash or abort anywhere
 * (app/consumers/recovery_consumer.py:71-105, app/consumers/notification_consumer.py:64-115).
 */
module ConsumerProtocol {
  import opened RecoveryTypes

  type EventId = nat
  type NoteId = nat
  type SessionId = nat

  datatype Group = RecoveryGroup | NotificationGroup

  /** A row of processed_events; the pair is its primary key. */
  datatype Row = Row(event: EventId, group: Group)

  /** A row of notifications, with the event it was written for; `id` is its primary key. */
  datatype Note = Note(id: NoteId, event: EventId)

  /** Where a session is in its handler. */
  datatype Stage =
    | Idle
    | Received(event: EventId, group: Group)
    | Checked(event: EventId, group: Group)     // looked the row up, found none
    | Flushed(event: EventId)                   // recovery: row inserted, not committed
    | Committed(event: EventId, group: Group)
    | Emitted(event: EventId)                   // recovery: the orchestrator's events are published
    | Duplicate(event: EventId, group: Group)   // looked the row up, found it

  datatype World = World(
    rows: set<Row>,
    notes: seq<Note>,
    effects: seq<EventId>,      // orchestrations committed
    emitted: seq<EventId>,      // orchestrations whose events were published
    acked: set<Row>,            // offsets committed after handling
    sessions: map<SessionId, Stage>)

  datatype Action =
    | Receive(w: SessionId, event: EventId, group: Group)
    | Check(w: SessionId)
    | Flush(w: SessionId)
    | Commit(w: SessionId)
    | Emit(w: SessionId)
    | Ack(w: SessionId)
    | Crash(w: SessionId)

  const START := World({}, [], [], [], {}, map[])

  function StageOf(x: World, w: SessionId): Stage {
    if w in x.sessions then x.sessions[w] else Idle
  }

  function Move(x: World, w: SessionId, st: Stage): World {
    x.(sessions := x.sessions[w := st])
  }

  /** Another session has inserted the same row and has neither committed nor rolled back. */
  ghost predicate Blocked(x: World, w: SessionId, event: EventId) {
    exists v :: v != w && StageOf(x, v) == Flushed(event)
  }

  predicate NoteIdTaken(x: World, id: NoteId) {
    exists i :: 0 <= i < |x.notes| && x.notes[i].id == id
  }

  /** `noteOf` gives the notification id an event's payload carries. */
  ghost predicate Enabled(x: World, a: Action) {
    var st := StageOf(x, a.w);
    match a
    case Receive(_, _, _) => st.Idle?
    case Check(_) => st.Received?
    case Flush(_) => st.Checked? && st.group == RecoveryGroup && !Blocked(x, a.w, st.event)
    case Commit(_) => st.Flushed? || (st.Checked? && st.group == NotificationGroup)
    case Emit(_) => st.Committed? && st.group == RecoveryGroup
    case Ack(_) => st.Emitted? || st.Duplicate? || (st.Committed? && st.group == NotificationGroup)
    case Crash(_) => true
  }

  function AfterCheck(x: World, w: SessionId, e: EventId, g: Group): World {
    Move(x, w, if Row(e, g) in x.rows then Duplicate(e, g) else Checked(e, g))
  }

  /** The insert fails on a committed row, and the session's transaction with it. */
  function AfterFlush(x: World, w: SessionId, e: EventId): World {
    Move(x, w, if Row(e, RecoveryGroup) in x.rows then Idle else Flushed(e))
  }

  /** Row and effect in one transaction. */
  function AfterRecoveryCommit(x: World, w: SessionId, e: EventId): World {
    Move(x.(rows := x.rows + {Row(e, RecoveryGroup)}, effects := x.effects + [e]), w, Committed(e, RecoveryGroup))
  }

  /** Row and notification are inserted and committed together; either key may already be taken. */
  function AfterNoteCommit(x: World, w: SessionId, e: EventId, id: NoteId): World {
    if Row(e, NotificationGroup) in x.rows || NoteIdTaken(x, id) then Move(x, w, Idle)
    else
      Move(x.(rows := x.rows + {Row(e, NotificationGroup)}, notes := x.notes + [Note(id, e)]),
           w, Committed(e, NotificationGroup))
  }

  function Handled(st: Stage): Option<Row> {
    match st
    case Emitted(e) => Some(Row(e, RecoveryGroup))
    case Duplicate(e, g) => Some(Row(e, g))
    case Committed(e, g) => Some(Row(e, g))
    case _ => None
  }

  function Apply(x: World, a: Action, noteOf: EventId -> NoteId): World {
    var st := StageOf(x, a.w);
    match a
    case Receive(w, e, g) => Move(x, w, Received(e, g))
    case Check(w) => if st.Received? then AfterCheck(x, w, st.event, st.group) else x
    case Flush(w) => if st.Checked? then AfterFlush(x, w, st.event) else x
    case Commit(w) =>
      if st.Flushed? then AfterRecoveryCommit(x, w, st.event)
      else if st.Checked? then AfterNoteCommit(x, w, st.event, noteOf(st.event)) else x
    case Emit(w) => if st.Committed? then Move(x.(emitted := x.emitted + [st.event]), w, Emitted(st.event)) else x
    case Ack(w) =>
      if Handled(st).Some? then Move(x.(acked := x.acked + {Handled(st).value}), w, Idle) else x
    case Crash(w) => Move(x, w, Idle)
  }

  ghost predicate IsRun(x: World, run: seq<Action>, noteOf: EventId -> NoteId)
    decreases |run|
  {
    run == [] || (Enabled(x, run[0]) && IsRun(Apply(x, run[0], noteOf), run[1..], noteOf))
  }

  function Exec(x: World, run: seq<Action>, noteOf: EventId -> NoteId): World
    decreases |run|
  {
    if run == [] then x else Exec(Apply(x, run[0], noteOf), run[1..], noteOf)
  }

  // ---- what every run keeps ---------------------------------------------------------------

  function Times(xs: seq<EventId>, e: EventId): nat {
    multiset(xs)[e]
  }

  function NotesFor(notes: seq<Note>, e: EventId): nat {
    if notes == [] then 0
    else NotesFor(notes[..|notes| - 1], e) + if notes[|notes| - 1].event == e then 1 else 0
  }

  function One(b: bool): nat {
    if b then 1 else 0
  }

  /** Committed work, row by row. */
  ghost predicate Exact(x: World) {
    && (forall e :: Times(x.effects, e) == One(Row(e, RecoveryGroup) in x.rows))
    && (forall e :: NotesFor(x.notes, e) == One(Row(e, NotificationGroup) in x.rows))
  }

  /** An uncommitted row belongs to one session, and is not among the committed ones. */
  ghost predicate Exclusive(x: World) {
    && (forall w :: StageOf(x, w).Flushed? ==> Row(StageOf(x, w).event, RecoveryGroup) !in x.rows)
    && (forall v, w :: StageOf(x, v).Flushed? && StageOf(x, v) == StageOf(x, w) ==> v == w)
  }

  /** A session that is about to publish or acknowledge is past a committed row. */
  ghost predicate Durable(x: World) {
    && (forall w :: Handled(StageOf(x, w)).Some? ==> Handled(StageOf(x, w)).value in x.rows)
    && x.acked <= x.rows
  }

  /** Holds the right to publish the events of a committed orchestration. */
  predicate Entitled(st: Stage, e: EventId) {
    st == Committed(e, RecoveryGroup)
  }

  /** Published at most once, and by the one session that committed. */
  ghost predicate EmittedOnce(x: World) {
    && (forall e :: Times(x.emitted, e) <= One(Row(e, RecoveryGroup) in x.rows))
    && (forall w, e :: Entitled(StageOf(x, w), e) ==> Times(x.emitted, e) == 0)
    && (forall v, w, e :: Entitled(StageOf(x, v), e) && Entitled(StageOf(x, w), e) ==> v == w)
  }

  ghost predicate Inv(x: World) {
    Exact(x) && Exclusive(x) && Durable(x) && EmittedOnce(x)
  }

  lemma NotesAppend(notes: seq<Note>, n: Note)
    ensures forall e :: NotesFor(notes + [n], e) == NotesFor(notes, e) + One(n.event == e)
  {
    assert (notes + [n])[..|notes + [n]| - 1] == notes;
  }

  /** A step moves one session, and never removes a row. */
  lemma StepMovesOne(x: World, a: Action, noteOf: EventId -> NoteId)
    ensures forall v :: v != a.w ==> StageOf(Apply(x, a, noteOf), v) == StageOf(x, v)
    ensures x.rows <= Apply(x, a, noteOf).rows
  {
  }

  lemma OneMoreEffect(x: World, w: SessionId, e: EventId)
    requires Exact(x) && Row(e, RecoveryGroup) !in x.rows
    ensures Exact(AfterRecoveryCommit(x, w, e))
  {
    assert forall f :: Times(x.effects + [e], f) == Times(x.effects, f) + One(e == f);
  }

  lemma OneMoreNote(x: World, w: SessionId, e: EventId, id: NoteId)
    requires Exact(x)
    ensures Exact(AfterNoteCommit(x, w, e, id))
  {
    NotesAppend(x.notes, Note(id, e));
  }

  lemma StepKeepsExact(x: World, a: Action, noteOf: EventId -> NoteId)
    requires Inv(x) && Enabled(x, a)
    ensures Exact(Apply(x, a, noteOf))
  {
    var st := StageOf(x, a.w);
    if a.Commit? && st.Flushed? {
      OneMoreEffect(x, a.w, st.event);
    } else if a.Commit? {
      OneMoreNote(x, a.w, st.event, noteOf(st.event));
    }
  }

  lemma StepKeepsExclusive(x: World, a: Action, noteOf: EventId -> NoteId)
    requires Inv(x) && Enabled(x, a)
    ensures Exclusive(Apply(x, a, noteOf))
  {
    var y := Apply(x, a, noteOf);
    StepMovesOne(x, a, noteOf);
    forall w | StageOf(y, w).Flushed? ensures Row(StageOf(y, w).event, RecoveryGroup) !in y.rows {
      if w != a.w && a.Commit? && StageOf(x, a.w).Flushed? {
        assert StageOf(x, w) != StageOf(x, a.w);
      }
    }
    forall v, w | StageOf(y, v).Flushed? && StageOf(y, v) == StageOf(y, w) ensures v == w {
      assert a.Flush? || StageOf(x, v) == StageOf(y, v);
    }
  }

  lemma StepKeepsDurable(x: World, a: Action, noteOf: EventId -> NoteId)
    requires Inv(x) && Enabled(x, a)
    ensures Durable(Apply(x, a, noteOf))
  {
    var y := Apply(x, a, noteOf);
    StepMovesOne(x, a, noteOf);
    forall w | Handled(StageOf(y, w)).Some? ensures Handled(StageOf(y, w)).value in y.rows {
      if w == a.w && a.Emit? {
        assert Handled(StageOf(x, w)).Some?;
      }
    }
  }

  lemma StepKeepsEmittedOnce(x: World, a: Action, noteOf: EventId -> NoteId)
    requires Inv(x) && Enabled(x, a)
    ensures EmittedOnce(Apply(x, a, noteOf))
  {
    var y := Apply(x, a, noteOf);
    StepMovesOne(x, a, noteOf);
    var st := StageOf(x, a.w);
    if a.Commit? && st.Flushed? {
      NewlyEntitled(x, a.w, st.event);
    } else if a.Emit? {
      assert Entitled(st, st.event) && Handled(st).Some?;
      assert forall e :: Times(x.emitted + [st.event], e) == Times(x.emitted, e) + One(st.event == e);
      forall w, e | Entitled(StageOf(y, w), e) ensures Times(y.emitted, e) == 0 {
        assert w != a.w && Entitled(StageOf(x, w), e);
      }
      forall v, w, e | Entitled(StageOf(y, v), e) && Entitled(StageOf(y, w), e) ensures v == w {
        assert Entitled(StageOf(x, v), e) && Entitled(StageOf(x, w), e);
      }
    } else {
      forall w, e | Entitled(StageOf(y, w), e) ensures Entitled(StageOf(x, w), e) {
      }
    }
  }

  lemma NewlyEntitled(x: World, w: SessionId, e: EventId)
    requires Inv(x) && StageOf(x, w) == Flushed(e)
    ensures EmittedOnce(AfterRecoveryCommit(x, w, e))
  {
    var y := AfterRecoveryCommit(x, w, e);
    assert Row(e, RecoveryGroup) !in x.rows;
    forall v, f | v != w && Entitled(StageOf(y, v), f) ensures Entitled(StageOf(x, v), f) && f != e {
      assert StageOf(y, v) == StageOf(x, v) && Handled(StageOf(x, v)).Some?;
    }
  }

  lemma StepKeepsInv(x: World, a: Action, noteOf: EventId -> NoteId)
    requires Inv(x) && Enabled(x, a)
    ensures Inv(Apply(x, a, noteOf))
  {
    StepKeepsExact(x, a, noteOf);
    StepKeepsExclusive(x, a, noteOf);
    StepKeepsDurable(x, a, noteOf);
    StepKeepsEmittedOnce(x, a, noteOf);
  }

  lemma {:induction false} RunKeepsInv(x: World, run: seq<Action>, noteOf: EventId -> NoteId)
    requires Inv(x) && IsRun(x, run, noteOf)
    ensures Inv(Exec(x, run, noteOf))
    decreases |run|
  {
    if run != [] {
      StepKeepsInv(x, run[0], noteOf);
      RunKeepsInv(Apply(x, run[0], noteOf), run[1..], noteOf);
    }
  }

  lemma StartHolds()
    ensures Inv(START)
  {
    assert forall e :: NotesFor([], e) == 0;
  }

  /**
   * Over any interleaving of any number of sessions, with any redelivery and any crashes: per event at most one
   * orchestration and one notification, each present exactly when its processed_events row is; offsets only
   * after the commit; events published at most once per orchestration.
   */
  lemma OncePerEvent(run: seq<Action>, noteOf: EventId -> NoteId, e: EventId)
    requires IsRun(START, run, noteOf)
    ensures var x := Exec(START, run, noteOf);
            && Times(x.effects, e) == One(Row(e, RecoveryGroup) in x.rows)
            && NotesFor(x.notes, e) == One(Row(e, NotificationGroup) in x.rows)
            && Times(x.emitted, e) <= Times(x.effects, e)
            && x.acked <= x.rows
  {
    StartHolds();
    RunKeepsInv(START, run, noteOf);
  }

  // ---- what redelivery can and cannot repair ------------------------------------------------

  lemma RunCons(x: World, a: Action, rest: seq<Action>, noteOf: EventId -> NoteId)
    requires Enabled(x, a) && IsRun(Apply(x, a, noteOf), rest, noteOf)
    ensures IsRun(x, [a] + rest, noteOf)
    ensures Exec(x, [a] + rest, noteOf) == Exec(Apply(x, a, noteOf), rest, noteOf)
  {
    assert ([a] + rest)[1..] == rest;
  }

  /** What a free session does with a notification when nothing interrupts it; a taken id makes the commit fail. */
  function SoloNotification(x: World, w: SessionId, e: EventId, id: NoteId): seq<Action> {
    [Receive(w, e, NotificationGroup)] +
    ([Check(w)] +
     if Row(e, NotificationGroup) in x.rows then [Ack(w)]
     else [Commit(w)] + if NoteIdTaken(x, id) then [] else [Ack(w)])
  }

  /** The same for a payment failure; an orchestrator that raises takes the inserted row back. */
  function SoloRecovery(x: World, w: SessionId, e: EventId, completes: bool): seq<Action> {
    [Receive(w, e, RecoveryGroup)] +
    ([Check(w)] +
     if Row(e, RecoveryGroup) in x.rows then [Ack(w)]
     else [Flush(w)] + if completes then [Commit(w)] + ([Emit(w)] + [Ack(w)]) else [Crash(w)])
  }

  lemma LastAck(x: World, w: SessionId, row: Row, noteOf: EventId -> NoteId)
    requires Handled(StageOf(x, w)) == Some(row) && Enabled(x, Ack(w))
    ensures IsRun(x, [Ack(w)], noteOf) && Exec(x, [Ack(w)], noteOf) == Apply(x, Ack(w), noteOf)
    ensures row in Exec(x, [Ack(w)], noteOf).acked
  {
    assert [Ack(w)] == [Ack(w)] + [];
    RunCons(x, Ack(w), [], noteOf);
  }

  /**
   * Redelivery to one free session completes a notification, unless another event took its notification id:
   * then the transaction fails, and nothing has changed but the session.
   */
  lemma NotificationCompletes(x: World, w: SessionId, e: EventId, noteOf: EventId -> NoteId)
    requires StageOf(x, w).Idle?
    ensures var run, row := SoloNotification(x, w, e, noteOf(e)), Row(e, NotificationGroup);
            var y := Exec(x, run, noteOf);
            && IsRun(x, run, noteOf) && y.effects == x.effects
            && if row !in x.rows && NoteIdTaken(x, noteOf(e)) then
                 y.rows == x.rows && y.notes == x.notes && y.acked == x.acked
               else
                 && row in y.acked && y.rows == x.rows + {row}
                 && y.notes == x.notes + if row in x.rows then [] else [Note(noteOf(e), e)]
  {
    var row := Row(e, NotificationGroup);
    var x1 := Apply(x, Receive(w, e, NotificationGroup), noteOf);
    var x2 := Apply(x1, Check(w), noteOf);
    var rest: seq<Action>;
    if row in x.rows {
      rest := [Ack(w)];
      LastAck(x2, w, row, noteOf);
    } else {
      var x3 := Apply(x2, Commit(w), noteOf);
      var last := if NoteIdTaken(x, noteOf(e)) then [] else [Ack(w)];
      rest := [Commit(w)] + last;
      if last != [] {
        LastAck(x3, w, row, noteOf);
      }
      RunCons(x2, Commit(w), last, noteOf);
    }
    RunCons(x1, Check(w), rest, noteOf);
    RunCons(x, Receive(w, e, NotificationGroup), [Check(w)] + rest, noteOf);
  }

  /** If another event took it, no redelivery ever helps: the two cases together are exact. */
  lemma {:induction false} TakenIdBlocksForever(x: World, run: seq<Action>, noteOf: EventId -> NoteId, e: EventId)
    requires IsRun(x, run, noteOf)
    requires Row(e, NotificationGroup) !in x.rows && NoteIdTaken(x, noteOf(e))
    ensures Row(e, NotificationGroup) !in Exec(x, run, noteOf).rows && NoteIdTaken(Exec(x, run, noteOf), noteOf(e))
    decreases |run|
  {
    if run != [] {
      var y := Apply(x, run[0], noteOf);
      var i :| 0 <= i < |x.notes| && x.notes[i].id == noteOf(e);
      assert i < |y.notes| && y.notes[i] == x.notes[i];
      TakenIdBlocksForever(y, run[1..], noteOf, e);
    }
  }

  /**
   * Redelivery to one free session completes an orchestration once no other session holds its uncommitted row;
   * if the orchestrator raises, nothing has changed but the session.
   */
  lemma RecoveryCompletes(x: World, w: SessionId, e: EventId, completes: bool, noteOf: EventId -> NoteId)
    requires StageOf(x, w).Idle? && !Blocked(x, w, e)
    ensures var run, row := SoloRecovery(x, w, e, completes), Row(e, RecoveryGroup);
            var y := Exec(x, run, noteOf);
            && IsRun(x, run, noteOf) && y.notes == x.notes
            && if row !in x.rows && !completes then
                 y.rows == x.rows && y.effects == x.effects && y.acked == x.acked && y.emitted == x.emitted
               else
                 && row in y.acked && y.rows == x.rows + {row}
                 && y.effects == x.effects + if row in x.rows then [] else [e]
  {
    var row := Row(e, RecoveryGroup);
    var x1 := Apply(x, Receive(w, e, RecoveryGroup), noteOf);
    var x2 := Apply(x1, Check(w), noteOf);
    var rest: seq<Action>;
    if row in x.rows {
      rest := [Ack(w)];
      LastAck(x2, w, row, noteOf);
    } else {
      StepMovesOne(x, Receive(w, e, RecoveryGroup), noteOf);
      StepMovesOne(x1, Check(w), noteOf);
      assert !Blocked(x2, w, e);
      var x3 := Apply(x2, Flush(w), noteOf);
      var last := AfterInsert(x3, w, e, completes, noteOf);
      rest := [Flush(w)] + last;
      RunCons(x2, Flush(w), last, noteOf);
    }
    RunCons(x1, Check(w), rest, noteOf);
    RunCons(x, Receive(w, e, RecoveryGroup), [Check(w)] + rest, noteOf);
  }

  lemma AfterInsert(x: World, w: SessionId, e: EventId, completes: bool, noteOf: EventId -> NoteId)
    returns (last: seq<Action>)
    requires StageOf(x, w) == Flushed(e)
    ensures last == if completes then [Commit(w)] + ([Emit(w)] + [Ack(w)]) else [Crash(w)]
    ensures IsRun(x, last, noteOf)
    ensures var y := Exec(x, last, noteOf);
            && y.notes == x.notes
            && if completes then
                 && y.rows == x.rows + {Row(e, RecoveryGroup)} && y.effects == x.effects + [e]
                 && Row(e, RecoveryGroup) in y.acked
               else y.rows == x.rows && y.effects == x.effects && y.acked == x.acked && y.emitted == x.emitted
  {
    if completes {
      var x4 := Apply(x, Commit(w), noteOf);
      var x5 := Apply(x4, Emit(w), noteOf);
      LastAck(x5, w, Row(e, RecoveryGroup), noteOf);
      RunCons(x4, Emit(w), [Ack(w)], noteOf);
      RunCons(x, Commit(w), [Emit(w)] + [Ack(w)], noteOf);
      last := [Commit(w)] + ([Emit(w)] + [Ack(w)]);
    } else {
      assert [Crash(w)] == [Crash(w)] + [];
      RunCons(x, Crash(w), [], noteOf);
      last := [Crash(w)];
    }
  }

  /** An orchestration is committed, and no session is left that would publish its events. */
  ghost predicate Unheard(x: World, e: EventId) {
    && Row(e, RecoveryGroup) in x.rows
    && Times(x.emitted, e) == 0
    && (forall w :: !Entitled(StageOf(x, w), e))
  }

  /** Then no redelivery ever publishes them: the duplicate check stops every later handler. */
  lemma {:induction false} UnheardForever(x: World, run: seq<Action>, noteOf: EventId -> NoteId, e: EventId)
    requires Inv(x) && IsRun(x, run, noteOf) && Unheard(x, e)
    ensures Unheard(Exec(x, run, noteOf), e)
    decreases |run|
  {
    if run != [] {
      var a, y := run[0], Apply(x, run[0], noteOf);
      StepMovesOne(x, a, noteOf);
      UnheardStep(x, a, noteOf, e);
      StepKeepsInv(x, a, noteOf);
      UnheardForever(y, run[1..], noteOf, e);
    }
  }

  lemma UnheardStep(x: World, a: Action, noteOf: EventId -> NoteId, e: EventId)
    requires Inv(x) && Enabled(x, a) && Unheard(x, e)
    ensures Unheard(Apply(x, a, noteOf), e)
  {
    var y, st := Apply(x, a, noteOf), StageOf(x, a.w);
    StepMovesOne(x, a, noteOf);
    assert !Entitled(st, e);
    if a.Emit? {
      assert Entitled(st, st.event);
      assert Times(x.emitted + [st.event], e) == Times(x.emitted, e);
    }
  }

  /** A crash between the commit and the publication leaves exactly that, from a fresh start. */
  lemma CrashAfterCommitSilences(w: SessionId, e: EventId, noteOf: EventId -> NoteId)
    ensures var run := [Receive(w, e, RecoveryGroup)] + ([Check(w)] + ([Flush(w)] + ([Commit(w)] + [Crash(w)])));
            IsRun(START, run, noteOf) && Unheard(Exec(START, run, noteOf), e)
  {
    var x1 := Apply(START, Receive(w, e, RecoveryGroup), noteOf);
    var x2 := Apply(x1, Check(w), noteOf);
    var x3 := Apply(x2, Flush(w), noteOf);
    var x4 := Apply(x3, Commit(w), noteOf);
    assert [Crash(w)] == [Crash(w)] + [];
    RunCons(x4, Crash(w), [], noteOf);
    RunCons(x3, Commit(w), [Crash(w)], noteOf);
    RunCons(x2, Flush(w), [Commit(w)] + [Crash(w)], noteOf);
    RunCons(x1, Check(w), [Flush(w)] + ([Commit(w)] + [Crash(w)]), noteOf);
    RunCons(START, Receive(w, e, RecoveryGroup), [Check(w)] + ([Flush(w)] + ([Commit(w)] + [Crash(w)])), noteOf);
  }

  // ---- exactly when an orchestration is published -----------------------------------------------

  /** A committed orchestration is published, or its session is still about to publish it. */
  ghost predicate Heard(x: World, e: EventId) {
    Row(e, RecoveryGroup) in x.rows ==>
      Times(x.emitted, e) == 1 || exists w :: Entitled(StageOf(x, w), e)
  }

  /** The process of the session that committed `e` dies before it publishes. */
  predicate Silences(x: World, a: Action, e: EventId) {
    a.Crash? && Entitled(StageOf(x, a.w), e)
  }

  predicate Silenced(x: World, run: seq<Action>, noteOf: EventId -> NoteId, e: EventId)
    decreases |run|
  {
    run != [] && (Silences(x, run[0], e) || Silenced(Apply(x, run[0], noteOf), run[1..], noteOf, e))
  }

  /** The session entitled to publish `e` keeps that right until it publishes or dies. */
  lemma EntitledUntil(x: World, a: Action, noteOf: EventId -> NoteId, e: EventId, w: SessionId)
    requires Inv(x) && Enabled(x, a) && Entitled(StageOf(x, w), e) && !Silences(x, a, e)
    ensures Times(Apply(x, a, noteOf).emitted, e) == 1 || Entitled(StageOf(Apply(x, a, noteOf), w), e)
  {
    StepMovesOne(x, a, noteOf);
    if a.w == w && a.Emit? {
      assert multiset(x.emitted + [e])[e] == multiset(x.emitted)[e] + 1;
    }
  }

  lemma EmittedStays(x: World, a: Action, noteOf: EventId -> NoteId, e: EventId)
    ensures Times(Apply(x, a, noteOf).emitted, e) >= Times(x.emitted, e)
  {
  }

  lemma StepKeepsHeard(x: World, a: Action, noteOf: EventId -> NoteId, e: EventId)
    requires Inv(x) && Enabled(x, a) && Heard(x, e) && !Silences(x, a, e)
    ensures Heard(Apply(x, a, noteOf), e)
  {
    var y := Apply(x, a, noteOf);
    StepKeepsInv(x, a, noteOf);
    EmittedStays(x, a, noteOf, e);
    if Row(e, RecoveryGroup) in x.rows {
      if Times(x.emitted, e) != 1 {
        var w :| Entitled(StageOf(x, w), e);
        EntitledUntil(x, a, noteOf, e, w);
      }
    } else if Row(e, RecoveryGroup) in y.rows {
      assert Entitled(StageOf(y, a.w), e);
    }
  }

  lemma SilencingIsForgetting(x: World, a: Action, noteOf: EventId -> NoteId, e: EventId)
    requires Inv(x) && Silences(x, a, e)
    ensures Unheard(Apply(x, a, noteOf), e)
  {
    var y := Apply(x, a, noteOf);
    StepMovesOne(x, a, noteOf);
    assert Handled(StageOf(x, a.w)) == Some(Row(e, RecoveryGroup));
    forall w ensures !Entitled(StageOf(y, w), e) {
      assert w != a.w ==> StageOf(y, w) == StageOf(x, w);
    }
  }

  lemma {:induction false} HeardOrSilenced(x: World, run: seq<Action>, noteOf: EventId -> NoteId, e: EventId)
    requires Inv(x) && Heard(x, e) && IsRun(x, run, noteOf)
    ensures if Silenced(x, run, noteOf, e) then Unheard(Exec(x, run, noteOf), e) else Heard(Exec(x, run, noteOf), e)
    decreases |run|
  {
    if run != [] {
      var a, y := run[0], Apply(x, run[0], noteOf);
      StepKeepsInv(x, a, noteOf);
      if Silences(x, a, e) {
        SilencingIsForgetting(x, a, noteOf, e);
        UnheardForever(y, run[1..], noteOf, e);
      } else {
        StepKeepsHeard(x, a, noteOf, e);
        HeardOrSilenced(y, run[1..], noteOf, e);
      }
    }
  }

  /**
   * In every run from the start: a committed orchestration is unpublished with nobody left to publish it exactly
   * when the process of its session died between the commit and the publication. In all other runs it has been
   * published once, or its session is about to.
   */
  lemma UnheardIffSilenced(run: seq<Action>, noteOf: EventId -> NoteId, e: EventId)
    requires IsRun(START, run, noteOf)
    ensures Unheard(Exec(START, run, noteOf), e) <==> Silenced(START, run, noteOf, e)
    ensures !Silenced(START, run, noteOf, e) ==> Heard(Exec(START, run, noteOf), e)
  {
    StartHolds();
    HeardOrSilenced(START, run, noteOf, e);
  }
}
