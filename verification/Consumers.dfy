/** The consumers' polling loops (app/consumers/notification_consumer.py, app/consumers/recovery_consumer.py). */
module Consumers {
  import opened RecoveryTypes
  import opened Broker
  import opened ConsumerProtocol
  import Orchestrator

  const TOPIC := "payment.events"
  const NOTIFICATION_GROUP := "iro-notification-group"
  const RECOVERY_GROUP := "iro-recovery-group"
  const NOTIFICATION_REQUESTED := "notification.requested"
  const PAYMENT_FAILED := "payment.failed"

  /** The parts of an event that decide what its handler does. */
  datatype Envelope = Envelope(event: EventId, note: NoteId)

  /** What parsing makes of a message: no JSON at all, or a typed event whose envelope may fail validation. */
  datatype Decoded = NotJson | Typed(eventType: string, envelope: Option<Envelope>)

  datatype Outcome = Processed | SkippedDuplicate | NothingWaiting | Raised

  /** The committed tables. */
  datatype Tables = Tables(rows: set<Row>, notes: seq<Note>, effects: seq<EventId>)

  // ---- polling past other consumers' events -----------------------------------------------

  predicate Irrelevant(m: Message, wanted: string, decode: string -> Decoded) {
    decode(m.body.value).Typed? && decode(m.body.value).eventType != wanted
  }

  /** What waits for the group, once it is registered. */
  function Line(s: State, topic: string, group: string): seq<Message> {
    QueueAt(AfterRegister(s, topic, group), QueueKey(topic, group))
  }

  /** How many messages are passed over before the first one that counts. */
  function Lead(line: seq<Message>, wanted: string, decode: string -> Decoded): (k: nat)
    ensures k <= |line|
    ensures forall i :: 0 <= i < k ==> Irrelevant(line[i], wanted, decode)
    ensures k < |line| ==> !Irrelevant(line[k], wanted, decode)
  {
    if line == [] || !Irrelevant(line[0], wanted, decode) then 0 else 1 + Lead(line[1..], wanted, decode)
  }

  /** The broker after `k` messages were polled and committed. */
  function Skipped(s: State, topic: string, group: string, k: nat): State
    decreases k
  {
    if k == 0 || Polled(s, topic, group).None? then s
    else Skipped(AfterCommit(AfterPoll(s, topic, group), group, Polled(s, topic, group).value), topic, group, k - 1)
  }

  lemma PollLine(s: State, topic: string, group: string)
    ensures Polled(s, topic, group) == if Line(s, topic, group) == [] then None else Some(Line(s, topic, group)[0])
    ensures Line(s, topic, group) != [] ==> Line(AfterPoll(s, topic, group), topic, group) == Line(s, topic, group)[1..]
  {
  }

  lemma CommitLine(s: State, group: string, m: Message, topic: string)
    ensures Line(AfterCommit(s, group, m), topic, group) == Line(s, topic, group)
    ensures LogOf(AfterCommit(s, group, m), topic) == LogOf(s, topic)
  {
  }

  /** Skipping removes exactly the first `k` messages, and commits the offset of the last of them. */
  lemma {:induction false} SkippedLine(s: State, topic: string, group: string, k: nat)
    requires k <= |Line(s, topic, group)|
    ensures Line(Skipped(s, topic, group, k), topic, group) == Line(s, topic, group)[k..]
    ensures var last := Line(s, topic, group)[..k];
            k > 0 ==>
              && QueueKey(last[k - 1].topic, group) in Skipped(s, topic, group, k).committed
              && Skipped(s, topic, group, k).committed[QueueKey(last[k - 1].topic, group)] == last[k - 1].offset
    decreases k
  {
    if k > 0 {
      PollLine(s, topic, group);
      var p, m := AfterPoll(s, topic, group), Polled(s, topic, group).value;
      CommitLine(p, group, m, topic);
      SkippedLine(AfterCommit(p, group, m), topic, group, k - 1);
    }
  }

  lemma SkipOne(s: State, topic: string, group: string, j: nat)
    requires j > 0 && Line(s, topic, group) != []
    ensures Polled(s, topic, group) == Some(Line(s, topic, group)[0])
    ensures var t := AfterCommit(AfterPoll(s, topic, group), group, Line(s, topic, group)[0]);
            && Line(t, topic, group) == Line(s, topic, group)[1..]
            && Skipped(s, topic, group, j) == Skipped(t, topic, group, j - 1)
  {
    PollLine(s, topic, group);
    CommitLine(AfterPoll(s, topic, group), group, Line(s, topic, group)[0], topic);
  }

  lemma SkippedNone(s: State, topic: string, group: string)
    ensures Skipped(s, topic, group, 0) == s
  {
  }

  lemma LeadUnfolds(line: seq<Message>, wanted: string, decode: string -> Decoded)
    ensures Lead(line, wanted, decode) ==
            if line == [] then 0
            else if decode(line[0].body.value).NotJson? || decode(line[0].body.value).eventType == wanted then 0
            else 1 + Lead(line[1..], wanted, decode)
  {
  }

  /** The loop of both consumers: commits and passes over every event of another type. */
  method NextRelevant(broker: InMemoryEventBroker, topic: string, group: string, wanted: string,
                      decode: string -> Decoded)
    returns (r: Option<Message>)
    requires broker.Valid()
    modifies broker
    ensures broker.Valid()
    ensures var line := old(Line(broker.Now(), topic, group));
            var k := Lead(line, wanted, decode);
            && r == (if k < |line| then Some(line[k]) else None)
            && broker.Now() == AfterPoll(Skipped(old(broker.Now()), topic, group, k), topic, group)
  {
    hide AfterPoll, AfterCommit, Line, Lead, Skipped, Irrelevant;
    ghost var s := broker.Now();
    ghost var line := Line(s, topic, group);
    ghost var rest := line;
    ghost var lead := Lead(line, wanted, decode);
    while true
      invariant broker.Valid() && Line(broker.Now(), topic, group) == rest
      invariant |rest| <= |line| && rest == line[|line| - |rest|..]
      invariant lead == |line| - |rest| + Lead(rest, wanted, decode)
      invariant Skipped(s, topic, group, lead) == Skipped(broker.Now(), topic, group, Lead(rest, wanted, decode))
      decreases |rest|
    {
      PollLine(broker.Now(), topic, group);
      ghost var before := broker.Now();
      r := broker.GetMessage(topic, group);
      LeadUnfolds(rest, wanted, decode);
      SkippedNone(before, topic, group);
      if r.None? {
        return;
      }
      var d := decode(r.value.body.value);
      if d.NotJson? || d.eventType == wanted {
        return;
      }
      SkipOne(before, topic, group, Lead(rest, wanted, decode));
      broker.Commit(group, r.value);
      rest := rest[1..];
    }
  }

  class Database {
    var rows: set<Row>
    var notes: seq<Note>
    var effects: seq<EventId>

    function Now(): Tables
      reads this
    {
      Tables(rows, notes, effects)
    }
  }

  function Parsed(m: Message, decode: string -> Decoded): Option<Envelope> {
    var d := decode(m.body.value);
    if d.Typed? then d.envelope else None
  }

  datatype Consumption = Consumption(state: State, tables: Tables, outcome: Outcome, polled: Option<Message>)

  /** One `process_next`: everything passed over is committed, the message itself only if it parses and its handler
      does not raise. */
  function Consumed(s: State, t: Tables, topic: string, group: string, wanted: string, decode: string -> Decoded,
                    handler: (Tables, Envelope) -> (Tables, Outcome)): Consumption
  {
    var line := Line(s, topic, group);
    var k := Lead(line, wanted, decode);
    var polled := AfterPoll(Skipped(s, topic, group, k), topic, group);
    if k == |line| then Consumption(polled, t, NothingWaiting, None)
    else
      match Parsed(line[k], decode)
      case None => Consumption(polled, t, Raised, Some(line[k]))
      case Some(e) =>
        var (u, r) := handler(t, e);
        Consumption(if r.Raised? then polled else AfterCommit(polled, group, line[k]), u, r, Some(line[k]))
  }

  // ---- the notification consumer ------------------------------------------------------------

  /** The handler on the committed tables: `Raised` stands for the integrity error of a taken notification id. */
  function Notified(t: Tables, e: Envelope): (Tables, Outcome) {
    var row := Row(e.event, NotificationGroup);
    if row in t.rows then (t, SkippedDuplicate)
    else if exists i :: 0 <= i < |t.notes| && t.notes[i].id == e.note then (t, Raised)
    else (t.(rows := t.rows + {row}, notes := t.notes + [Note(e.note, e.event)]), Processed)
  }

  class NotificationConsumer {
    const broker: InMemoryEventBroker
    const decode: string -> Decoded

    constructor (broker: InMemoryEventBroker, decode: string -> Decoded)
      requires broker.Valid()
      modifies broker
      ensures this.broker == broker && this.decode == decode && broker.Valid()
      ensures broker.Now() == AfterRegister(old(broker.Now()), TOPIC, NOTIFICATION_GROUP)
    {
      this.broker, this.decode := broker, decode;
      new;
      broker.RegisterConsumerGroup(TOPIC, NOTIFICATION_GROUP);
    }

    method HandleNotificationRequested(db: Database, e: Envelope) returns (r: Outcome)
      modifies db
      ensures (db.Now(), r) == Notified(old(db.Now()), e)
    {
      var row := Row(e.event, NotificationGroup);
      if row in db.rows {
        return SkippedDuplicate;
      }
      var i := 0;
      while i < |db.notes|
        invariant 0 <= i <= |db.notes|
        invariant forall j :: 0 <= j < i ==> db.notes[j].id != e.note
        invariant db.Now() == old(db.Now())
      {
        if db.notes[i].id == e.note {
          return Raised;
        }
        i := i + 1;
      }
      db.rows, db.notes := db.rows + {row}, db.notes + [Note(e.note, e.event)];
      r := Processed;
    }

    /**
     * One event is handled, its offset committed only after its transaction; a malformed event, or one whose
     * transaction fails, leaves the offset where it was.
     */
    method ProcessNext(db: Database) returns (r: Outcome, ghost m: Option<Message>)
      requires broker.Valid()
      modifies broker, db
      ensures broker.Valid()
      ensures Consumption(broker.Now(), db.Now(), r, m) ==
              Consumed(old(broker.Now()), old(db.Now()), TOPIC, NOTIFICATION_GROUP, NOTIFICATION_REQUESTED, decode,
                       Notified)
      ensures r in {NothingWaiting, Raised} ==> db.Now() == old(db.Now())
      ensures r in {Processed, SkippedDuplicate} ==>
                && m.Some? && Parsed(m.value, decode).Some?
                && (db.Now(), r) == Notified(old(db.Now()), Parsed(m.value, decode).value)
                && Row(Parsed(m.value, decode).value.event, NotificationGroup) in db.Now().rows
    {
      hide Line, Lead, Skipped, AfterPoll, AfterCommit;
      var next := NextRelevant(broker, TOPIC, NOTIFICATION_GROUP, NOTIFICATION_REQUESTED, decode);
      m := next;
      if next.None? {
        return NothingWaiting, m;
      }
      var d := decode(next.value.body.value);
      if d.NotJson? || d.envelope.None? {
        return Raised, m;
      }
      r := HandleNotificationRequested(db, d.envelope.value);
      if r.Raised? {
        return;
      }
      broker.Commit(NOTIFICATION_GROUP, next.value);
    }
  }

  // ---- the recovery consumer ----------------------------------------------------------------

  /**
   * The handler on the committed tables. `completes` says whether the orchestration reaches its commit; a decision
   * engine or a database that raises before it rolls everything back.
   */
  function Orchestrated(t: Tables, e: Envelope, completes: bool): (Tables, Outcome) {
    var row := Row(e.event, RecoveryGroup);
    if row in t.rows then (t, SkippedDuplicate)
    else if !completes then (t, Raised)
    else (t.(rows := t.rows + {row}, effects := t.effects + [e.event]), Processed)
  }

  /** One orchestration of the event's call for a handled event; otherwise neither cases nor events change. */
  ghost predicate OrchestratedOnce(o: Orchestrator.IntelligentRecoveryOrchestrator, cases: Orchestrator.Store,
                                   told: seq<Orchestrator.Event>, c: Orchestrator.Call, r: Outcome)
    reads o
  {
    if r == Processed then
      && o.store == Orchestrator.After(o.rules, o.config, cases, c)
      && o.outbox == told + Orchestrator.Events(o.rules, o.config, cases, c)
    else o.store == cases && o.outbox == told
  }

  class RecoveryConsumer {
    const broker: InMemoryEventBroker
    const decode: string -> Decoded
    const orchestrator: Orchestrator.IntelligentRecoveryOrchestrator

    constructor (broker: InMemoryEventBroker, decode: string -> Decoded,
                 orchestrator: Orchestrator.IntelligentRecoveryOrchestrator)
      requires broker.Valid()
      modifies broker
      ensures this.broker == broker && this.decode == decode && this.orchestrator == orchestrator && broker.Valid()
      ensures broker.Now() == AfterRegister(old(broker.Now()), TOPIC, RECOVERY_GROUP)
    {
      this.broker, this.decode, this.orchestrator := broker, decode, orchestrator;
      new;
      broker.RegisterConsumerGroup(TOPIC, RECOVERY_GROUP);
    }

    /** `c` is the orchestration the event asks for, with the plan and the clock readings it will meet. */
    method HandlePaymentFailed(db: Database, e: Envelope, c: Orchestrator.Call, completes: bool) returns (r: Outcome)
      modifies db, orchestrator
      ensures (db.Now(), r) == Orchestrated(old(db.Now()), e, completes)
      ensures OrchestratedOnce(orchestrator, old(orchestrator.store), old(orchestrator.outbox), c, r)
      ensures orchestrator.store == (if r == Processed then
                                       Orchestrator.After(orchestrator.rules, orchestrator.config,
                                                          old(orchestrator.store), c)
                                     else old(orchestrator.store))
      ensures orchestrator.outbox == old(orchestrator.outbox)
                                     + (if r == Processed then
                                          Orchestrator.Events(orchestrator.rules, orchestrator.config,
                                                              old(orchestrator.store), c)
                                        else [])
    {
      var row := Row(e.event, RecoveryGroup);
      if row in db.rows {
        return SkippedDuplicate;
      }
      var rows := db.rows;
      db.rows := db.rows + {row};
      if !completes {
        db.rows := rows;
        return Raised;
      }
      var _ := orchestrator.OrchestrateFailure(c);
      db.effects := db.effects + [e.event];
      r := Processed;
    }

    method ProcessNext(db: Database, calls: Envelope -> Orchestrator.Call, completes: bool)
      returns (r: Outcome, ghost m: Option<Message>)
      requires broker.Valid()
      modifies broker, db, orchestrator
      ensures broker.Valid()
      ensures Consumption(broker.Now(), db.Now(), r, m) ==
              Consumed(old(broker.Now()), old(db.Now()), TOPIC, RECOVERY_GROUP, PAYMENT_FAILED, decode,
                       (t, e) => Orchestrated(t, e, completes))
      ensures r in {NothingWaiting, Raised} ==>
                && db.Now() == old(db.Now())
                && orchestrator.store == old(orchestrator.store) && orchestrator.outbox == old(orchestrator.outbox)
      ensures r in {Processed, SkippedDuplicate} ==>
                && m.Some? && Parsed(m.value, decode).Some?
                && (db.Now(), r) == Orchestrated(old(db.Now()), Parsed(m.value, decode).value, completes)
                && OrchestratedOnce(orchestrator, old(orchestrator.store), old(orchestrator.outbox),
                             calls(Parsed(m.value, decode).value), r)
                && Row(Parsed(m.value, decode).value.event, RecoveryGroup) in db.Now().rows
    {
      hide Line, Lead, Skipped, AfterPoll, AfterCommit;
      var next := NextRelevant(broker, TOPIC, RECOVERY_GROUP, PAYMENT_FAILED, decode);
      m := next;
      if next.None? {
        return NothingWaiting, m;
      }
      var d := decode(next.value.body.value);
      if d.NotJson? || d.envelope.None? {
        return Raised, m;
      }
      r := HandlePaymentFailed(db, d.envelope.value, calls(d.envelope.value), completes);
      if r.Raised? {
        return;
      }
      broker.Commit(RECOVERY_GROUP, next.value);
    }
  }

  // ---- the handlers are runs of the protocol ---------------------------------------------------

  function TablesOf(x: World): Tables {
    Tables(x.rows, x.notes, x.effects)
  }

  /** An uninterrupted handler does to the tables what its session's steps do in the protocol, and fails where
      they fail. */
  lemma NotificationHandlerIsARun(x: World, w: SessionId, e: Envelope, noteOf: EventId -> NoteId)
    requires StageOf(x, w).Idle? && noteOf(e.event) == e.note
    ensures var run := SoloNotification(x, w, e.event, e.note);
            && IsRun(x, run, noteOf)
            && TablesOf(Exec(x, run, noteOf)) == Notified(TablesOf(x), e).0
  {
    NotificationCompletes(x, w, e.event, noteOf);
    assert x.rows + {Row(e.event, NotificationGroup)} == x.rows || Row(e.event, NotificationGroup) !in x.rows;
  }

  lemma RecoveryHandlerIsARun(x: World, w: SessionId, e: Envelope, completes: bool, noteOf: EventId -> NoteId)
    requires StageOf(x, w).Idle? && !Blocked(x, w, e.event)
    ensures var run := SoloRecovery(x, w, e.event, completes);
            && IsRun(x, run, noteOf)
            && TablesOf(Exec(x, run, noteOf)) == Orchestrated(TablesOf(x), e, completes).0
  {
    RecoveryCompletes(x, w, e.event, completes, noteOf);
    assert x.rows + {Row(e.event, RecoveryGroup)} == x.rows || Row(e.event, RecoveryGroup) !in x.rows;
  }
}
