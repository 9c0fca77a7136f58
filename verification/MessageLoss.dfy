/**
 * Which messages a consumer of the in-memory broker loses: polling takes a message from the queue at once
 * (app/events/broker.py:141-148), but only a handled one is committed
 * (app/consumers/notification_consumer.py:41-62, app/consumers/recovery_consumer.py:47-69).
 */
module MessageLoss {
  import opened RecoveryTypes
  import opened Broker
  import opened BrokerDelivery
  import opened Consumers
  import ConsumerProtocol

  predicate Acknowledged(s: State, topic: string, group: string, m: Message) {
    QueueKey(topic, group) in s.committed && s.committed[QueueKey(topic, group)] == m.offset
  }

  /** Neither waiting any more nor acknowledged. */
  predicate Lost(s: State, topic: string, group: string, m: Message) {
    m !in Line(s, topic, group) && !Acknowledged(s, topic, group, m)
  }

  type Handler = (Tables, Envelope) -> (Tables, Outcome)

  /** The message does not parse, or its handler raises: what can be told before it is polled. */
  predicate Rejected(t: Tables, m: Message, decode: string -> Decoded, handler: Handler) {
    match Parsed(m, decode)
    case None => true
    case Some(e) => handler(t, e).1 == Raised
  }

  /** Nobody has committed a message of the group's queue that the group had not been handed. */
  ghost predicate Honest(calls: seq<Call>, topic: string, group: string) {
    forall i :: 0 <= i < |calls| && calls[i].CommitCall?
                && QueueKey(calls[i].m.topic, calls[i].group) == QueueKey(topic, group) ==>
      calls[i].m in Delivered(calls[..i], topic, group)
  }

  /** The consumers' own names qualify for everything below. */
  lemma ConsumerNames()
    ensures Plain(TOPIC) && Plain(NOTIFICATION_GROUP) && Plain(RECOVERY_GROUP)
  {
    assert |TOPIC| == 14 && |NOTIFICATION_GROUP| == 22 && |RECOVERY_GROUP| == 18;
  }

  // ---- where a group stands in its topic's log --------------------------------------------------

  lemma LogSplits(calls: seq<Call>, topic: string, group: string)
    requires Plain(topic) && Plain(group)
    ensures Delivered(calls, topic, group) + Line(Run(calls), topic, group) == LogOf(Run(calls), topic)
    ensures InOrder(Delivered(calls, topic, group) + Line(Run(calls), topic, group))
    ensures forall m :: m in Line(Run(calls), topic, group) ==> m.topic == topic
  {
    PlainNamesAreAlone(calls, topic, group);
    RunFaithful(calls, topic, group);
    LogIsHistory(calls, topic);
  }

  lemma {:induction false} AcknowledgedWasHanded(calls: seq<Call>, topic: string, group: string)
    requires Honest(calls, topic, group)
    ensures QueueKey(topic, group) in Run(calls).committed ==>
              exists m :: m in Delivered(calls, topic, group) && Acknowledged(Run(calls), topic, group, m)
  {
    hide Step, Handed;
    if calls != [] {
      var before, c := calls[..|calls| - 1], calls[|calls| - 1];
      assert calls == before + [c];
      HonestPrefix(before, c, topic, group);
      AcknowledgedWasHanded(before, topic, group);
      CommitsAfter(Run(before), c, topic, group);
      assert Delivered(before, topic, group) <= Delivered(calls, topic, group);
      if QueueKey(topic, group) in Run(calls).committed {
        if c.CommitCall? && QueueKey(c.m.topic, c.group) == QueueKey(topic, group) {
          assert c.m in Delivered(calls[..|calls| - 1], topic, group);
          assert Acknowledged(Run(calls), topic, group, c.m);
        } else {
          var m :| m in Delivered(before, topic, group) && Acknowledged(Run(before), topic, group, m);
          assert Acknowledged(Run(calls), topic, group, m);
        }
      }
    }
  }

  lemma HonestPrefix(before: seq<Call>, c: Call, topic: string, group: string)
    requires Honest(before + [c], topic, group)
    ensures Honest(before, topic, group)
  {
    var calls := before + [c];
    forall i | 0 <= i < |before| && before[i].CommitCall?
               && QueueKey(before[i].m.topic, before[i].group) == QueueKey(topic, group)
      ensures before[i].m in Delivered(before[..i], topic, group)
    {
      assert calls[i] == before[i] && calls[..i] == before[..i];
    }
  }

  lemma CommitsAfter(s: State, c: Call, topic: string, group: string)
    ensures if c.CommitCall? && QueueKey(c.m.topic, c.group) == QueueKey(topic, group) then
              Acknowledged(Step(s, c), topic, group, c.m)
            else
              && (QueueKey(topic, group) in Step(s, c).committed <==> QueueKey(topic, group) in s.committed)
              && forall m :: Acknowledged(Step(s, c), topic, group, m) <==> Acknowledged(s, topic, group, m)
  {
  }

  /** No waiting message has been acknowledged yet. */
  lemma WaitingIsUnacknowledged(calls: seq<Call>, topic: string, group: string, m: Message)
    requires Plain(topic) && Plain(group) && Honest(calls, topic, group)
    requires m in Line(Run(calls), topic, group)
    ensures !Acknowledged(Run(calls), topic, group, m)
  {
    LogSplits(calls, topic, group);
    AcknowledgedWasHanded(calls, topic, group);
    if Acknowledged(Run(calls), topic, group, m) {
      var d :| d in Delivered(calls, topic, group) && Acknowledged(Run(calls), topic, group, d);
      Earlier(Delivered(calls, topic, group), Line(Run(calls), topic, group), d, m);
    }
  }

  lemma Earlier(first: seq<Message>, rest: seq<Message>, d: Message, m: Message)
    requires InOrder(first + rest) && d in first && m in rest
    ensures d.offset < m.offset
  {
    var i :| 0 <= i < |first| && first[i] == d;
    var j :| 0 <= j < |rest| && rest[j] == m;
    assert (first + rest)[i] == d && (first + rest)[|first| + j] == m;
  }

  // ---- one poll of a consumer ----------------------------------------------------------------------

  /** What polling past `k` messages and taking the next leaves waiting, and which offset is committed. */
  lemma TakenLine(s: State, topic: string, group: string, k: nat)
    requires k < |Line(s, topic, group)|
    requires forall m :: m in Line(s, topic, group) ==> m.topic == topic
    ensures var after := AfterPoll(Skipped(s, topic, group, k), topic, group);
            && Line(after, topic, group) == Line(s, topic, group)[k + 1..]
            && forall m :: Acknowledged(after, topic, group, m) <==>
                 if k == 0 then Acknowledged(s, topic, group, m) else m.offset == Line(s, topic, group)[k - 1].offset
  {
    SkippedLine(s, topic, group, k);
    PollLine(Skipped(s, topic, group, k), topic, group);
    var line := Line(s, topic, group);
    assert line[k..][1..] == line[k + 1..];
    assert AfterPoll(Skipped(s, topic, group, k), topic, group).committed == Skipped(s, topic, group, k).committed;
    if k > 0 {
      assert line[..k][k - 1] == line[k - 1];
    }
  }

  /**
   * Which polled messages are lost. In every history in which commits name what was handed over: the message a
   * consumer polls next is afterwards neither waiting nor acknowledged exactly when it is rejected.
   */
  lemma LostIffRejected(calls: seq<Call>, t: Tables, topic: string, group: string, wanted: string,
                        decode: string -> Decoded, handler: Handler)
    requires Plain(topic) && Plain(group) && Honest(calls, topic, group)
    ensures var c := Consumed(Run(calls), t, topic, group, wanted, decode, handler);
            c.polled.Some? ==>
              (Lost(c.state, topic, group, c.polled.value) <==> Rejected(t, c.polled.value, decode, handler))
  {
    hide Skipped, AfterPoll, AfterCommit, Line, Lost, Acknowledged;
    var s := Run(calls);
    var line := Line(s, topic, group);
    var k := Lead(line, wanted, decode);
    if k < |line| {
      var polled := AfterPoll(Skipped(s, topic, group, k), topic, group);
      PolledIsLost(calls, topic, group, k);
      CommitAcknowledges(polled, topic, group, line[k]);
    }
  }

  lemma PolledIsLost(calls: seq<Call>, topic: string, group: string, k: nat)
    requires Plain(topic) && Plain(group) && Honest(calls, topic, group)
    requires k < |Line(Run(calls), topic, group)|
    ensures var m := Line(Run(calls), topic, group)[k];
            && Lost(AfterPoll(Skipped(Run(calls), topic, group, k), topic, group), topic, group, m)
            && m.topic == topic
  {
    hide Skipped, AfterPoll, Line, Acknowledged;
    var line := Line(Run(calls), topic, group);
    LogSplits(calls, topic, group);
    TakenLine(Run(calls), topic, group, k);
    WaitingIsUnacknowledged(calls, topic, group, line[k]);
    LineInOrder(Delivered(calls, topic, group), line, k);
  }

  lemma CommitAcknowledges(s: State, topic: string, group: string, m: Message)
    requires m.topic == topic
    ensures Acknowledged(AfterCommit(s, group, m), topic, group, m)
    ensures !Lost(AfterCommit(s, group, m), topic, group, m)
  {
  }

  lemma LineInOrder(first: seq<Message>, line: seq<Message>, k: nat)
    requires InOrder(first + line) && k < |line|
    ensures line[k] !in line[k + 1..]
    ensures k > 0 ==> line[k - 1].offset < line[k].offset
  {
    assert forall i :: 0 <= i < |line| ==> (first + line)[|first| + i] == line[i];
    forall j | k < j < |line| ensures line[j] != line[k] {
      assert (first + line)[|first| + k].offset < (first + line)[|first| + j].offset;
    }
    if k > 0 {
      assert (first + line)[|first| + (k - 1)].offset < (first + line)[|first| + k].offset;
    }
  }

  /** For notifications: exactly when the event does not parse, or its row is missing and its notification id taken. */
  lemma NotificationLostIff(calls: seq<Call>, t: Tables, topic: string, group: string, wanted: string,
                            decode: string -> Decoded)
    requires Plain(topic) && Plain(group) && Honest(calls, topic, group)
    ensures var c := Consumed(Run(calls), t, topic, group, wanted, decode, Notified);
            c.polled.Some? ==>
              (Lost(c.state, topic, group, c.polled.value) <==>
               match Parsed(c.polled.value, decode)
               case None => true
               case Some(e) =>
                 && ConsumerProtocol.Row(e.event, ConsumerProtocol.NotificationGroup) !in t.rows
                 && exists i :: 0 <= i < |t.notes| && t.notes[i].id == e.note)
  {
    hide Lost, Run;
    LostIffRejected(calls, t, topic, group, wanted, decode, Notified);
  }

  /** For payment failures: exactly when the event does not parse, or its row is missing and the orchestration
      raises. */
  lemma RecoveryLostIff(calls: seq<Call>, t: Tables, topic: string, group: string, wanted: string,
                        decode: string -> Decoded, completes: bool)
    requires Plain(topic) && Plain(group) && Honest(calls, topic, group)
    ensures var c := Consumed(Run(calls), t, topic, group, wanted, decode, (t, e) => Orchestrated(t, e, completes));
            c.polled.Some? ==>
              (Lost(c.state, topic, group, c.polled.value) <==>
               match Parsed(c.polled.value, decode)
               case None => true
               case Some(e) =>
                 ConsumerProtocol.Row(e.event, ConsumerProtocol.RecoveryGroup) !in t.rows && !completes)
  {
    hide Lost, Run, Consumed;
    var handler: Handler := (t, e) => Orchestrated(t, e, completes);
    assert forall e :: handler(t, e) == Orchestrated(t, e, completes);
    LostIffRejected(calls, t, topic, group, wanted, decode, handler);
  }

  // ---- lost for good -----------------------------------------------------------------------------

  /** The broker calls behind passing over `k` messages. */
  function SkipCalls(s: State, topic: string, group: string, k: nat): seq<Call>
    decreases k
  {
    if k == 0 || Polled(s, topic, group).None? then []
    else
      var m := Polled(s, topic, group).value;
      [GetCall(topic, group)] + [CommitCall(group, m)]
      + SkipCalls(AfterCommit(AfterPoll(s, topic, group), group, m), topic, group, k - 1)
  }

  lemma {:induction false} SkippingIsCalls(calls: seq<Call>, topic: string, group: string, k: nat)
    ensures Run(calls + SkipCalls(Run(calls), topic, group, k)) == Skipped(Run(calls), topic, group, k)
    decreases k
  {
    hide AfterPoll, AfterCommit, Polled;
    var s := Run(calls);
    if k == 0 || Polled(s, topic, group).None? {
      assert calls + [] == calls;
    } else {
      var m := Polled(s, topic, group).value;
      var one := calls + [GetCall(topic, group)] + [CommitCall(group, m)];
      OneSkip(calls, topic, group, m);
      SkippingIsCalls(one, topic, group, k - 1);
      var rest := SkipCalls(Run(one), topic, group, k - 1);
      assert calls + ([GetCall(topic, group)] + [CommitCall(group, m)] + rest) == one + rest;
    }
  }

  lemma OneSkip(calls: seq<Call>, topic: string, group: string, m: Message)
    ensures Run(calls + [GetCall(topic, group)] + [CommitCall(group, m)]) ==
            AfterCommit(AfterPoll(Run(calls), topic, group), group, m)
  {
    RunSnoc(calls, GetCall(topic, group));
    RunSnoc(calls + [GetCall(topic, group)], CommitCall(group, m));
  }

  // ---- the consumers' own histories -----------------------------------------------------------------

  lemma HonestSnoc(calls: seq<Call>, c: Call, topic: string, group: string)
    requires Honest(calls, topic, group)
    requires c.CommitCall? && QueueKey(c.m.topic, c.group) == QueueKey(topic, group) ==>
               c.m in Delivered(calls, topic, group)
    ensures Honest(calls + [c], topic, group)
  {
    forall i | 0 <= i < |calls + [c]| && (calls + [c])[i].CommitCall?
               && QueueKey((calls + [c])[i].m.topic, (calls + [c])[i].group) == QueueKey(topic, group)
      ensures (calls + [c])[i].m in Delivered((calls + [c])[..i], topic, group)
    {
      if i < |calls| {
        assert (calls + [c])[i] == calls[i] && (calls + [c])[..i] == calls[..i];
      } else {
        assert (calls + [c])[..i] == calls;
      }
    }
  }

  /** Committing what was just polled is honest towards every group. */
  lemma PollAndCommitIsHonest(calls: seq<Call>, topic: string, group: string, m: Message, t: string, g: string)
    requires Plain(topic) && Plain(group) && Polled(Run(calls), topic, group) == Some(m)
    requires Plain(t) && Plain(g) && Honest(calls, t, g)
    ensures Honest(calls + [GetCall(topic, group)], t, g)
    ensures Honest(calls + [GetCall(topic, group)] + [CommitCall(group, m)], t, g)
  {
    hide Honest, Run, Delivered, AfterPoll;
    var polled := calls + [GetCall(topic, group)];
    HonestSnoc(calls, GetCall(topic, group), t, g);
    LogSplits(calls, topic, group);
    PollLine(Run(calls), topic, group);
    DeliveredSnoc(calls, GetCall(topic, group), topic, group);
    PlainNamesStandApart(t, g, topic, group);
    HonestSnoc(polled, CommitCall(group, m), t, g);
  }

  lemma {:induction false} SkippingIsHonest(calls: seq<Call>, topic: string, group: string, k: nat, t: string,
                                            g: string)
    requires Plain(topic) && Plain(group) && Plain(t) && Plain(g) && Honest(calls, t, g)
    ensures Honest(calls + SkipCalls(Run(calls), topic, group, k), t, g)
    decreases k
  {
    hide AfterPoll, AfterCommit, Polled, Honest;
    var s := Run(calls);
    if k == 0 || Polled(s, topic, group).None? {
      assert calls + [] == calls;
    } else {
      var m := Polled(s, topic, group).value;
      var one := calls + [GetCall(topic, group)] + [CommitCall(group, m)];
      OneSkip(calls, topic, group, m);
      PollAndCommitIsHonest(calls, topic, group, m, t, g);
      SkippingIsHonest(one, topic, group, k - 1, t, g);
      var rest := SkipCalls(Run(one), topic, group, k - 1);
      assert calls + ([GetCall(topic, group)] + [CommitCall(group, m)] + rest) == one + rest;
    }
  }

  /** What a consumer does keeps every history honest, towards its own group and any other. */
  lemma ConsumingIsHonest(calls: seq<Call>, tables: Tables, topic: string, group: string, wanted: string,
                          decode: string -> Decoded, handler: Handler, t: string, g: string)
    returns (after: seq<Call>)
    requires Plain(topic) && Plain(group) && Plain(t) && Plain(g) && Honest(calls, t, g)
    ensures calls <= after && Honest(after, t, g)
    ensures Run(after) == Consumed(Run(calls), tables, topic, group, wanted, decode, handler).state
  {
    hide Honest, AfterPoll, AfterCommit, Polled, Skipped, Line;
    var s := Run(calls);
    var line := Line(s, topic, group);
    var k := Lead(line, wanted, decode);
    var skipped := calls + SkipCalls(s, topic, group, k);
    SkippingIsCalls(calls, topic, group, k);
    SkippingIsHonest(calls, topic, group, k, t, g);
    after := skipped + [GetCall(topic, group)];
    RunSnoc(skipped, GetCall(topic, group));
    HonestSnoc(skipped, GetCall(topic, group), t, g);
    var c := Consumed(s, tables, topic, group, wanted, decode, handler);
    if k < |line| && c.state != Run(after) {
      SkippedLine(s, topic, group, k);
      PollLine(Run(skipped), topic, group);
      PollAndCommitIsHonest(skipped, topic, group, line[k], t, g);
      RunSnoc(after, CommitCall(group, line[k]));
      after := after + [CommitCall(group, line[k])];
    }
  }

  /**
   * A lost message stays lost: the poll is a continuation `after` of the history in which the group has been
   * handed `m`, and no later history hands it over again or has it waiting.
   */
  lemma LostForGood(calls: seq<Call>, t: Tables, topic: string, group: string, wanted: string,
                    decode: string -> Decoded, handler: Handler, m: Message) returns (after: seq<Call>)
    requires Plain(topic) && Plain(group)
    requires var c := Consumed(Run(calls), t, topic, group, wanted, decode, handler);
             c.polled == Some(m) && Rejected(t, m, decode, handler)
    ensures calls <= after
    ensures Run(after) == Consumed(Run(calls), t, topic, group, wanted, decode, handler).state
    ensures m in Delivered(after, topic, group)
    ensures forall more :: && Delivered(after, topic, group) <= Delivered(after + more, topic, group)
                           && m !in Delivered(after + more, topic, group)[|Delivered(after, topic, group)|..]
                           && m !in Line(Run(after + more), topic, group)
  {
    var s := Run(calls);
    var k := Lead(Line(s, topic, group), wanted, decode);
    var skipped := calls + SkipCalls(s, topic, group, k);
    SkippingIsCalls(calls, topic, group, k);
    after := skipped + [GetCall(topic, group)];
    RunSnoc(skipped, GetCall(topic, group));
    DeliveredSnoc(skipped, GetCall(topic, group), topic, group);
    SkippedLine(s, topic, group, k);
    PollLine(Run(skipped), topic, group);
    assert Delivered(after, topic, group) == Delivered(skipped, topic, group) + [m];
    forall more
      ensures Delivered(after, topic, group) <= Delivered(after + more, topic, group)
      ensures m !in Delivered(after + more, topic, group)[|Delivered(after, topic, group)|..]
      ensures m !in Line(Run(after + more), topic, group)
    {
      NeverAgain(after, more, topic, group, m);
      GoneFromLine(after + more, topic, group, m);
    }
  }

  lemma GoneFromLine(calls: seq<Call>, topic: string, group: string, m: Message)
    requires Plain(topic) && Plain(group) && m in Delivered(calls, topic, group)
    ensures m !in Line(Run(calls), topic, group)
  {
    LogSplits(calls, topic, group);
    if m in Line(Run(calls), topic, group) {
      Earlier(Delivered(calls, topic, group), Line(Run(calls), topic, group), m, m);
    }
  }

  /** It happens: one publication that is no JSON, one poll. */
  lemma MalformedIsLost(t: Tables, topic: string, group: string, wanted: string, decode: string -> Decoded,
                        handler: Handler, body: Body)
    requires Plain(topic) && Plain(group) && decode(body.value).NotJson?
    ensures var calls := [PublishCall(topic, body)];
            var c := Consumed(Run(calls), t, topic, group, wanted, decode, handler);
            && c.polled.Some? && c.polled.value.body == body && c.outcome == Raised
            && Lost(c.state, topic, group, c.polled.value)
  {
    var calls := [PublishCall(topic, body)];
    assert [] + [PublishCall(topic, body)] == calls;
    RunSnoc([], PublishCall(topic, body));
    DeliveredSnoc([], PublishCall(topic, body), topic, group);
    LogSplits(calls, topic, group);
    assert LogOf(Run(calls), topic) == [Message(topic, body, 1)];
    assert Line(Run(calls), topic, group) == [Message(topic, body, 1)];
    LostIffRejected(calls, t, topic, group, wanted, decode, handler);
  }
}
