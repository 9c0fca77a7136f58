/** What every consumer group sees over any history of broker calls (app/events/broker.py:90-152). */
module BrokerDelivery {
  import opened RecoveryTypes
  import opened Broker

  datatype Call =
    | RegisterCall(topic: string, group: string)
    | PublishCall(topic: string, body: Body)
    | GetCall(topic: string, group: string)
    | CommitCall(group: string, m: Message)

  function Step(s: State, c: Call): State {
    match c
    case RegisterCall(t, g) => AfterRegister(s, t, g)
    case PublishCall(t, b) => AfterPublish(s, t, b)
    case GetCall(t, g) => AfterPoll(s, t, g)
    case CommitCall(g, m) => AfterCommit(s, g, m)
  }

  /** The broker after a history of calls, latest last. */
  function Run(calls: seq<Call>): State {
    if calls == [] then EMPTY else Step(Run(calls[..|calls| - 1]), calls[|calls| - 1])
  }

  /** What one call hands to the group's consumer. */
  function Handed(s: State, c: Call, topic: string, group: string): seq<Message> {
    if c == GetCall(topic, group) && Polled(s, topic, group).Some? then [Polled(s, topic, group).value] else []
  }

  function Delivered(calls: seq<Call>, topic: string, group: string): seq<Message> {
    if calls == [] then []
    else
      var before := calls[..|calls| - 1];
      Delivered(before, topic, group) + Handed(Run(before), calls[|calls| - 1], topic, group)
  }

  /** What one call asks the broker to carry on a topic. */
  function Asked(c: Call, topic: string): seq<Body> {
    if c.PublishCall? && c.topic == topic then [c.body] else []
  }

  /** The bodies producers published to a topic, in order: what the broker is asked to carry. */
  function Published(calls: seq<Call>, topic: string): seq<Body> {
    if calls == [] then []
    else Published(calls[..|calls| - 1], topic) + Asked(calls[|calls| - 1], topic)
  }

  function Bodies(ms: seq<Message>): (r: seq<Body>)
    ensures |r| == |ms| && forall i :: 0 <= i < |ms| ==> r[i] == ms[i].body
  {
    seq(|ms|, i requires 0 <= i < |ms| => ms[i].body)
  }

  predicate Names(c: Call, topic: string, group: string) {
    (c.RegisterCall? || c.GetCall?) && c.topic == topic && c.group == group
  }

  /** No group of another topic has been given the same queue name. */
  ghost predicate Alone(calls: seq<Call>, topic: string, group: string) {
    forall t, g, i :: 0 <= i < |calls| && Names(calls[i], t, g) && QueueKey(t, g) == QueueKey(topic, group) ==>
      t == topic
  }

  // ---- the log ------------------------------------------------------------------

  ghost predicate InOrder(ms: seq<Message>) {
    forall i, j :: 0 <= i < j < |ms| ==> ms[i].offset < ms[j].offset
  }

  ghost predicate Within(ms: seq<Message>, topic: string, bound: nat) {
    forall m :: m in ms ==> m.topic == topic && m.offset <= bound
  }

  /** A topic's log is exactly what was published to it, numbered in strictly increasing order. */
  lemma {:induction false} LogIsHistory(calls: seq<Call>, topic: string)
    ensures Bodies(LogOf(Run(calls), topic)) == Published(calls, topic)
    ensures InOrder(LogOf(Run(calls), topic))
    ensures Within(LogOf(Run(calls), topic), topic, Run(calls).counter)
  {
    if calls != [] {
      var before, c := calls[..|calls| - 1], calls[|calls| - 1];
      LogIsHistory(before, topic);
      LogStep(Run(before), c, topic);
    }
  }

  lemma LogStep(s: State, c: Call, topic: string)
    requires InOrder(LogOf(s, topic)) && Within(LogOf(s, topic), topic, s.counter)
    ensures InOrder(LogOf(Step(s, c), topic)) && Within(LogOf(Step(s, c), topic), topic, Step(s, c).counter)
    ensures Bodies(LogOf(Step(s, c), topic)) ==
            Bodies(LogOf(s, topic)) + Asked(c, topic)
  {
    if c.PublishCall? && c.topic == topic {
      var m := Message(topic, c.body, s.counter + 1);
      assert LogOf(Step(s, c), topic) == LogOf(s, topic) + [m];
    } else {
      assert LogOf(Step(s, c), topic) == LogOf(s, topic);
    }
  }

  // ---- one group's queue ------------------------------------------------------------

  /** No registered group of another topic shares this group's queue. */
  ghost predicate Unshared(s: State, topic: string, group: string) {
    forall t, g :: Registered(s, t, g) && QueueKey(t, g) == QueueKey(topic, group) ==> t == topic
  }

  /** Handed over already, then waiting: together the whole log. */
  ghost predicate Faithful(s: State, delivered: seq<Message>, topic: string, group: string) {
    if Registered(s, topic, group) then
      delivered + QueueAt(s, QueueKey(topic, group)) == LogOf(s, topic)
    else
      delivered == [] && QueueAt(s, QueueKey(topic, group)) == []
  }

  lemma GroupsGrowByName(s: State, c: Call, t: string, g: string)
    ensures Registered(Step(s, c), t, g) <==> Registered(s, t, g) || Names(c, t, g)
  {
  }

  lemma {:induction false} RegisteredByName(calls: seq<Call>, topic: string, group: string)
    requires Alone(calls, topic, group)
    ensures Unshared(Run(calls), topic, group)
  {
    if calls != [] {
      var before, c := calls[..|calls| - 1], calls[|calls| - 1];
      assert forall i :: 0 <= i < |before| ==> before[i] == calls[i];
      RegisteredByName(before, topic, group);
      forall t, g | Registered(Step(Run(before), c), t, g) && QueueKey(t, g) == QueueKey(topic, group)
        ensures t == topic
      {
        GroupsGrowByName(Run(before), c, t, g);
        assert calls[|calls| - 1] == c;
      }
    }
  }

  lemma RegisterElsewhere(s: State, t: string, g: string, topic: string, group: string)
    requires (t, g) != (topic, group) && (QueueKey(t, g) == QueueKey(topic, group) ==> t == topic)
    ensures QueueAt(AfterRegister(s, t, g), QueueKey(topic, group)) == QueueAt(s, QueueKey(topic, group))
    ensures QueueAt(AfterPoll(s, t, g), QueueKey(topic, group)) == QueueAt(s, QueueKey(topic, group))
  {
    if t == topic {
      KeySplits(topic, group, g);
    }
  }

  lemma PublishReaches(s: State, t: string, b: Body, topic: string, group: string)
    requires Unshared(s, topic, group)
    ensures QueueAt(AfterPublish(s, t, b), QueueKey(topic, group)) ==
            QueueAt(s, QueueKey(topic, group)) +
            if t == topic && Registered(s, topic, group) then [Message(t, b, s.counter + 1)] else []
  {
    var m, key := Message(t, b, s.counter + 1), QueueKey(topic, group);
    var keys := KeysOf(t, GroupsOf(s, t));
    BroadcastAt(s.queues, keys, m, key);
    if key in keys {
      var g :| g in GroupsOf(s, t) && QueueKey(t, g) == key;
      assert Registered(s, t, g);
      KeySplits(topic, group, g);
    }
  }

  lemma StepFaithful(s: State, c: Call, delivered: seq<Message>, topic: string, group: string)
    requires Unshared(s, topic, group) && Unshared(Step(s, c), topic, group)
    requires Faithful(s, delivered, topic, group)
    ensures Faithful(Step(s, c), delivered + Handed(s, c, topic, group), topic, group)
  {
    hide Unshared, AfterRegister, AfterPoll, AfterCommit, QueueAt, Polled, Faithful;
    assert delivered + [] == delivered;
    match c
    case PublishCall(t, b) =>
      PublishReaches(s, t, b, topic, group);
      PublishFaithful(s, t, b, delivered, topic, group);
    case CommitCall(g, m) =>
      CommitFaithful(s, g, m, delivered, topic, group);
    case RegisterCall(t, g) =>
      if (t, g) == (topic, group) {
        RegisterFaithful(s, delivered, topic, group);
      } else {
        OthersFaithful(s, c, t, g, delivered, topic, group);
      }
    case GetCall(t, g) =>
      if (t, g) == (topic, group) {
        PollFaithful(s, delivered, topic, group);
      } else {
        OthersFaithful(s, c, t, g, delivered, topic, group);
      }
  }

  lemma CommitFaithful(s: State, g: string, m: Message, delivered: seq<Message>, topic: string, group: string)
    requires Faithful(s, delivered, topic, group)
    ensures Faithful(AfterCommit(s, g, m), delivered, topic, group)
  {
  }

  lemma RegisterFaithful(s: State, delivered: seq<Message>, topic: string, group: string)
    requires Faithful(s, delivered, topic, group)
    ensures Faithful(AfterRegister(s, topic, group), delivered, topic, group)
  {
  }

  lemma OthersFaithful(s: State, c: Call, t: string, g: string, delivered: seq<Message>, topic: string, group: string)
    requires c == RegisterCall(t, g) || c == GetCall(t, g)
    requires (t, g) != (topic, group) && Unshared(Step(s, c), topic, group)
    requires Faithful(s, delivered, topic, group)
    ensures Faithful(Step(s, c), delivered, topic, group)
  {
    GroupsGrowByName(s, c, topic, group);
    GroupsGrowByName(s, c, t, g);
    RegisterElsewhere(s, t, g, topic, group);
  }

  lemma PublishFaithful(s: State, t: string, b: Body, delivered: seq<Message>, topic: string, group: string)
    requires Faithful(s, delivered, topic, group)
    requires QueueAt(AfterPublish(s, t, b), QueueKey(topic, group)) ==
             QueueAt(s, QueueKey(topic, group)) +
             if t == topic && Registered(s, topic, group) then [Message(t, b, s.counter + 1)] else []
    ensures Faithful(AfterPublish(s, t, b), delivered, topic, group)
  {
    var q := QueueAt(s, QueueKey(topic, group));
    if t == topic && Registered(s, topic, group) {
      var m := Message(t, b, s.counter + 1);
      assert delivered + (q + [m]) == (delivered + q) + [m];
    }
  }

  lemma PollFaithful(s: State, delivered: seq<Message>, topic: string, group: string)
    requires Faithful(s, delivered, topic, group)
    ensures Faithful(AfterPoll(s, topic, group), delivered + Handed(s, GetCall(topic, group), topic, group),
                     topic, group)
  {
    var r := AfterRegister(s, topic, group);
    var q := QueueAt(r, QueueKey(topic, group));
    assert delivered + q == LogOf(s, topic);
    if q != [] {
      assert (delivered + [q[0]]) + q[1..] == delivered + q;
    }
  }

  lemma {:induction false} RunFaithful(calls: seq<Call>, topic: string, group: string)
    requires Alone(calls, topic, group)
    ensures Faithful(Run(calls), Delivered(calls, topic, group), topic, group)
  {
    RegisteredByName(calls, topic, group);
    if calls != [] {
      var before, c := calls[..|calls| - 1], calls[|calls| - 1];
      assert forall i :: 0 <= i < |before| ==> before[i] == calls[i];
      assert Alone(before, topic, group);
      RunFaithful(before, topic, group);
      RegisteredByName(before, topic, group);
      StepFaithful(Run(before), c, Delivered(before, topic, group), topic, group);
    }
  }

  // ---- main results -----------------------------------------------------------------------

  /**
   * Every registered group, early or late, is handed the published bodies in order, each exactly once:
   * what it has received followed by what waits is the whole publication history of the topic.
   */
  lemma ExactlyOnceInOrder(calls: seq<Call>, topic: string, group: string)
    requires Alone(calls, topic, group)
    ensures Registered(Run(calls), topic, group) ==>
              Bodies(Delivered(calls, topic, group)) + Bodies(QueueAt(Run(calls), QueueKey(topic, group))) ==
              Published(calls, topic)
    ensures !Registered(Run(calls), topic, group) ==> Delivered(calls, topic, group) == []
    ensures InOrder(Delivered(calls, topic, group))
  {
    RunFaithful(calls, topic, group);
    LogIsHistory(calls, topic);
    if Registered(Run(calls), topic, group) {
      var d, q := Delivered(calls, topic, group), QueueAt(Run(calls), QueueKey(topic, group));
      BodiesJoin(d, q);
      PrefixInOrder(d, q);
    }
  }

  lemma BodiesJoin(a: seq<Message>, b: seq<Message>)
    ensures Bodies(a + b) == Bodies(a) + Bodies(b)
  {
  }

  lemma PrefixInOrder(d: seq<Message>, q: seq<Message>)
    requires InOrder(d + q)
    ensures InOrder(d)
  {
    assert forall i :: 0 <= i < |d| ==> d[i] == (d + q)[i];
  }

  predicate Plain(text: string) {
    ':' !in text
  }

  lemma OnlyColon(topic: string, group: string)
    requires Plain(topic) && Plain(group)
    ensures forall k :: 0 <= k < |QueueKey(topic, group)| && QueueKey(topic, group)[k] == ':' ==> k == |topic|
  {
    forall k | 0 <= k < |QueueKey(topic, group)| && k != |topic| ensures QueueKey(topic, group)[k] != ':' {
      if k < |topic| {
        assert topic[k] in topic;
      } else {
        assert group[k - |topic| - 1] in group;
      }
    }
  }

  /** A queue name with a single colon belongs to one topic and group only, whatever names the others use. */
  lemma PlainNamesStandApart(t: string, g: string, topic: string, group: string)
    requires Plain(topic) && Plain(group)
    ensures QueueKey(t, g) == QueueKey(topic, group) <==> t == topic && g == group
  {
    OnlyColon(topic, group);
    var a, b := QueueKey(t, g), QueueKey(topic, group);
    if a == b {
      assert a[|t|] == ':';
      assert t == a[..|t|] && topic == b[..|topic|];
      KeySplits(topic, group, g);
    }
  }

  /** So for such names, as all of the pipeline's are, the assumption holds of every history. */
  lemma PlainNamesAreAlone(calls: seq<Call>, topic: string, group: string)
    requires Plain(topic) && Plain(group)
    ensures Alone(calls, topic, group)
  {
    forall t, g, i | 0 <= i < |calls| && Names(calls[i], t, g) && QueueKey(t, g) == QueueKey(topic, group)
      ensures t == topic
    {
      PlainNamesStandApart(t, g, topic, group);
    }
  }

  /** Whenever two topics' groups share a queue name, one publication reaches a group of the other topic. */
  lemma SharedQueueMisdelivers(t: string, g: string, topic: string, group: string, body: Body)
    requires t != topic && QueueKey(t, g) == QueueKey(topic, group)
    ensures var calls := [RegisterCall(t, g)] + [RegisterCall(topic, group)] + [PublishCall(t, body)]
                         + [GetCall(topic, group)];
            Published(calls, topic) == [] && Bodies(Delivered(calls, topic, group)) == [body]
  {
    var c0, c1, c2 := RegisterCall(t, g), RegisterCall(topic, group), PublishCall(t, body);
    NothingPublished([c0] + [c1] + [c2] + [GetCall(topic, group)], topic);
    Misdelivery(t, g, topic, group, body);
  }

  lemma Misdelivery(t: string, g: string, topic: string, group: string, body: Body)
    requires t != topic && QueueKey(t, g) == QueueKey(topic, group)
    ensures var calls := [RegisterCall(t, g)] + [RegisterCall(topic, group)] + [PublishCall(t, body)]
                         + [GetCall(topic, group)];
            Bodies(Delivered(calls, topic, group)) == [body]
  {
    var c0, c1, c2 := RegisterCall(t, g), RegisterCall(topic, group), PublishCall(t, body);
    NothingHanded([c0] + [c1] + [c2], topic, group);
    BothRegistered(t, g, topic, group);
    var s2 := Run([c0] + [c1]);
    CollidingPublish(s2, t, g, topic, group, body);
    RunSnoc([c0] + [c1], c2);
    PollAfter([c0] + [c1] + [c2], topic, group, Message(t, body, s2.counter + 1));
  }

  lemma PollAfter(calls: seq<Call>, topic: string, group: string, m: Message)
    requires Delivered(calls, topic, group) == [] && Polled(Run(calls), topic, group) == Some(m)
    ensures Bodies(Delivered(calls + [GetCall(topic, group)], topic, group)) == [m.body]
  {
    DeliveredSnoc(calls, GetCall(topic, group), topic, group);
    assert Delivered(calls + [GetCall(topic, group)], topic, group) == [m];
  }

  lemma {:induction false} NothingPublished(calls: seq<Call>, topic: string)
    requires forall i :: 0 <= i < |calls| ==> !(calls[i].PublishCall? && calls[i].topic == topic)
    ensures Published(calls, topic) == []
  {
    if calls != [] {
      NothingPublished(calls[..|calls| - 1], topic);
    }
  }

  lemma {:induction false} NothingHanded(calls: seq<Call>, topic: string, group: string)
    requires forall i :: 0 <= i < |calls| ==> !calls[i].GetCall?
    ensures Delivered(calls, topic, group) == []
  {
    if calls != [] {
      NothingHanded(calls[..|calls| - 1], topic, group);
    }
  }

  lemma RunSnoc(calls: seq<Call>, c: Call)
    ensures Run(calls + [c]) == Step(Run(calls), c)
  {
    assert (calls + [c])[..|calls + [c]| - 1] == calls;
  }

  lemma DeliveredSnoc(calls: seq<Call>, c: Call, topic: string, group: string)
    ensures Delivered(calls + [c], topic, group) == Delivered(calls, topic, group) + Handed(Run(calls), c, topic, group)
  {
    assert (calls + [c])[..|calls + [c]| - 1] == calls;
  }

  lemma BothRegistered(t: string, g: string, topic: string, group: string)
    requires t != topic && QueueKey(t, g) == QueueKey(topic, group)
    ensures var s := Run([RegisterCall(t, g)] + [RegisterCall(topic, group)]);
            Registered(s, t, g) && Registered(s, topic, group) && QueueAt(s, QueueKey(topic, group)) == []
  {
    var c0, c1 := RegisterCall(t, g), RegisterCall(topic, group);
    assert [] + [c0] == [c0];
    RunSnoc([], c0);
    RunSnoc([c0], c1);
  }

  lemma CollidingPublish(s: State, t: string, g: string, topic: string, group: string, body: Body)
    requires QueueKey(t, g) == QueueKey(topic, group)
    requires Registered(s, t, g) && Registered(s, topic, group) && QueueAt(s, QueueKey(topic, group)) == []
    ensures Polled(AfterPublish(s, t, body), topic, group) == Some(Message(t, body, s.counter + 1))
  {
    var m, key := Message(t, body, s.counter + 1), QueueKey(topic, group);
    assert key in KeysOf(t, GroupsOf(s, t));
    BroadcastAt(s.queues, KeysOf(t, GroupsOf(s, t)), m, key);
    assert QueueAt(AfterPublish(s, t, body), key) == [m];
  }

  // ---- exactly which names are safe ----------------------------------------------------------------

  /** After the history the group, if registered, has got or will get what was published to its topic, and no more. */
  ghost predicate WellServed(calls: seq<Call>, topic: string, group: string) {
    Registered(Run(calls), topic, group) ==>
      Bodies(Delivered(calls, topic, group)) + Bodies(QueueAt(Run(calls), QueueKey(topic, group))) ==
      Published(calls, topic)
  }

  /** A name with a colon can be read as another topic's group. */
  lemma OtherReading(topic: string, group: string) returns (t: string, g: string)
    requires !(Plain(topic) && Plain(group))
    ensures t != topic && QueueKey(t, g) == QueueKey(topic, group)
  {
    if !Plain(topic) {
      var i :| 0 <= i < |topic| && topic[i] == ':';
      t, g := topic[..i], topic[i + 1..] + ":" + group;
      assert topic == topic[..i] + ":" + topic[i + 1..];
      assert t + ":" + g == topic + ":" + group;
    } else {
      var i :| 0 <= i < |group| && group[i] == ':';
      t, g := topic + ":" + group[..i], group[i + 1..];
      assert group == group[..i] + ":" + group[i + 1..];
      assert t + ":" + g == topic + ":" + group;
      assert |t| > |topic|;
    }
  }

  lemma SharedQueueUnserves(t: string, g: string, topic: string, group: string, body: Body) returns (calls: seq<Call>)
    requires t != topic && QueueKey(t, g) == QueueKey(topic, group)
    ensures !WellServed(calls, topic, group)
  {
    calls := [RegisterCall(t, g)] + [RegisterCall(topic, group)] + [PublishCall(t, body)];
    SharedQueueMisdelivers(t, g, topic, group, body);
    RunSnoc(calls, GetCall(topic, group));
    calls := calls + [GetCall(topic, group)];
    GroupsGrowByName(Run(calls[..3]), GetCall(topic, group), topic, group);
    assert calls[..3] == [RegisterCall(t, g)] + [RegisterCall(topic, group)] + [PublishCall(t, body)];
  }

  /** A group is served correctly in every history exactly if neither its topic's name nor its own has a colon. */
  lemma WellServedIffPlain(topic: string, group: string)
    ensures (forall calls :: WellServed(calls, topic, group)) <==> Plain(topic) && Plain(group)
  {
    if Plain(topic) && Plain(group) {
      forall calls ensures WellServed(calls, topic, group) {
        PlainNamesAreAlone(calls, topic, group);
        ExactlyOnceInOrder(calls, topic, group);
      }
    } else {
      var t, g := OtherReading(topic, group);
      var calls := SharedQueueUnserves(t, g, topic, group, Body(None, "", Headers(NoCount, NoStamp, map[])));
    }
  }

  // ---- nothing is handed over twice -----------------------------------------------------------------

  lemma {:induction false} DeliveredGrows(calls: seq<Call>, more: seq<Call>, topic: string, group: string)
    ensures Delivered(calls, topic, group) <= Delivered(calls + more, topic, group)
    decreases |more|
  {
    hide Step, Handed;
    if more == [] {
      assert calls + more == calls;
    } else {
      var n := |more| - 1;
      DeliveredGrows(calls, more[..n], topic, group);
      assert calls + more == (calls + more[..n]) + [more[n]];
      DeliveredSnoc(calls + more[..n], more[n], topic, group);
    }
  }

  /** What a group has been handed once it is never handed again, whatever happens later. */
  lemma NeverAgain(calls: seq<Call>, more: seq<Call>, topic: string, group: string, m: Message)
    requires Plain(topic) && Plain(group) && m in Delivered(calls, topic, group)
    ensures Delivered(calls, topic, group) <= Delivered(calls + more, topic, group)
    ensures m !in Delivered(calls + more, topic, group)[|Delivered(calls, topic, group)|..]
  {
    DeliveredGrows(calls, more, topic, group);
    PlainNamesAreAlone(calls + more, topic, group);
    ExactlyOnceInOrder(calls + more, topic, group);
    NotTwice(Delivered(calls, topic, group), Delivered(calls + more, topic, group), m);
  }

  lemma NotTwice(first: seq<Message>, all: seq<Message>, m: Message)
    requires first <= all && InOrder(all) && m in first
    ensures m !in all[|first|..]
  {
    var i :| 0 <= i < |first| && first[i] == m;
    assert all[i] == m;
    forall j | |first| <= j < |all| ensures all[j] != m {
      assert all[i].offset < all[j].offset;
    }
  }
}
