/** The in-memory event broker: per-topic logs and per-group queues (app/events/broker.py). */
module Broker {
  import opened RecoveryTypes

  datatype CountHeader = NoCount | Count(n: int) | UnreadableCount

  datatype StampHeader = NoStamp | Stamp(t: real) | UnreadableStamp

  /** The headers the pipeline interprets, and all others. */
  datatype Headers = Headers(retryCount: CountHeader, retryAt: StampHeader, other: map<string, string>)

  /** What a producer hands over, and a consumer reads, apart from the broker's own bookkeeping. */
  datatype Body = Body(key: Option<string>, value: string, headers: Headers)

  datatype Message = Message(topic: string, body: Body, offset: nat)

  datatype State = State(
    queues: map<string, seq<Message>>,
    groups: map<string, set<string>>,
    log: map<string, seq<Message>>,
    committed: map<string, nat>,
    counter: nat)

  const EMPTY := State(map[], map[], map[], map[], 0)

  function QueueKey(topic: string, group: string): string {
    topic + ":" + group
  }

  function GroupsOf(s: State, topic: string): set<string> {
    if topic in s.groups then s.groups[topic] else {}
  }

  function LogOf(s: State, topic: string): seq<Message> {
    if topic in s.log then s.log[topic] else []
  }

  predicate Registered(s: State, topic: string, group: string) {
    group in GroupsOf(s, topic)
  }

  function QueueAt(s: State, key: string): seq<Message> {
    if key in s.queues then s.queues[key] else []
  }

  /** A group registering late is given the whole log first. */
  function AfterRegister(s: State, topic: string, group: string): State {
    if Registered(s, topic, group) then s
    else
      var key := QueueKey(topic, group);
      s.(groups := s.groups[topic := GroupsOf(s, topic) + {group}],
         queues := s.queues[key := QueueAt(s, key) + LogOf(s, topic)])
  }

  function KeysOf(topic: string, groups: set<string>): set<string> {
    set g | g in groups :: QueueKey(topic, g)
  }

  /** One copy for the queue of every listed group. */
  function Broadcast(queues: map<string, seq<Message>>, keys: set<string>, m: Message): map<string, seq<Message>> {
    map k | k in queues.Keys + keys ::
      (if k in queues then queues[k] else []) + (if k in keys then [m] else [])
  }

  function AfterPublish(s: State, topic: string, body: Body): State {
    var m := Message(topic, body, s.counter + 1);
    s.(counter := s.counter + 1,
       log := s.log[topic := LogOf(s, topic) + [m]],
       queues := Broadcast(s.queues, KeysOf(topic, GroupsOf(s, topic)), m))
  }

  /** Polling registers the group; an empty queue is a timeout. */
  function Polled(s: State, topic: string, group: string): Option<Message> {
    var q := QueueAt(AfterRegister(s, topic, group), QueueKey(topic, group));
    if q == [] then None else Some(q[0])
  }

  function AfterPoll(s: State, topic: string, group: string): State {
    var r := AfterRegister(s, topic, group);
    var key := QueueKey(topic, group);
    var q := QueueAt(r, key);
    if q == [] then r else r.(queues := r.queues[key := q[1..]])
  }

  function AfterCommit(s: State, group: string, m: Message): State {
    s.(committed := s.committed[QueueKey(m.topic, group) := m.offset])
  }

  /** Registering a group always leaves it with a queue, so polling never looks up a missing one. */
  ghost predicate Served(s: State) {
    forall t, g :: Registered(s, t, g) ==> QueueKey(t, g) in s.queues
  }

  // ---- the object ----------------------------------------------------------------

  class InMemoryEventBroker {
    var queues: map<string, seq<Message>>
    var topicGroups: map<string, set<string>>
    var topicMessages: map<string, seq<Message>>
    var committedOffsets: map<string, nat>
    var offsetCounter: nat

    function Now(): State
      reads this
    {
      State(queues, topicGroups, topicMessages, committedOffsets, offsetCounter)
    }

    ghost predicate Valid()
      reads this
    {
      Served(Now())
    }

    constructor ()
      ensures Valid() && Now() == EMPTY
    {
      queues, topicGroups, topicMessages, committedOffsets, offsetCounter := map[], map[], map[], map[], 0;
    }

    method RegisterConsumerGroup(topic: string, group: string)
      requires Valid()
      modifies this
      ensures Valid() && Registered(Now(), topic, group)
      ensures Now() == AfterRegister(old(Now()), topic, group)
    {
      RegisterServes(Now(), topic, group);
      AddGroup(topic, group);
    }

    method AddGroup(topic: string, group: string)
      modifies this
      ensures Now() == AfterRegister(old(Now()), topic, group)
    {
      ghost var groups := topicGroups;
      if topic !in topicGroups {
        topicGroups := topicGroups[topic := {}];
      }
      if group !in topicGroups[topic] {
        topicGroups := topicGroups[topic := topicGroups[topic] + {group}];
        assert topicGroups == groups[topic := (if topic in groups then groups[topic] else {}) + {group}];
        OpenQueue(QueueKey(topic, group), if topic in topicMessages then topicMessages[topic] else []);
      }
    }

    /** A queue, new unless its name was in use already, and the messages published earlier. */
    method OpenQueue(key: string, messages: seq<Message>)
      modifies this`queues
      ensures queues == old(queues)[key := (if key in old(queues) then old(queues)[key] else []) + messages]
    {
      if key !in queues {
        queues := queues[key := []];
      }
      CatchUp(key, messages);
    }

    /** Copies messages published earlier into a queue, one by one. */
    method CatchUp(key: string, messages: seq<Message>)
      requires key in queues
      modifies this`queues
      ensures queues == old(queues)[key := old(queues)[key] + messages]
    {
      ghost var before := queues;
      assert before[key] + messages[..0] == before[key];
      assert before[key := before[key]] == before;
      var i := 0;
      while i < |messages|
        invariant 0 <= i <= |messages|
        invariant queues == before[key := before[key] + messages[..i]]
      {
        assert messages[..i] + [messages[i]] == messages[..i + 1];
        assert (before[key] + messages[..i]) + [messages[i]] == before[key] + messages[..i + 1];
        Enqueue(key, messages[i]);
        i := i + 1;
      }
      assert messages[..i] == messages;
    }

    method Publish(topic: string, body: Body)
      requires Valid()
      modifies this
      ensures Valid()
      ensures Now() == AfterPublish(old(Now()), topic, body)
    {
      hide Broadcast, Served;
      ghost var log := topicMessages;
      PublishServes(Now(), topic, body);
      offsetCounter := offsetCounter + 1;
      var m := Message(topic, body, offsetCounter);
      if topic !in topicMessages {
        topicMessages := topicMessages[topic := []];
      }
      topicMessages := topicMessages[topic := topicMessages[topic] + [m]];
      assert topicMessages == log[topic := (if topic in log then log[topic] else []) + [m]];
      Deliver(topic, if topic in topicGroups then topicGroups[topic] else {}, m);
    }

    /** The loop over the registered groups; Python iterates a set, so the order is arbitrary. */
    method Deliver(topic: string, groups: set<string>, m: Message)
      modifies this`queues
      ensures queues == Broadcast(old(queues), KeysOf(topic, groups), m)
    {
      var todo := groups;
      BroadcastToNobody(queues, m);
      assert KeysOf(topic, {}) == {};
      assert groups - todo == {};
      while todo != {}
        invariant todo <= groups
        invariant queues == Broadcast(old(queues), KeysOf(topic, groups - todo), m)
        decreases todo
      {
        var group :| group in todo;
        OneMore(old(queues), topic, groups - todo, group, m);
        assert groups - (todo - {group}) == groups - todo + {group};
        Enqueue(QueueKey(topic, group), m);
        todo := todo - {group};
      }
      assert groups - todo == groups;
    }

    method Enqueue(key: string, m: Message)
      modifies this`queues
      ensures queues == old(queues)[key := (if key in old(queues) then old(queues)[key] else []) + [m]]
    {
      if key !in queues {
        queues := queues[key := []];
      }
      queues := queues[key := queues[key] + [m]];
    }

    method GetMessage(topic: string, group: string) returns (m: Option<Message>)
      requires Valid()
      modifies this
      ensures Valid()
      ensures Now() == AfterPoll(old(Now()), topic, group) && m == Polled(old(Now()), topic, group)
    {
      RegisterConsumerGroup(topic, group);
      var key := QueueKey(topic, group);
      var q := queues[key];
      if q == [] {
        return None;
      }
      queues := queues[key := q[1..]];
      m := Some(q[0]);
    }

    method Commit(group: string, m: Message)
      requires Valid()
      modifies this`committedOffsets
      ensures Valid()
      ensures Now() == AfterCommit(old(Now()), group, m)
    {
      committedOffsets := committedOffsets[QueueKey(m.topic, group) := m.offset];
    }
  }

  lemma KeySplits(topic: string, group: string, other: string)
    ensures QueueKey(topic, group) == QueueKey(topic, other) <==> group == other
  {
    assert QueueKey(topic, group)[|topic| + 1..] == group;
    assert QueueKey(topic, other)[|topic| + 1..] == other;
  }

  lemma RegisterServes(s: State, topic: string, group: string)
    requires Served(s)
    ensures Served(AfterRegister(s, topic, group)) && Registered(AfterRegister(s, topic, group), topic, group)
  {
    var r := AfterRegister(s, topic, group);
    forall t, g | Registered(r, t, g) ensures QueueKey(t, g) in r.queues {
      assert Registered(s, t, g) || (t == topic && g == group);
    }
  }

  lemma PublishServes(s: State, topic: string, body: Body)
    requires Served(s)
    ensures Served(AfterPublish(s, topic, body))
  {
    var p := AfterPublish(s, topic, body);
    forall t, g | Registered(p, t, g) ensures QueueKey(t, g) in p.queues {
      assert Registered(s, t, g);
    }
  }

  lemma BroadcastToNobody(queues: map<string, seq<Message>>, m: Message)
    ensures Broadcast(queues, {}, m) == queues
  {
    forall k | k in queues ensures Broadcast(queues, {}, m)[k] == queues[k] {
      assert queues[k] + [] == queues[k];
    }
  }

  lemma BroadcastAt(queues: map<string, seq<Message>>, keys: set<string>, m: Message, k: string)
    ensures k in Broadcast(queues, keys, m) <==> k in queues || k in keys
    ensures k in Broadcast(queues, keys, m) ==>
              Broadcast(queues, keys, m)[k] ==
              (if k in queues then queues[k] else []) + (if k in keys then [m] else [])
  {
  }

  lemma OneMore(queues: map<string, seq<Message>>, topic: string, done: set<string>, group: string, m: Message)
    requires group !in done
    ensures var before, key := Broadcast(queues, KeysOf(topic, done), m), QueueKey(topic, group);
            Broadcast(queues, KeysOf(topic, done + {group}), m) ==
            before[key := (if key in before then before[key] else []) + [m]]
  {
    var key := QueueKey(topic, group);
    if key in KeysOf(topic, done) {
      var g :| g in done && QueueKey(topic, g) == key;
      KeySplits(topic, group, g);
      assert false;
    }
    BroadcastAdd(queues, KeysOf(topic, done), key, m);
    assert KeysOf(topic, done + {group}) == KeysOf(topic, done) + {key};
  }

  lemma BroadcastAdd(queues: map<string, seq<Message>>, keys: set<string>, key: string, m: Message)
    requires key !in keys
    ensures var before := Broadcast(queues, keys, m);
            Broadcast(queues, keys + {key}, m) == before[key := (if key in before then before[key] else []) + [m]]
  {
    var before := Broadcast(queues, keys, m);
    var after := Broadcast(queues, keys + {key}, m);
    var expected := before[key := (if key in before then before[key] else []) + [m]];
    forall k | k in after ensures k in expected && after[k] == expected[k] {
      BroadcastAt(queues, keys, m, k);
      BroadcastAt(queues, keys + {key}, m, k);
      if k == key && key in queues {
        assert queues[key] + [] + [m] == queues[key] + [m];
      } else if k == key {
        assert [] + [m] == [m];
      }
    }
    assert after.Keys == expected.Keys;
  }
}
