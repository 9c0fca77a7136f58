/** Delayed retries and dead-letter routing (app/events/retry_processor.py). */
module RetryProcessor {
  import opened RecoveryTypes
  import opened Broker
  import opened BrokerDelivery

  const MAIN_TOPIC := "payment.events"
  const RETRY_1_TOPIC := "payment.events.retry.1"
  const RETRY_2_TOPIC := "payment.events.retry.2"
  const DLQ_TOPIC := "payment.events.DLQ"
  const GROUP_ID := "iro-retry-processor"

  lemma TopicNames()
    ensures Plain(MAIN_TOPIC) && Plain(RETRY_1_TOPIC) && Plain(RETRY_2_TOPIC) && Plain(DLQ_TOPIC) && Plain(GROUP_ID)
    ensures RETRY_1_TOPIC != RETRY_2_TOPIC
    ensures MAIN_TOPIC !in {RETRY_1_TOPIC, RETRY_2_TOPIC} && DLQ_TOPIC !in {MAIN_TOPIC, RETRY_1_TOPIC, RETRY_2_TOPIC}
  {
    assert RETRY_1_TOPIC[21] == '1' && RETRY_2_TOPIC[21] == '2';
    assert |MAIN_TOPIC| == 14 && |RETRY_1_TOPIC| == 22 && |RETRY_2_TOPIC| == 22 && |DLQ_TOPIC| == 18;
  }

  // ---- routing a failure ---------------------------------------------------------------

  /** One failed attempt to handle a message, as the consumer reports it. */
  datatype Failure = Failure(reason: string, isMalformed: bool, backoff: Option<real>, now: real, nowText: string)

  /** A missing count reads as zero; text that is no integer is an error. */
  function CountOf(h: CountHeader): Option<int> {
    match h
    case NoCount => Some(0)
    case Count(n) => Some(n)
    case UnreadableCount => None
  }

  datatype Fate = FirstRetry | SecondRetry | DeadLetter {
    function Topic(): string {
      match this
      case FirstRetry => RETRY_1_TOPIC
      case SecondRetry => RETRY_2_TOPIC
      case DeadLetter => DLQ_TOPIC
    }
  }

  function Destination(h: Headers, isMalformed: bool): Option<Fate> {
    if isMalformed then Some(DeadLetter)
    else match CountOf(h.retryCount)
      case None => None
      case Some(n) => Some(if n == 0 then FirstRetry else if n == 1 then SecondRetry else DeadLetter)
  }

  function Delayed(h: Headers, count: int, delay: real, from: string, f: Failure): Headers {
    Headers(Count(count), Stamp(f.now + delay),
            h.other["x-failure-reason" := f.reason]["x-original-topic" := from])
  }

  function Buried(h: Headers, from: string, f: Failure): Headers {
    h.(other :=
         if f.isMalformed then
           h.other["x-death-reason" := "MALFORMED_EVENT_SCHEMA"]["x-death-detail" := f.reason]
                  ["x-failed-at" := f.nowText]["x-original-topic" := from]
         else
           h.other["x-death-reason" := "EXCEEDED_MAX_RETRIES"]["x-failure-reason" := f.reason]
                  ["x-failed-at" := f.nowText]["x-original-topic" := from])
  }

  function DelayOf(f: Failure, standard: real): real {
    if f.backoff.Some? then f.backoff.value else standard
  }

  /** The body that is published when `m` fails with `f`. */
  function Routed(m: Message, f: Failure): Body {
    var h := m.body.headers;
    var count := CountOf(h.retryCount);
    m.body.(headers :=
      if !f.isMalformed && count == Some(0) then Delayed(h, 1, DelayOf(f, 10.0), m.topic, f)
      else if !f.isMalformed && count == Some(1) then Delayed(h, 2, DelayOf(f, 30.0), m.topic, f)
      else Buried(h, m.topic, f))
  }

  method RouteFailure(broker: InMemoryEventBroker, m: Message, f: Failure) returns (r: Option<Fate>)
    requires broker.Valid()
    modifies broker
    ensures broker.Valid()
    ensures r == Destination(m.body.headers, f.isMalformed)
    ensures r.None? ==> broker.Now() == old(broker.Now())
    ensures r.Some? ==> broker.Now() == AfterPublish(old(broker.Now()), r.value.Topic(), Routed(m, f))
  {
    var h := m.body.headers;
    var delay := if f.backoff.Some? then f.backoff.value else 10.0;
    if f.isMalformed {
      h := h.(other := h.other["x-death-reason" := "MALFORMED_EVENT_SCHEMA"]);
      h := h.(other := h.other["x-death-detail" := f.reason]);
      h := h.(other := h.other["x-failed-at" := f.nowText]);
      h := h.(other := h.other["x-original-topic" := m.topic]);
      broker.Publish("payment.events.DLQ", Body(m.body.key, m.body.value, h));
      return Some(DeadLetter);
    }
    if h.retryCount.UnreadableCount? {
      return None;
    }
    var currentRetry := if h.retryCount.NoCount? then 0 else h.retryCount.n;
    if currentRetry == 0 {
      h := h.(retryCount := Count(1), retryAt := Stamp(f.now + delay));
      h := h.(other := h.other["x-failure-reason" := f.reason]);
      h := h.(other := h.other["x-original-topic" := m.topic]);
      broker.Publish("payment.events.retry.1", Body(m.body.key, m.body.value, h));
      return Some(FirstRetry);
    } else if currentRetry == 1 {
      delay := if f.backoff.Some? then f.backoff.value else 30.0;
      h := h.(retryCount := Count(2), retryAt := Stamp(f.now + delay));
      h := h.(other := h.other["x-failure-reason" := f.reason]);
      h := h.(other := h.other["x-original-topic" := m.topic]);
      broker.Publish("payment.events.retry.2", Body(m.body.key, m.body.value, h));
      return Some(SecondRetry);
    } else {
      h := h.(other := h.other["x-death-reason" := "EXCEEDED_MAX_RETRIES"]);
      h := h.(other := h.other["x-failure-reason" := f.reason]);
      h := h.(other := h.other["x-failed-at" := f.nowText]);
      h := h.(other := h.other["x-original-topic" := m.topic]);
      broker.Publish("payment.events.DLQ", Body(m.body.key, m.body.value, h));
      return Some(DeadLetter);
    }
  }

  // ---- everybody else on the broker ---------------------------------------------------------

  function AfterCalls(s: State, calls: seq<Call>): State
    decreases |calls|
  {
    if calls == [] then s else AfterCalls(Step(s, calls[0]), calls[1..])
  }

  /** What a series of calls asks the broker to carry on a topic. */
  function AskedAll(calls: seq<Call>, topic: string): seq<Body>
    decreases |calls|
  {
    if calls == [] then [] else Asked(calls[0], topic) + AskedAll(calls[1..], topic)
  }

  /** What others do around one poll: before it finds something, before the message is published, before it is
      committed. */
  datatype Turn = Turn(before: seq<Call>, during: seq<Call>, after: seq<Call>) {
    function All(): seq<Call> {
      before + (during + after)
    }
  }

  /** Nobody else acts once the list is used up. */
  function First(turns: seq<Turn>): Turn {
    if turns == [] then Turn([], [], []) else turns[0]
  }

  function Later(turns: seq<Turn>): seq<Turn> {
    if turns == [] then [] else turns[1..]
  }

  method Others(broker: InMemoryEventBroker, calls: seq<Call>)
    requires broker.Valid()
    modifies broker
    ensures broker.Valid() && broker.Now() == AfterCalls(old(broker.Now()), calls)
  {
    var i := 0;
    while i < |calls|
      invariant 0 <= i <= |calls| && broker.Valid()
      invariant AfterCalls(old(broker.Now()), calls) == AfterCalls(broker.Now(), calls[i..])
    {
      assert calls[i..][0] == calls[i] && calls[i..][1..] == calls[i + 1..];
      Other(broker, calls[i]);
      i := i + 1;
    }
  }

  method Other(broker: InMemoryEventBroker, c: Call)
    requires broker.Valid()
    modifies broker
    ensures broker.Valid() && broker.Now() == Step(old(broker.Now()), c)
  {
    match c {
      case RegisterCall(t, g) => broker.RegisterConsumerGroup(t, g);
      case PublishCall(t, b) => broker.Publish(t, b);
      case GetCall(t, g) => var _ := broker.GetMessage(t, g);
      case CommitCall(g, m) => broker.Commit(g, m);
    }
  }

  // ---- releasing what is due ------------------------------------------------------------

  /** No stamp, or one that cannot be read, means due at once. */
  predicate Due(b: Body, now: real) {
    b.headers.retryAt.Stamp? ==> b.headers.retryAt.t <= now
  }

  function Tagged(b: Body, from: string): Body {
    b.(headers := b.headers.(other := b.headers.other["x-republished-from" := from]))
  }

  /** `r` is `b` sent on: everything is kept, and one header says where it waited. */
  predicate Republishes(r: Body, b: Body, from: string) {
    && r.key == b.key && r.value == b.value
    && r.headers.retryCount == b.headers.retryCount && r.headers.retryAt == b.headers.retryAt
    && r.headers.other == b.headers.other["x-republished-from" := from]
  }

  /** From one retry topic to the main topic, under the processor's group name. */
  datatype Lane = Lane(main: string, from: string, group: string) {
    predicate Sound() {
      Plain(main) && Plain(from) && Plain(group) && from != main
    }
  }

  datatype Pass = Pass(state: State, count: nat)

  /** The message `m` just polled is passed on to the main topic if due, and goes to the back otherwise. */
  function Settled(s: State, x: Lane, m: Message, now: real, t: Turn): State {
    var d := AfterCalls(s, t.during);
    var p := if Due(m.body, now) then AfterPublish(d, x.main, Tagged(m.body, x.from))
             else AfterPublish(d, x.from, m.body);
    AfterCommit(AfterCalls(p, t.after), x.group, m)
  }

  /** Up to `n` polls of one retry topic; a message not yet due ends the pass. */
  function PassOver(s: State, x: Lane, n: nat, now: real, turns: seq<Turn>): Pass
    decreases n
  {
    if n == 0 then Pass(s, 0)
    else
      var t := First(turns);
      var b := AfterCalls(s, t.before);
      var p := AfterPoll(b, x.from, x.group);
      match Polled(b, x.from, x.group)
      case None => Pass(p, 0)
      case Some(m) =>
        var after := Settled(p, x, m, now, t);
        if Due(m.body, now) then
          var rest := PassOver(after, x, n - 1, now, Later(turns));
          Pass(rest.state, rest.count + 1)
        else Pass(after, 0)
  }

  function LaneFrom(topic: string): Lane {
    Lane(MAIN_TOPIC, topic, GROUP_ID)
  }

  /** One retry topic's inner loop; at each await, others act as `turns` says. */
  method ReleaseFrom(broker: InMemoryEventBroker, topic: string, maxMessages: nat, now: real, turns: seq<Turn>)
    returns (republished: nat)
    requires broker.Valid()
    modifies broker
    ensures broker.Valid()
    ensures Pass(broker.Now(), republished) == PassOver(old(broker.Now()), LaneFrom(topic), maxMessages, now, turns)
  {
    hide Settled, AfterCalls, AfterPoll, AfterCommit, AfterPublish;
    republished := 0;
    var left := turns;
    ghost var whole := PassOver(broker.Now(), LaneFrom(topic), maxMessages, now, turns);
    for i := 0 to maxMessages
      invariant broker.Valid()
      invariant whole.state == PassOver(broker.Now(), LaneFrom(topic), maxMessages - i, now, left).state
      invariant whole.count == republished + PassOver(broker.Now(), LaneFrom(topic), maxMessages - i, now, left).count
    {
      var t := First(left);
      Others(broker, t.before);
      var polled := broker.GetMessage(topic, GROUP_ID);
      if polled.None? {
        return;
      }
      var due := Settle(broker, topic, polled.value, now, t);
      if !due {
        return;
      }
      republished := republished + 1;
      left := Later(left);
    }
  }

  /** What happens to a polled message. */
  method Settle(broker: InMemoryEventBroker, topic: string, m: Message, now: real, t: Turn) returns (due: bool)
    requires broker.Valid()
    modifies broker
    ensures broker.Valid() && due == Due(m.body, now)
    ensures broker.Now() == Settled(old(broker.Now()), LaneFrom(topic), m, now, t)
  {
    hide AfterCalls, AfterCommit, AfterPublish;
    due := true;
    if m.body.headers.retryAt.Stamp? {
      if now < m.body.headers.retryAt.t {
        due := false;
      }
    }
    Others(broker, t.during);
    if due {
      var h := m.body.headers;
      h := h.(other := h.other["x-republished-from" := topic]);
      broker.Publish("payment.events", Body(m.body.key, m.body.value, h));
    } else {
      broker.Publish(topic, m.body);
    }
    Others(broker, t.after);
    broker.Commit(GROUP_ID, m);
  }

  method ProcessRetries(broker: InMemoryEventBroker, maxMessages: int, now: real, one: seq<Turn>, two: seq<Turn>)
    returns (republished: nat)
    requires broker.Valid()
    modifies broker
    ensures broker.Valid()
    ensures var n := if maxMessages > 0 then maxMessages else 0;
            var first := PassOver(old(broker.Now()), LaneFrom(RETRY_1_TOPIC), n, now, one);
            var second := PassOver(first.state, LaneFrom(RETRY_2_TOPIC), n, now, two);
            broker.Now() == second.state && republished == first.count + second.count
  {
    hide PassOver;
    var n := if maxMessages > 0 then maxMessages else 0;
    var fromFirst := ReleaseFrom(broker, RETRY_1_TOPIC, n, now, one);
    var fromSecond := ReleaseFrom(broker, RETRY_2_TOPIC, n, now, two);
    republished := fromFirst + fromSecond;
  }

  // ---- what single calls do to a waiting line -----------------------------------------------

  /** The bodies a group has yet to read from a topic, whether or not it has registered. */
  function Waiting(s: State, topic: string, group: string): seq<Body> {
    Bodies(QueueAt(AfterRegister(s, topic, group), QueueKey(topic, group)))
  }

  lemma PollTakesTheHead(s: State, topic: string, group: string)
    requires Plain(topic) && Plain(group)
    ensures Polled(s, topic, group).None? <==> Waiting(s, topic, group) == []
    ensures Polled(s, topic, group).Some? ==> Polled(s, topic, group).value.body == Waiting(s, topic, group)[0]
    ensures Waiting(AfterPoll(s, topic, group), topic, group) ==
            if Waiting(s, topic, group) != [] then Waiting(s, topic, group)[1..] else []
  {
  }

  lemma PollKeepsLogs(s: State, topic: string, group: string, other: string)
    ensures LogOf(AfterPoll(s, topic, group), other) == LogOf(s, other)
  {
  }

  lemma PublishJoinsTheLine(s: State, t: string, b: Body, topic: string, group: string)
    requires Plain(topic) && Plain(group)
    ensures Waiting(AfterPublish(s, t, b), topic, group) ==
            Waiting(s, topic, group) + if t == topic then [b] else []
  {
    NobodyShares(s, topic, group);
    PublishReaches(s, t, b, topic, group);
    var added := if t == topic then [Message(t, b, s.counter + 1)] else [];
    var key := QueueKey(topic, group);
    if Registered(s, topic, group) {
      BodiesJoin(QueueAt(s, key), added);
    } else {
      LateLine(s, t, b, topic, group, added);
      BodiesJoin(QueueAt(s, key) + LogOf(s, topic), added);
    }
  }

  lemma NobodyShares(s: State, topic: string, group: string)
    requires Plain(topic) && Plain(group)
    ensures Unshared(s, topic, group)
  {
    forall u, g | Registered(s, u, g) && QueueKey(u, g) == QueueKey(topic, group) ensures u == topic {
      PlainNamesStandApart(u, g, topic, group);
    }
  }

  /** A group that has not registered will find the publication at the end of the log. */
  lemma LateLine(s: State, t: string, b: Body, topic: string, group: string, added: seq<Message>)
    requires !Registered(s, topic, group)
    requires QueueAt(AfterPublish(s, t, b), QueueKey(topic, group)) == QueueAt(s, QueueKey(topic, group)) + []
    requires added == if t == topic then [Message(t, b, s.counter + 1)] else []
    ensures Waiting(s, topic, group) == Bodies(QueueAt(s, QueueKey(topic, group)) + LogOf(s, topic))
    ensures Waiting(AfterPublish(s, t, b), topic, group) ==
            Bodies(QueueAt(s, QueueKey(topic, group)) + LogOf(s, topic) + added)
  {
    var p, q := AfterPublish(s, t, b), QueueAt(s, QueueKey(topic, group));
    assert p.groups == s.groups && !Registered(p, topic, group);
    LateQueue(s, topic, group);
    LateQueue(p, topic, group);
    assert LogOf(p, topic) == LogOf(s, topic) + added;
    assert q + [] == q;
    assert q + (LogOf(s, topic) + added) == q + LogOf(s, topic) + added;
  }

  lemma LateQueue(s: State, topic: string, group: string)
    requires !Registered(s, topic, group)
    ensures Waiting(s, topic, group) == Bodies(QueueAt(s, QueueKey(topic, group)) + LogOf(s, topic))
  {
  }

  lemma CommitMovesNoLine(s: State, who: string, m: Message, topic: string, group: string)
    ensures Waiting(AfterCommit(s, who, m), topic, group) == Waiting(s, topic, group)
    ensures LogOf(AfterCommit(s, who, m), topic) == LogOf(s, topic)
  {
  }

  lemma LogGrows(s: State, t: string, b: Body, topic: string)
    ensures Bodies(LogOf(AfterPublish(s, t, b), topic)) == Bodies(LogOf(s, topic)) + if t == topic then [b] else []
  {
    if t == topic {
      BodiesJoin(LogOf(s, topic), [Message(t, b, s.counter + 1)]);
    }
  }

  /** Nobody else polls the topic under the processor's group name. */
  predicate LeavesAlone(calls: seq<Call>, topic: string, group: string) {
    forall i :: 0 <= i < |calls| ==> calls[i] != GetCall(topic, group)
  }

  predicate AllLeaveAlone(turns: seq<Turn>, topic: string, group: string) {
    forall i :: 0 <= i < |turns| ==> LeavesAlone(turns[i].before, topic, group)
                                     && LeavesAlone(turns[i].during, topic, group)
                                     && LeavesAlone(turns[i].after, topic, group)
  }

  lemma OthersOnlyAppend(s: State, c: Call, topic: string, group: string)
    requires Plain(topic) && Plain(group) && c != GetCall(topic, group)
    ensures Waiting(Step(s, c), topic, group) == Waiting(s, topic, group) + Asked(c, topic)
  {
    hide Waiting;
    match c
    case PublishCall(t, b) => PublishJoinsTheLine(s, t, b, topic, group);
    case CommitCall(g, m) => CommitMovesNoLine(s, g, m, topic, group);
    case RegisterCall(t, g) => RegisterLeavesLine(s, t, g, topic, group);
    case GetCall(t, g) => PollLeavesLine(s, t, g, topic, group);
  }

  lemma RegisterLeavesLine(s: State, t: string, g: string, topic: string, group: string)
    requires Plain(topic) && Plain(group)
    ensures Waiting(AfterRegister(s, t, g), topic, group) == Waiting(s, topic, group)
  {
    PlainNamesStandApart(t, g, topic, group);
    if (t, g) != (topic, group) {
      RegisterElsewhere(s, t, g, topic, group);
      GroupsGrowByName(s, RegisterCall(t, g), topic, group);
    }
  }

  lemma PollLeavesLine(s: State, t: string, g: string, topic: string, group: string)
    requires Plain(topic) && Plain(group) && (t, g) != (topic, group)
    ensures Waiting(AfterPoll(s, t, g), topic, group) == Waiting(s, topic, group)
  {
    PlainNamesStandApart(t, g, topic, group);
    RegisterElsewhere(s, t, g, topic, group);
    GroupsGrowByName(s, GetCall(t, g), topic, group);
  }

  lemma {:induction false} CallsOnlyAppend(s: State, calls: seq<Call>, topic: string, group: string)
    requires Plain(topic) && Plain(group) && LeavesAlone(calls, topic, group)
    ensures Waiting(AfterCalls(s, calls), topic, group) == Waiting(s, topic, group) + AskedAll(calls, topic)
    decreases |calls|
  {
    hide Step, Waiting, Asked;
    if calls == [] {
      assert Waiting(s, topic, group) + [] == Waiting(s, topic, group);
    } else {
      OthersOnlyAppend(s, calls[0], topic, group);
      CallsOnlyAppend(Step(s, calls[0]), calls[1..], topic, group);
      Regroup(Waiting(s, topic, group), Asked(calls[0], topic), AskedAll(calls[1..], topic));
    }
  }

  lemma Regroup(a: seq<Body>, b: seq<Body>, c: seq<Body>)
    ensures (a + b) + c == a + (b + c)
  {
  }

  lemma StepGrowsLog(s: State, c: Call, topic: string)
    ensures Bodies(LogOf(Step(s, c), topic)) == Bodies(LogOf(s, topic)) + Asked(c, topic)
  {
    match c
    case PublishCall(t, b) => LogGrows(s, t, b, topic);
    case CommitCall(_, _) =>
    case RegisterCall(_, _) =>
    case GetCall(_, _) =>
  }

  lemma {:induction false} CallsGrowLog(s: State, calls: seq<Call>, topic: string)
    ensures Bodies(LogOf(AfterCalls(s, calls), topic)) == Bodies(LogOf(s, topic)) + AskedAll(calls, topic)
    decreases |calls|
  {
    hide Step, Asked, LogOf;
    if calls == [] {
      assert Bodies(LogOf(s, topic)) + [] == Bodies(LogOf(s, topic));
    } else {
      StepGrowsLog(s, calls[0], topic);
      CallsGrowLog(Step(s, calls[0]), calls[1..], topic);
      Regroup(Bodies(LogOf(s, topic)), Asked(calls[0], topic), AskedAll(calls[1..], topic));
    }
  }

  lemma {:induction false} AskedJoin(a: seq<Call>, b: seq<Call>, topic: string)
    ensures AskedAll(a + b, topic) == AskedAll(a, topic) + AskedAll(b, topic)
    decreases |a|
  {
    if a == [] {
      assert a + b == b;
    } else {
      assert (a + b)[1..] == a[1..] + b;
      AskedJoin(a[1..], b, topic);
    }
  }

  lemma AskedInTurn(t: Turn, topic: string)
    ensures AskedAll(t.All(), topic) ==
            AskedAll(t.before, topic) + (AskedAll(t.during, topic) + AskedAll(t.after, topic))
  {
    AskedJoin(t.before, t.during + t.after, topic);
    AskedJoin(t.during, t.after, topic);
  }

  // ---- what a pass does to the waiting lines ----------------------------------------------

  function TagAll(bs: seq<Body>, from: string): (r: seq<Body>)
    ensures |r| == |bs| && forall i :: 0 <= i < |bs| ==> Republishes(r[i], bs[i], from)
  {
    seq(|bs|, i requires 0 <= i < |bs| => Tagged(bs[i], from))
  }

  /** A pass told on the waiting line alone: what it released, what is left, what has been added to the main log
      meanwhile, and what others did meanwhile. */
  datatype Drained = Drained(released: seq<Body>, rest: seq<Body>, added: seq<Body>, others: seq<Call>)

  /** The line when a poll of turn `t` looks at it. */
  function LineFor(q: seq<Body>, x: Lane, t: Turn): seq<Body> {
    q + AskedAll(t.before, x.from)
  }

  /** The line after a poll that found something, and what the turn added to the main log. */
  function LineAfter(line: seq<Body>, x: Lane, now: real, t: Turn): seq<Body>
    requires line != []
  {
    line[1..] + AskedAll(t.during, x.from) + (if Due(line[0], now) then [] else [line[0]]) + AskedAll(t.after, x.from)
  }

  function MainAfter(h: Body, x: Lane, now: real, t: Turn): seq<Body> {
    AskedAll(t.before, x.main) + AskedAll(t.during, x.main) + (if Due(h, now) then [Tagged(h, x.from)] else [])
    + AskedAll(t.after, x.main)
  }

  function Drain(q: seq<Body>, x: Lane, n: nat, now: real, turns: seq<Turn>): Drained
    decreases n
  {
    if n == 0 then Drained([], q, [], [])
    else
      var t := First(turns);
      var line := LineFor(q, x, t);
      if line == [] then Drained([], [], AskedAll(t.before, x.main), t.before)
      else if !Due(line[0], now) then
        Drained([], LineAfter(line, x, now, t), MainAfter(line[0], x, now, t), t.All())
      else
        var d := Drain(LineAfter(line, x, now, t), x, n - 1, now, Later(turns));
        Drained([line[0]] + d.released, d.rest, MainAfter(line[0], x, now, t) + d.added, t.All() + d.others)
  }

  /** The broker after the first poll of a pass. */
  function FirstPolled(s: State, x: Lane, now: real, turns: seq<Turn>): State {
    var t := First(turns);
    var b := AfterCalls(s, t.before);
    match Polled(b, x.from, x.group)
    case None => AfterPoll(b, x.from, x.group)
    case Some(m) => Settled(AfterPoll(b, x.from, x.group), x, m, now, t)
  }

  /** A pass unfolds by its first poll. */
  lemma PassUnfolds(s: State, x: Lane, n: nat, now: real, turns: seq<Turn>)
    requires n > 0
    ensures var polled := Polled(AfterCalls(s, First(turns).before), x.from, x.group);
            var after, pass := FirstPolled(s, x, now, turns), PassOver(s, x, n, now, turns);
            if polled.Some? && Due(polled.value.body, now) then
              && pass.state == PassOver(after, x, n - 1, now, Later(turns)).state
              && pass.count == PassOver(after, x, n - 1, now, Later(turns)).count + 1
            else pass == Pass(after, 0)
  {
    hide AfterCalls, AfterPoll, Settled;
  }

  lemma SettledLine(s: State, x: Lane, m: Message, now: real, t: Turn)
    requires x.Sound() && LeavesAlone(t.during, x.from, x.group) && LeavesAlone(t.after, x.from, x.group)
    ensures Waiting(Settled(s, x, m, now, t), x.from, x.group) ==
            Waiting(s, x.from, x.group) + AskedAll(t.during, x.from) + (if Due(m.body, now) then [] else [m.body])
            + AskedAll(t.after, x.from)
  {
    hide Waiting, AfterCalls, AfterPublish, AfterCommit, AskedAll;
    var d := AfterCalls(s, t.during);
    CallsOnlyAppend(s, t.during, x.from, x.group);
    PublishJoinsTheLine(d, x.main, Tagged(m.body, x.from), x.from, x.group);
    PublishJoinsTheLine(d, x.from, m.body, x.from, x.group);
    var p := if Due(m.body, now) then AfterPublish(d, x.main, Tagged(m.body, x.from))
             else AfterPublish(d, x.from, m.body);
    CallsOnlyAppend(p, t.after, x.from, x.group);
    CommitMovesNoLine(AfterCalls(p, t.after), x.group, m, x.from, x.group);
  }

  lemma SettledLog(s: State, x: Lane, m: Message, now: real, t: Turn)
    requires x.Sound()
    ensures Bodies(LogOf(Settled(s, x, m, now, t), x.main)) ==
            Bodies(LogOf(s, x.main)) + AskedAll(t.during, x.main)
            + (if Due(m.body, now) then [Tagged(m.body, x.from)] else []) + AskedAll(t.after, x.main)
  {
    hide LogOf, AfterCalls, AfterPublish, AfterCommit, AskedAll;
    var d := AfterCalls(s, t.during);
    CallsGrowLog(s, t.during, x.main);
    LogGrows(d, x.main, Tagged(m.body, x.from), x.main);
    LogGrows(d, x.from, m.body, x.main);
    var p := if Due(m.body, now) then AfterPublish(d, x.main, Tagged(m.body, x.from))
             else AfterPublish(d, x.from, m.body);
    CallsGrowLog(p, t.after, x.main);
    CommitMovesNoLine(AfterCalls(p, t.after), x.group, m, x.main, x.group);
  }

  lemma SettledElsewhere(s: State, x: Lane, m: Message, now: real, t: Turn, other: string)
    requires x.Sound() && Plain(other) && other !in {x.main, x.from}
    requires LeavesAlone(t.during, other, x.group) && LeavesAlone(t.after, other, x.group)
    ensures Waiting(Settled(s, x, m, now, t), other, x.group) ==
            Waiting(s, other, x.group) + (AskedAll(t.during, other) + AskedAll(t.after, other))
  {
    hide Waiting, AfterCalls, AfterPublish, AfterCommit, AskedAll;
    var d := AfterCalls(s, t.during);
    CallsOnlyAppend(s, t.during, other, x.group);
    PublishJoinsTheLine(d, x.main, Tagged(m.body, x.from), other, x.group);
    PublishJoinsTheLine(d, x.from, m.body, other, x.group);
    var p := if Due(m.body, now) then AfterPublish(d, x.main, Tagged(m.body, x.from))
             else AfterPublish(d, x.from, m.body);
    CallsOnlyAppend(p, t.after, other, x.group);
    CommitMovesNoLine(AfterCalls(p, t.after), x.group, m, other, x.group);
    Regroup(Waiting(s, other, x.group), AskedAll(t.during, other), AskedAll(t.after, other));
  }

  lemma FirstLeavesAlone(turns: seq<Turn>, topic: string, group: string)
    requires AllLeaveAlone(turns, topic, group)
    ensures var t := First(turns);
            && LeavesAlone(t.before, topic, group) && LeavesAlone(t.during, topic, group)
            && LeavesAlone(t.after, topic, group)
    ensures AllLeaveAlone(Later(turns), topic, group)
  {
  }

  /** One poll, seen from the line and from the main topic's log. */
  lemma OnePoll(s: State, x: Lane, now: real, turns: seq<Turn>)
    requires x.Sound() && AllLeaveAlone(turns, x.from, x.group)
    ensures var t, after := First(turns), FirstPolled(s, x, now, turns);
            var line, log := LineFor(Waiting(s, x.from, x.group), x, t), Bodies(LogOf(s, x.main));
            var polled := Polled(AfterCalls(s, t.before), x.from, x.group);
            && (polled.None? <==> line == [])
            && (line == [] ==> Waiting(after, x.from, x.group) == []
                               && Bodies(LogOf(after, x.main)) == log + AskedAll(t.before, x.main))
            && (line != [] ==>
                  && polled.value.body == line[0]
                  && Waiting(after, x.from, x.group) == LineAfter(line, x, now, t)
                  && Bodies(LogOf(after, x.main)) == log + MainAfter(line[0], x, now, t))
  {
    hide Waiting, AfterCalls, AfterPoll, Polled, Settled, AskedAll, LogOf;
    var t := First(turns);
    var b := AfterCalls(s, t.before);
    FirstLeavesAlone(turns, x.from, x.group);
    CallsOnlyAppend(s, t.before, x.from, x.group);
    CallsGrowLog(s, t.before, x.main);
    PollTakesTheHead(b, x.from, x.group);
    PollKeepsLogs(b, x.from, x.group, x.main);
    match Polled(b, x.from, x.group)
    case None =>
    case Some(m) =>
      SettledLine(AfterPoll(b, x.from, x.group), x, m, now, t);
      SettledLog(AfterPoll(b, x.from, x.group), x, m, now, t);
      MainParts(Bodies(LogOf(s, x.main)), m.body, x, now, t);
  }

  lemma MainParts(log: seq<Body>, h: Body, x: Lane, now: real, t: Turn)
    ensures log + AskedAll(t.before, x.main) + AskedAll(t.during, x.main)
            + (if Due(h, now) then [Tagged(h, x.from)] else []) + AskedAll(t.after, x.main) ==
            log + MainAfter(h, x, now, t)
  {
    hide AskedAll;
  }

  /** What a pass achieves, told on the waiting line and the main log only. */
  ghost predicate Matches(pass: Pass, d: Drained, x: Lane, log: seq<Body>) {
    && pass.count == |d.released|
    && Waiting(pass.state, x.from, x.group) == d.rest
    && Bodies(LogOf(pass.state, x.main)) == log + d.added
  }

  /** The pass on the broker is the pass on the waiting line, whatever others do at its awaits. */
  lemma {:induction false} PassDrains(s: State, x: Lane, n: nat, now: real, turns: seq<Turn>)
    requires x.Sound() && AllLeaveAlone(turns, x.from, x.group)
    ensures Matches(PassOver(s, x, n, now, turns), Drain(Waiting(s, x.from, x.group), x, n, now, turns), x,
                    Bodies(LogOf(s, x.main)))
    decreases n
  {
    hide Waiting, AfterCalls, AfterPoll, Polled, FirstPolled, AskedAll, LogOf, LineAfter, MainAfter, Settled;
    if n == 0 {
      assert Bodies(LogOf(s, x.main)) + [] == Bodies(LogOf(s, x.main));
    } else {
      OnePoll(s, x, now, turns);
      PassUnfolds(s, x, n, now, turns);
      FirstLeavesAlone(turns, x.from, x.group);
      var after := FirstPolled(s, x, now, turns);
      var line := LineFor(Waiting(s, x.from, x.group), x, First(turns));
      if line != [] && Due(line[0], now) {
        PassDrains(after, x, n - 1, now, Later(turns));
        Regroup(Bodies(LogOf(s, x.main)), MainAfter(line[0], x, now, First(turns)),
                Drain(LineAfter(line, x, now, First(turns)), x, n - 1, now, Later(turns)).added);
      }
    }
  }

  lemma OnePollElsewhere(s: State, x: Lane, now: real, turns: seq<Turn>, other: string)
    requires x.Sound() && Plain(other) && other !in {x.main, x.from} && AllLeaveAlone(turns, other, x.group)
    ensures var t := First(turns);
            var polled := Polled(AfterCalls(s, t.before), x.from, x.group);
            Waiting(FirstPolled(s, x, now, turns), other, x.group) ==
            Waiting(s, other, x.group) + AskedAll(if polled.None? then t.before else t.All(), other)
  {
    hide Waiting, AfterCalls, AfterPoll, Polled, Settled, AskedAll;
    var t := First(turns);
    var b := AfterCalls(s, t.before);
    FirstLeavesAlone(turns, other, x.group);
    CallsOnlyAppend(s, t.before, other, x.group);
    PollLeavesLine(b, x.from, x.group, other, x.group);
    match Polled(b, x.from, x.group)
    case None =>
    case Some(m) =>
      SettledElsewhere(AfterPoll(b, x.from, x.group), x, m, now, t, other);
      AskedInTurn(t, other);
      Regroup(Waiting(s, other, x.group), AskedAll(t.before, other),
              AskedAll(t.during, other) + AskedAll(t.after, other));
  }

  /** No other waiting line of the group is touched, except by what others publish meanwhile. */
  lemma {:induction false} PassKeepsOthers(s: State, x: Lane, n: nat, now: real, turns: seq<Turn>, other: string)
    requires x.Sound() && Plain(other) && other !in {x.main, x.from}
    requires AllLeaveAlone(turns, x.from, x.group) && AllLeaveAlone(turns, other, x.group)
    ensures Waiting(PassOver(s, x, n, now, turns).state, other, x.group) ==
            Waiting(s, other, x.group) +
            AskedAll(Drain(Waiting(s, x.from, x.group), x, n, now, turns).others, other)
    decreases n
  {
    hide Waiting, AfterCalls, AfterPoll, Polled, FirstPolled, LogOf, LineAfter, MainAfter, Settled, Asked;
    if n == 0 {
      assert Waiting(s, other, x.group) + [] == Waiting(s, other, x.group);
    } else {
      OnePoll(s, x, now, turns);
      OnePollElsewhere(s, x, now, turns, other);
      PassUnfolds(s, x, n, now, turns);
      FirstLeavesAlone(turns, x.from, x.group);
      FirstLeavesAlone(turns, other, x.group);
      var t, after := First(turns), FirstPolled(s, x, now, turns);
      var line := LineFor(Waiting(s, x.from, x.group), x, t);
      if line != [] && Due(line[0], now) {
        PassKeepsOthers(after, x, n - 1, now, Later(turns), other);
        var d := Drain(LineAfter(line, x, now, t), x, n - 1, now, Later(turns));
        AskedJoin(t.All(), d.others, other);
        Regroup(Waiting(s, other, x.group), AskedAll(t.All(), other), AskedAll(d.others, other));
      }
    }
  }

  // ---- conservation and punctuality --------------------------------------------------------

  /** Everything the line held or got during a pass, in order. */
  function Full(q: seq<Body>, x: Lane, d: Drained): seq<Body> {
    q + AskedAll(d.others, x.from)
  }

  /** The first `k` are out; a body that stopped the pass stands before the last `back` bodies, all others in order. */
  predicate IsSplit(full: seq<Body>, d: Drained, k: nat, back: Option<nat>) {
    && k <= |full| && d.released == full[..k]
    && match back
       case None => d.rest == full[k..]
       case Some(j) => k + 1 + j <= |full| && d.rest == full[k + 1..|full| - j] + [full[k]] + full[|full| - j..]
  }

  /** Why a pass ends where it does: enough polls, an empty line, or a body not yet due, behind which only what
      arrived after its own poll can stand. */
  predicate EndsRightly(q: seq<Body>, full: seq<Body>, n: nat, now: real, k: nat, back: Option<nat>)
    requires k <= |full| && (back.Some? ==> k + 1 + back.value <= |full|)
  {
    match back
    case None => k == n || k == |full|
    case Some(j) => k < n && |q| <= |full| - j && !Due(full[k], now)
  }

  predicate HasShape(q: seq<Body>, x: Lane, n: nat, now: real, turns: seq<Turn>, k: nat, back: Option<nat>) {
    var d := Drain(q, x, n, now, turns);
    && IsSplit(Full(q, x, d), d, k, back)
    && EndsRightly(q, Full(q, x, d), n, now, k, back)
    && forall b :: b in d.released ==> Due(b, now)
  }

  /** A pass releases a prefix of what the line held or got, all of it due; at most the one body behind it changes
      place. */
  lemma {:induction false} DrainShape(q: seq<Body>, x: Lane, n: nat, now: real, turns: seq<Turn>)
    returns (k: nat, back: Option<nat>)
    ensures HasShape(q, x, n, now, turns, k, back)
    decreases n
  {
    hide HasShape, LineFor, LineAfter, Due;
    k, back := 0, None;
    var line := LineFor(q, x, First(turns));
    if n > 0 && line != [] && Due(line[0], now) {
      k, back := DrainShape(LineAfter(line, x, now, First(turns)), x, n - 1, now, Later(turns));
      ShapeUnfolds(q, x, n, now, turns, k, back);
      k := k + 1;
    } else if n > 0 && line != [] {
      back := Some(|AskedAll(First(turns).after, x.from)|);
      ShapeStops(q, x, n, now, turns);
    } else {
      ShapeEnds(q, x, n, now, turns);
    }
  }

  lemma ShapeEnds(q: seq<Body>, x: Lane, n: nat, now: real, turns: seq<Turn>)
    requires n == 0 || LineFor(q, x, First(turns)) == []
    ensures HasShape(q, x, n, now, turns, 0, None)
  {
    hide Due, LineAfter, AskedAll;
    NothingAsked(x.from);
    assert q + [] == q;
  }

  lemma ShapeUnfolds(q: seq<Body>, x: Lane, n: nat, now: real, turns: seq<Turn>, k: nat, back: Option<nat>)
    requires n > 0 && var line := LineFor(q, x, First(turns));
             && line != [] && Due(line[0], now)
             && HasShape(LineAfter(line, x, now, First(turns)), x, n - 1, now, Later(turns), k, back)
    ensures HasShape(q, x, n, now, turns, k + 1, back)
  {
    hide AskedAll, MainAfter, IsSplit, EndsRightly, Due;
    var t := First(turns);
    var line := LineFor(q, x, t);
    var next := LineAfter(line, x, now, t);
    var d, e := Drain(q, x, n, now, turns), Drain(next, x, n - 1, now, Later(turns));
    AskedInTurn(t, x.from);
    AskedJoin(t.All(), e.others, x.from);
    FullUnfolds(q, line, AskedAll(t.before, x.from), AskedAll(t.during, x.from), AskedAll(t.after, x.from),
                AskedAll(e.others, x.from), next);
    assert Full(q, x, d) == [line[0]] + Full(next, x, e);
    SplitUnfolds(line[0], Full(next, x, e), e, d, k, back);
    EndsUnfolds(q, next, line[0], Full(next, x, e), n - 1, now, k, back);
    ReleasedDue(line[0], e.released, now);
  }

  lemma ShapeStops(q: seq<Body>, x: Lane, n: nat, now: real, turns: seq<Turn>)
    requires n > 0 && var line := LineFor(q, x, First(turns));
             line != [] && !Due(line[0], now)
    ensures HasShape(q, x, n, now, turns, 0, Some(|AskedAll(First(turns).after, x.from)|))
  {
    hide AskedAll, MainAfter;
    var t := First(turns);
    AskedInTurn(t, x.from);
    StopSplits(q, LineFor(q, x, t), AskedAll(t.before, x.from), AskedAll(t.during, x.from),
               AskedAll(t.after, x.from));
  }

  lemma NothingAsked(topic: string)
    ensures AskedAll([], topic) == []
  {
  }

  lemma ReleasedDue(h: Body, released: seq<Body>, now: real)
    requires Due(h, now) && forall b :: b in released ==> Due(b, now)
    ensures forall b :: b in [h] + released ==> Due(b, now)
  {
  }

  lemma FullUnfolds(q: seq<Body>, line: seq<Body>, a: seq<Body>, b: seq<Body>, c: seq<Body>, later: seq<Body>,
                    next: seq<Body>)
    requires line == q + a && line != [] && next == line[1..] + b + [] + c
    ensures q + (a + (b + c) + later) == [line[0]] + (next + later)
    ensures |q| <= 1 + |next|
  {
    assert line == [line[0]] + line[1..];
  }

  lemma SplitUnfolds(h: Body, full: seq<Body>, e: Drained, d: Drained, k: nat, back: Option<nat>)
    requires IsSplit(full, e, k, back) && d.released == [h] + e.released && d.rest == e.rest
    ensures IsSplit([h] + full, d, k + 1, back)
  {
    var all := [h] + full;
    assert all[..k + 1] == [h] + full[..k];
    assert all[k + 1..] == full[k..];
    if back.Some? {
      var j := back.value;
      assert all[k + 2..|all| - j] == full[k + 1..|full| - j];
      assert all[|all| - j..] == full[|full| - j..];
    }
  }

  lemma EndsUnfolds(q: seq<Body>, next: seq<Body>, h: Body, full: seq<Body>, n: nat, now: real, k: nat,
                    back: Option<nat>)
    requires k <= |full| && (back.Some? ==> k + 1 + back.value <= |full|)
    requires EndsRightly(next, full, n, now, k, back) && |q| <= 1 + |next|
    ensures EndsRightly(q, [h] + full, n + 1, now, k + 1, back)
  {
  }

  lemma StopSplits(q: seq<Body>, line: seq<Body>, a: seq<Body>, b: seq<Body>, c: seq<Body>)
    requires line == q + a && line != []
    ensures var full := q + (a + (b + c));
            && full[..0] == [] && full[0] == line[0] && |q| <= |full| - |c|
            && line[1..] + b + [line[0]] + c == full[1..|full| - |c|] + [full[0]] + full[|full| - |c|..]
  {
    var full := q + (a + (b + c));
    assert full == line + b + c;
    assert full[1..|full| - |c|] == line[1..] + b;
    assert full[|full| - |c|..] == c;
  }

  /** Nothing is lost, duplicated or altered, and nothing leaves early. */
  lemma DrainConserves(q: seq<Body>, x: Lane, n: nat, now: real, turns: seq<Turn>)
    ensures var d := Drain(q, x, n, now, turns);
            && multiset(d.released) + multiset(d.rest) == multiset(q) + multiset(AskedAll(d.others, x.from))
            && forall b :: b in d.released ==> Due(b, now)
  {
    hide AskedAll, Drain;
    var k, back := DrainShape(q, x, n, now, turns);
    var d := Drain(q, x, n, now, turns);
    SplitConserves(Full(q, x, d), d, k, back);
  }

  lemma SplitConserves(full: seq<Body>, d: Drained, k: nat, back: Option<nat>)
    requires IsSplit(full, d, k, back)
    ensures multiset(d.released) + multiset(d.rest) == multiset(full)
  {
    match back
    case None => assert full == full[..k] + full[k..];
    case Some(j) =>
      hide IsSplit;
      var h, middle, end := SplitParts(full, d, k, j);
      MoveConserves(d.released, h, middle, end);
  }

  lemma SplitParts(full: seq<Body>, d: Drained, k: nat, j: nat) returns (h: Body, middle: seq<Body>, end: seq<Body>)
    requires IsSplit(full, d, k, Some(j))
    ensures full == d.released + ([h] + (middle + end)) && d.rest == middle + [h] + end
  {
    h, middle, end := full[k], full[k + 1..|full| - j], full[|full| - j..];
  }

  lemma MoveConserves(front: seq<Body>, h: Body, middle: seq<Body>, end: seq<Body>)
    ensures multiset(front) + multiset(middle + [h] + end) == multiset(front + ([h] + (middle + end)))
  {
  }

  /** The main log gains one tagged copy of every released body and what others publish there meanwhile, no more. */
  lemma {:induction false} AddedConserves(q: seq<Body>, x: Lane, n: nat, now: real, turns: seq<Turn>)
    ensures var d := Drain(q, x, n, now, turns);
            multiset(d.added) == multiset(TagAll(d.released, x.from)) + multiset(AskedAll(d.others, x.main))
    decreases n
  {
    hide AskedAll, LineAfter, MainAfter, TagAll, Tagged, Due;
    var t := First(turns);
    var line := LineFor(q, x, t);
    NothingTagged(x.from);
    NothingAsked(x.main);
    if n > 0 && line != [] {
      MainGains(line[0], x, now, t);
      if Due(line[0], now) {
        AddedConserves(LineAfter(line, x, now, t), x, n - 1, now, Later(turns));
        var e := Drain(LineAfter(line, x, now, t), x, n - 1, now, Later(turns));
        AskedJoin(t.All(), e.others, x.main);
        TagJoins(line[0], e.released, x.from);
        GainsAdd(MainAfter(line[0], x, now, t), e.added, Tagged(line[0], x.from), TagAll(e.released, x.from),
                 AskedAll(t.All(), x.main), AskedAll(e.others, x.main));
      }
    }
  }

  lemma GainsAdd(gain: seq<Body>, added: seq<Body>, h: Body, sent: seq<Body>, asked: seq<Body>, others: seq<Body>)
    requires multiset(gain) == multiset(asked) + multiset{h} && multiset(added) == multiset(sent) + multiset(others)
    ensures multiset(gain + added) == multiset([h] + sent) + multiset(asked + others)
  {
  }

  lemma NothingTagged(from: string)
    ensures TagAll([], from) == []
  {
  }

  lemma TagJoins(h: Body, bs: seq<Body>, from: string)
    ensures TagAll([h] + bs, from) == [Tagged(h, from)] + TagAll(bs, from)
  {
  }

  lemma MainGains(h: Body, x: Lane, now: real, t: Turn)
    ensures multiset(MainAfter(h, x, now, t)) ==
            multiset(AskedAll(t.All(), x.main)) + if Due(h, now) then multiset{Tagged(h, x.from)} else multiset{}
  {
    hide AskedAll, Due;
    AskedInTurn(t, x.main);
  }

  /** Whatever a pass adds to the main log that others did not publish is a released body, sent on unaltered. */
  lemma NothingElseIsAdded(q: seq<Body>, x: Lane, n: nat, now: real, turns: seq<Turn>, b: Body)
    requires b in Drain(q, x, n, now, turns).added
    ensures var d := Drain(q, x, n, now, turns);
            b in AskedAll(d.others, x.main) || exists r :: r in d.released && Republishes(b, r, x.from)
  {
    hide AskedAll, Drain;
    var d := Drain(q, x, n, now, turns);
    AddedConserves(q, x, n, now, turns);
    assert b in multiset(d.added);
    var sent := TagAll(d.released, x.from);
    if b in multiset(sent) {
      var i :| 0 <= i < |sent| && sent[i] == b;
      assert Republishes(b, d.released[i], x.from);
    }
  }

  /** Every release is an addition to the main log, copy for copy. */
  lemma AddedHasReleased(q: seq<Body>, x: Lane, n: nat, now: real, turns: seq<Turn>, b: Body)
    ensures var d := Drain(q, x, n, now, turns);
            multiset(d.added)[Tagged(b, x.from)] >= multiset(d.released)[b]
  {
    hide AskedAll, Drain;
    AddedConserves(q, x, n, now, turns);
    TagCounts(Drain(q, x, n, now, turns).released, x.from, b);
  }

  lemma {:induction false} TagCounts(bs: seq<Body>, from: string, b: Body)
    ensures multiset(TagAll(bs, from))[Tagged(b, from)] >= multiset(bs)[b]
  {
    if bs != [] {
      TagCounts(bs[1..], from, b);
      TagJoins(bs[0], bs[1..], from);
      assert bs == [bs[0]] + bs[1..];
    }
  }

  /** If nobody interferes, a pass adds exactly what it releases, in order. */
  lemma {:induction false} QuietPass(q: seq<Body>, x: Lane, n: nat, now: real, none: seq<Turn>)
    requires none == []
    ensures var d := Drain(q, x, n, now, none); d.added == TagAll(d.released, x.from) && d.others == []
    decreases n
  {
    if n > 0 {
      var line := LineFor(q, x, First(none));
      if line != [] && Due(line[0], now) {
        var next := LineAfter(line, x, now, First(none));
        QuietPass(next, x, n - 1, now, Later(none));
        var d := Drain(next, x, n - 1, now, Later(none));
        assert TagAll([line[0]] + d.released, x.from) == [Tagged(line[0], x.from)] + TagAll(d.released, x.from);
      }
    }
  }

  // ---- series of cycles ------------------------------------------------------------------------

  /** One cycle of the processor on a line: what arrived since the last one, what others do at its awaits, what
      arrives after it, and the time it runs at. */
  datatype Tick = Tick(before: seq<Body>, turns: seq<Turn>, after: seq<Body>, now: real)

  function CycleOf(q: seq<Body>, x: Lane, n: nat, t: Tick): Drained {
    Drain(q + t.before, x, n, t.now, t.turns)
  }

  function Next(q: seq<Body>, x: Lane, n: nat, t: Tick): seq<Body> {
    CycleOf(q, x, n, t).rest + t.after
  }

  /** Everything released over a series of cycles. */
  function Released(q: seq<Body>, x: Lane, n: nat, ticks: seq<Tick>): seq<Body>
    decreases |ticks|
  {
    if ticks == [] then []
    else CycleOf(q, x, n, ticks[0]).released + Released(Next(q, x, n, ticks[0]), x, n, ticks[1..])
  }

  function Remaining(q: seq<Body>, x: Lane, n: nat, ticks: seq<Tick>): seq<Body>
    decreases |ticks|
  {
    if ticks == [] then q else Remaining(Next(q, x, n, ticks[0]), x, n, ticks[1..])
  }

  /** Everything that joined the line over the series, between its cycles or within them. */
  function Arrived(q: seq<Body>, x: Lane, n: nat, ticks: seq<Tick>): seq<Body>
    decreases |ticks|
  {
    if ticks == [] then []
    else
      ticks[0].before + AskedAll(CycleOf(q, x, n, ticks[0]).others, x.from) + ticks[0].after
      + Arrived(Next(q, x, n, ticks[0]), x, n, ticks[1..])
  }

  /** Over any series of cycles, whatever the clock and the others do: released plus waiting is what there was plus
      what came. */
  lemma {:induction false} CyclesConserve(q: seq<Body>, x: Lane, n: nat, ticks: seq<Tick>)
    ensures multiset(Released(q, x, n, ticks)) + multiset(Remaining(q, x, n, ticks)) ==
            multiset(q) + multiset(Arrived(q, x, n, ticks))
    decreases |ticks|
  {
    hide AskedAll, Drain;
    if ticks != [] {
      var t, next := ticks[0], Next(q, x, n, ticks[0]);
      var d := CycleOf(q, x, n, t);
      DrainConserves(q + t.before, x, n, t.now, t.turns);
      CyclesConserve(next, x, n, ticks[1..]);
      Balance(multiset(d.released), multiset(d.rest), multiset(q), multiset(t.before),
              multiset(AskedAll(d.others, x.from)), multiset(t.after), multiset(Released(next, x, n, ticks[1..])),
              multiset(Remaining(next, x, n, ticks[1..])), multiset(Arrived(next, x, n, ticks[1..])));
    }
  }

  lemma Balance(released: multiset<Body>, rest: multiset<Body>, q: multiset<Body>, before: multiset<Body>,
                during: multiset<Body>, after: multiset<Body>, later: multiset<Body>, remaining: multiset<Body>,
                arriving: multiset<Body>)
    requires released + rest == (q + before) + during && later + remaining == (rest + after) + arriving
    ensures released + later + remaining == q + (before + during + after + arriving)
  {
    forall b ensures (released + later + remaining)[b] == (q + (before + during + after + arriving))[b] {
      assert (released + rest)[b] == ((q + before) + during)[b];
      assert (later + remaining)[b] == ((rest + after) + arriving)[b];
    }
  }

  /**
   * A body is released after at most one cycle for each place in the line: of the `b`s among the first
   * `p` bodies, as many come out in `p` cycles at times when `b` is due.
   */
  lemma {:induction false} DueIsReleased(q: seq<Body>, x: Lane, n: nat, ticks: seq<Tick>, p: nat, b: Body)
    requires n > 0 && p <= |q| && p <= |ticks|
    requires forall i :: 0 <= i < |ticks| ==> Due(b, ticks[i].now)
    ensures multiset(Released(q, x, n, ticks))[b] >= multiset(q[..p])[b]
    decreases |ticks|
  {
    hide Drain;
    if p > 0 {
      var t, d := ticks[0], CycleOf(q, x, n, ticks[0]);
      var p' := OneCycle(q + t.before, x, n, t.now, t.turns, p, b);
      assert (q + t.before)[..p] == q[..p];
      assert (d.rest + t.after)[..p'] == d.rest[..p'];
      DueIsReleased(Next(q, x, n, t), x, n, ticks[1..], p', b);
    }
  }

  /** One cycle brings the first `p` bodies at least one place closer, less those released. */
  lemma OneCycle(line: seq<Body>, x: Lane, n: nat, now: real, turns: seq<Turn>, p: nat, b: Body) returns (p': nat)
    requires n > 0 && 0 < p <= |line| && Due(b, now)
    ensures var d := Drain(line, x, n, now, turns);
            && p' < p && p' <= |d.rest|
            && multiset(d.released)[b] + multiset(d.rest[..p'])[b] >= multiset(line[..p])[b]
  {
    hide Drain, AskedAll;
    var k, back := DrainShape(line, x, n, now, turns);
    var d := Drain(line, x, n, now, turns);
    var full := Full(line, x, d);
    p' := if k >= p then 0 else p - k - if back.Some? then 1 else 0;
    assert full[..p] == line[..p];
    SplitKeeps(full, d, k, back, p, b, p');
  }

  lemma SplitKeeps(full: seq<Body>, d: Drained, k: nat, back: Option<nat>, p: nat, b: Body, p': nat)
    requires IsSplit(full, d, k, back) && p <= |full|
    requires back.Some? ==> full[k] != b && p <= |full| - back.value
    requires p' == if k >= p then 0 else p - k - if back.Some? then 1 else 0
    ensures p' <= |d.rest| && multiset(d.released)[b] + multiset(d.rest[..p'])[b] >= multiset(full[..p])[b]
  {
    if k >= p {
      Cut(full, p, k, b);
    } else {
      Cut(full, k, p, b);
      match back
      case None => assert d.rest[..p'] == full[k..p];
      case Some(_) =>
        assert d.rest[..p'] == full[k + 1..p];
        NotFirst(full[k..p], full[k + 1..p], b);
    }
  }

  lemma Cut(s: seq<Body>, i: nat, j: nat, b: Body)
    requires i <= j <= |s|
    ensures multiset(s[..j])[b] == multiset(s[..i])[b] + multiset(s[i..j])[b]
  {
    assert s[..j] == s[..i] + s[i..j];
  }

  lemma NotFirst(s: seq<Body>, rest: seq<Body>, b: Body)
    requires s != [] && s[0] != b && rest == s[1..]
    ensures multiset(s)[b] == multiset(rest)[b]
  {
    assert s == [s[0]] + rest;
  }

  // ---- whole runs ---------------------------------------------------------------------------------

  /** The main topic, the two retry topics feeding it, and the processor's group. */
  datatype Wiring = Wiring(main: string, first: string, second: string, group: string) {
    function One(): Lane {
      Lane(main, first, group)
    }

    function Two(): Lane {
      Lane(main, second, group)
    }

    function LaneOf(topic: string): Lane {
      Lane(main, topic, group)
    }
  }

  predicate Sound(x: Wiring) {
    && Plain(x.main) && Plain(x.first) && Plain(x.second) && Plain(x.group)
    && x.first != x.second && x.main !in {x.first, x.second}
  }

  const WIRING := Wiring(MAIN_TOPIC, RETRY_1_TOPIC, RETRY_2_TOPIC, GROUP_ID)

  lemma WiringIsSound()
    ensures Sound(WIRING)
  {
    TopicNames();
  }

  /** What everybody else does before a run of the processor and at the awaits of its two passes, and when it runs. */
  datatype Round = Round(calls: seq<Call>, one: seq<Turn>, two: seq<Turn>, now: real)

  /** Nobody else polls either retry topic under the processor's group name. */
  predicate Polite(x: Wiring, r: Round) {
    && LeavesAlone(r.calls, x.first, x.group) && LeavesAlone(r.calls, x.second, x.group)
    && AllLeaveAlone(r.one, x.first, x.group) && AllLeaveAlone(r.one, x.second, x.group)
    && AllLeaveAlone(r.two, x.first, x.group) && AllLeaveAlone(r.two, x.second, x.group)
  }

  function FirstPass(s: State, x: Wiring, n: nat, r: Round): Pass {
    PassOver(s, x.One(), n, r.now, r.one)
  }

  function SecondPass(s: State, x: Wiring, n: nat, r: Round): Pass {
    PassOver(FirstPass(s, x, n, r).state, x.Two(), n, r.now, r.two)
  }

  function FirstDrain(s: State, x: Wiring, n: nat, r: Round): Drained {
    Drain(Waiting(s, x.first, x.group), x.One(), n, r.now, r.one)
  }

  /** The second pass finds what others have added to its line during the first. */
  function SecondDrain(s: State, x: Wiring, n: nat, r: Round): Drained {
    Drain(Waiting(s, x.second, x.group) + AskedAll(FirstDrain(s, x, n, r).others, x.second), x.Two(), n, r.now, r.two)
  }

  /** A whole run: each retry line drains, and the main topic's log gains what the two passes add. */
  lemma BothLines(s: State, x: Wiring, n: nat, r: Round)
    requires Sound(x) && Polite(x, r)
    ensures var d, e := FirstDrain(s, x, n, r), SecondDrain(s, x, n, r);
            var end := SecondPass(s, x, n, r).state;
            && FirstPass(s, x, n, r).count + SecondPass(s, x, n, r).count == |d.released| + |e.released|
            && Waiting(end, x.first, x.group) == d.rest + AskedAll(e.others, x.first)
            && Waiting(end, x.second, x.group) == e.rest
            && Bodies(LogOf(end, x.main)) == Bodies(LogOf(s, x.main)) + d.added + e.added
  {
    hide PassOver, Drain, Waiting, AskedAll, LogOf;
    PassDrains(s, x.One(), n, r.now, r.one);
    PassKeepsOthers(s, x.One(), n, r.now, r.one, x.second);
    var mid := FirstPass(s, x, n, r).state;
    PassDrains(mid, x.Two(), n, r.now, r.two);
    PassKeepsOthers(mid, x.Two(), n, r.now, r.two, x.first);
  }

  /** The processor's own topics: both lines drain, the count is the number released, and if nobody interferes the
      main topic gains exactly what was released, in order and tagged. */
  lemma RetryLinesDrain(s: State, n: nat, r: Round)
    requires Polite(WIRING, r)
    ensures var d, e := FirstDrain(s, WIRING, n, r), SecondDrain(s, WIRING, n, r);
            var end := SecondPass(s, WIRING, n, r).state;
            && FirstPass(s, WIRING, n, r).count + SecondPass(s, WIRING, n, r).count == |d.released| + |e.released|
            && Waiting(end, WIRING.first, WIRING.group) == d.rest + AskedAll(e.others, WIRING.first)
            && Waiting(end, WIRING.second, WIRING.group) == e.rest
            && Bodies(LogOf(end, WIRING.main)) == Bodies(LogOf(s, WIRING.main)) + d.added + e.added
            && (r.one == [] ==> d.added == TagAll(d.released, WIRING.first))
            && (r.two == [] ==> e.added == TagAll(e.released, WIRING.second))
  {
    WiringIsSound();
    BothLines(s, WIRING, n, r);
    QuietPasses(s, WIRING, n, r);
  }

  lemma QuietPasses(s: State, x: Wiring, n: nat, r: Round)
    ensures r.one == [] ==> FirstDrain(s, x, n, r).added == TagAll(FirstDrain(s, x, n, r).released, x.first)
    ensures r.two == [] ==> SecondDrain(s, x, n, r).added == TagAll(SecondDrain(s, x, n, r).released, x.second)
  {
    hide Drain;
    if r.one == [] {
      QuietPass(Waiting(s, x.first, x.group), x.One(), n, r.now, r.one);
    }
    if r.two == [] {
      QuietPass(Waiting(s, x.second, x.group) + AskedAll(FirstDrain(s, x, n, r).others, x.second), x.Two(), n, r.now,
                r.two);
    }
  }

  function AfterRound(s: State, x: Wiring, n: nat, r: Round): State {
    SecondPass(AfterCalls(s, r.calls), x, n, r).state
  }

  function AfterRounds(s: State, x: Wiring, n: nat, rounds: seq<Round>): State
    decreases |rounds|
  {
    if rounds == [] then s else AfterRounds(AfterRound(s, x, n, rounds[0]), x, n, rounds[1..])
  }

  /** A round as one of the two retry lines sees it. */
  function TickOf(s: State, x: Wiring, n: nat, r: Round, topic: string): Tick {
    var t := AfterCalls(s, r.calls);
    if topic == x.first then
      Tick(AskedAll(r.calls, topic), r.one, AskedAll(SecondDrain(t, x, n, r).others, topic), r.now)
    else
      Tick(AskedAll(r.calls, topic) + AskedAll(FirstDrain(t, x, n, r).others, topic), r.two, [], r.now)
  }

  function Ticks(s: State, x: Wiring, n: nat, rounds: seq<Round>, topic: string): (r: seq<Tick>)
    ensures |r| == |rounds| && forall i :: 0 <= i < |r| ==> r[i].now == rounds[i].now
    decreases |rounds|
  {
    if rounds == [] then []
    else
      [TickOf(s, x, n, rounds[0], topic)] + Ticks(AfterRound(s, x, n, rounds[0]), x, n, rounds[1..], topic)
  }

  /** The cycle that a round is for one of the two lines. */
  function CycleIn(s: State, x: Wiring, n: nat, r: Round, topic: string): Drained {
    CycleOf(Waiting(s, topic, x.group), x.LaneOf(topic), n, TickOf(s, x, n, r, topic))
  }

  /** How often `b` has been published to the topic. */
  function Copies(s: State, topic: string, b: Body): nat {
    multiset(Bodies(LogOf(s, topic)))[b]
  }

  lemma RoundDrains(s: State, x: Wiring, n: nat, r: Round, topic: string)
    requires Sound(x) && Polite(x, r) && topic in {x.first, x.second}
    ensures Waiting(AfterRound(s, x, n, r), topic, x.group) ==
            Next(Waiting(s, topic, x.group), x.LaneOf(topic), n, TickOf(s, x, n, r, topic))
    ensures CycleIn(s, x, n, r, topic) ==
            if topic == x.first then FirstDrain(AfterCalls(s, r.calls), x, n, r)
            else SecondDrain(AfterCalls(s, r.calls), x, n, r)
  {
    hide PassOver, Drain, Waiting, AskedAll, LogOf, AfterCalls;
    var t := AfterCalls(s, r.calls);
    CallsOnlyAppend(s, r.calls, topic, x.group);
    BothLines(t, x, n, r);
    if topic == x.second {
      Regroup(Waiting(s, topic, x.group), AskedAll(r.calls, topic), AskedAll(FirstDrain(t, x, n, r).others, topic));
      assert SecondDrain(t, x, n, r).rest + [] == SecondDrain(t, x, n, r).rest;
    }
  }

  lemma RoundAdds(s: State, x: Wiring, n: nat, r: Round, topic: string, b: Body)
    requires Sound(x) && Polite(x, r) && topic in {x.first, x.second}
    ensures Copies(AfterRound(s, x, n, r), x.main, Tagged(b, topic)) >=
            Copies(s, x.main, Tagged(b, topic)) + multiset(CycleIn(s, x, n, r, topic).released)[b]
  {
    hide PassOver, Drain, Waiting, AskedAll, LogOf, AfterCalls;
    var t := AfterCalls(s, r.calls);
    CallsGrowLog(s, r.calls, x.main);
    BothLines(t, x, n, r);
    RoundDrains(s, x, n, r, topic);
    AddedHasReleased(Waiting(t, x.first, x.group), x.One(), n, r.now, r.one, b);
    AddedHasReleased(Waiting(t, x.second, x.group) + AskedAll(FirstDrain(t, x, n, r).others, x.second), x.Two(), n,
                     r.now, r.two, b);
  }

  /**
   * Any number of runs, with others using the broker between them and at every await within them: a retry line is
   * what the series of cycles leaves of it.
   */
  lemma {:induction false} RoundsDrain(s: State, x: Wiring, n: nat, rounds: seq<Round>, topic: string)
    requires Sound(x) && topic in {x.first, x.second}
    requires forall i :: 0 <= i < |rounds| ==> Polite(x, rounds[i])
    ensures Waiting(AfterRounds(s, x, n, rounds), topic, x.group) ==
            Remaining(Waiting(s, topic, x.group), x.LaneOf(topic), n, Ticks(s, x, n, rounds, topic))
    decreases |rounds|
  {
    hide AfterRound, Next, Waiting, TickOf;
    if rounds != [] {
      RoundDrains(s, x, n, rounds[0], topic);
      var next := AfterRound(s, x, n, rounds[0]);
      RoundsDrain(next, x, n, rounds[1..], topic);
      assert Ticks(s, x, n, rounds, topic)[1..] == Ticks(next, x, n, rounds[1..], topic);
    }
  }

  /** And every copy the cycles released has been added to the main topic's log. */
  lemma {:induction false} RoundsAdd(s: State, x: Wiring, n: nat, rounds: seq<Round>, topic: string, b: Body)
    requires Sound(x) && topic in {x.first, x.second}
    requires forall i :: 0 <= i < |rounds| ==> Polite(x, rounds[i])
    ensures Copies(AfterRounds(s, x, n, rounds), x.main, Tagged(b, topic)) >=
            Copies(s, x.main, Tagged(b, topic))
            + multiset(Released(Waiting(s, topic, x.group), x.LaneOf(topic), n, Ticks(s, x, n, rounds, topic)))[b]
    decreases |rounds|
  {
    hide AfterRound, Next, Waiting, TickOf, Copies, CycleOf;
    if rounds != [] {
      RoundDrains(s, x, n, rounds[0], topic);
      RoundAdds(s, x, n, rounds[0], topic, b);
      var next := AfterRound(s, x, n, rounds[0]);
      RoundsAdd(next, x, n, rounds[1..], topic, b);
      assert Ticks(s, x, n, rounds, topic)[1..] == Ticks(next, x, n, rounds[1..], topic);
    }
  }

  /**
   * Punctuality end to end. The body at position p of a retry line is due at the times of the next p + 1 runs:
   * then as many copies of it as stand in the first p + 1 places, so at least one, are added to the main topic's
   * log by the end of them, whatever others publish, poll, register or commit between the runs and within them.
   */
  lemma RetryIsPunctual(s: State, n: nat, rounds: seq<Round>, topic: string, p: nat)
    requires topic in {"payment.events.retry.1", "payment.events.retry.2"} && n > 0
    requires forall i :: 0 <= i < |rounds| ==> Polite(WIRING, rounds[i])
    requires p < |Waiting(s, topic, WIRING.group)| && p < |rounds|
    requires forall i :: 0 <= i < |rounds| ==> Due(Waiting(s, topic, WIRING.group)[p], rounds[i].now)
    ensures var q := Waiting(s, topic, WIRING.group);
            && multiset(q[..p + 1])[q[p]] >= 1
            && var h := q[p].headers;
               var sent := Body(q[p].key, q[p].value,
                                Headers(h.retryCount, h.retryAt, h.other["x-republished-from" := topic]));
               Copies(AfterRounds(s, WIRING, n, rounds), "payment.events", sent) >=
               Copies(s, "payment.events", sent) + multiset(q[..p + 1])[q[p]]
  {
    WiringIsSound();
    PunctualIn(s, WIRING, n, rounds, topic, p);
  }

  lemma PunctualIn(s: State, x: Wiring, n: nat, rounds: seq<Round>, topic: string, p: nat)
    requires Sound(x) && topic in {x.first, x.second} && n > 0
    requires forall i :: 0 <= i < |rounds| ==> Polite(x, rounds[i])
    requires p < |Waiting(s, topic, x.group)| && p < |rounds|
    requires forall i :: 0 <= i < |rounds| ==> Due(Waiting(s, topic, x.group)[p], rounds[i].now)
    ensures var q := Waiting(s, topic, x.group);
            && multiset(q[..p + 1])[q[p]] >= 1
            && Copies(AfterRounds(s, x, n, rounds), x.main, Tagged(q[p], topic)) >=
               Copies(s, x.main, Tagged(q[p], topic)) + multiset(q[..p + 1])[q[p]]
  {
    hide Waiting, AfterRounds, Copies, Released, Due;
    var b := Waiting(s, topic, x.group)[p];
    AmongFirst(Waiting(s, topic, x.group), p);
    DueIsReleased(Waiting(s, topic, x.group), x.LaneOf(topic), n, Ticks(s, x, n, rounds, topic), p + 1, b);
    RoundsAdd(s, x, n, rounds, topic, b);
  }

  lemma AmongFirst(q: seq<Body>, p: nat)
    requires p < |q|
    ensures multiset(q[..p + 1])[q[p]] >= 1
  {
    assert q[..p + 1][p] == q[p];
    assert q[p] in multiset(q[..p + 1]);
  }

  // ---- a message's whole life ------------------------------------------------------------

  /** The delay is kept to the instant, and no failure touches a message's key or value. */
  lemma DelayIsKept(m: Message, f: Failure, now: real)
    ensures Routed(m, f).key == m.body.key && Routed(m, f).value == m.body.value
    ensures Destination(m.body.headers, f.isMalformed) == Some(FirstRetry) ==>
              (Due(Routed(m, f), now) <==> now - f.now >= if f.backoff.Some? then f.backoff.value else 10.0)
    ensures Destination(m.body.headers, f.isMalformed) == Some(SecondRetry) ==>
              (Due(Routed(m, f), now) <==> now - f.now >= if f.backoff.Some? then f.backoff.value else 30.0)
  {
  }

  /** What is published where, header by header. */
  lemma RoutedMeans(m: Message, f: Failure)
    ensures var r, h, g := Routed(m, f), m.body.headers, Routed(m, f).headers;
            var tried := if h.retryCount.Count? then h.retryCount.n else 0;
            match Destination(h, f.isMalformed)
            case None => !f.isMalformed && h.retryCount == UnreadableCount
            case Some(FirstRetry) =>
              && !f.isMalformed && tried == 0 && FirstRetry.Topic() == "payment.events.retry.1"
              && g.retryCount == Count(1)
              && g.retryAt == Stamp(f.now + if f.backoff.Some? then f.backoff.value else 10.0)
              && g.other == h.other["x-failure-reason" := f.reason]["x-original-topic" := m.topic]
            case Some(SecondRetry) =>
              && !f.isMalformed && tried == 1 && SecondRetry.Topic() == "payment.events.retry.2"
              && g.retryCount == Count(2)
              && g.retryAt == Stamp(f.now + if f.backoff.Some? then f.backoff.value else 30.0)
              && g.other == h.other["x-failure-reason" := f.reason]["x-original-topic" := m.topic]
            case Some(DeadLetter) =>
              && (f.isMalformed || tried !in {0, 1}) && DeadLetter.Topic() == "payment.events.DLQ"
              && g.retryCount == h.retryCount && g.retryAt == h.retryAt
              && g.other ==
                 if f.isMalformed then
                   h.other["x-death-reason" := "MALFORMED_EVENT_SCHEMA"]["x-death-detail" := f.reason]
                          ["x-failed-at" := f.nowText]["x-original-topic" := m.topic]
                 else
                   h.other["x-death-reason" := "EXCEEDED_MAX_RETRIES"]["x-failure-reason" := f.reason]
                          ["x-failed-at" := f.nowText]["x-original-topic" := m.topic]
    ensures Routed(m, f).key == m.body.key && Routed(m, f).value == m.body.value
  {
  }

  /** Where a message goes if handling it fails with each of `failures` in turn, until it is not tried again. */
  function Journey(m: Message, failures: seq<Failure>): seq<Fate>
    decreases |failures|
  {
    if failures == [] then []
    else
      match Destination(m.body.headers, failures[0].isMalformed)
      case None => []
      case Some(DeadLetter) => [DeadLetter]
      case Some(fate) =>
        [fate] + Journey(Message(MAIN_TOPIC, Tagged(Routed(m, failures[0]), fate.Topic()), 0), failures[1..])
  }

  function Tries(c: CountHeader): nat {
    match c
    case NoCount => 2
    case UnreadableCount => 0
    case Count(n) => if n == 0 then 2 else if n == 1 then 1 else 0
  }

  /** Whatever its headers and however handling fails, a message is retried at most twice, and never after its
      burial. */
  lemma {:induction false} AtMostTwoRetries(m: Message, failures: seq<Failure>)
    ensures var j := Journey(m, failures);
            && |j| <= Tries(m.body.headers.retryCount) + 1 <= 3
            && (forall i :: 0 <= i < |j| - 1 ==> j[i] != DeadLetter)
            && (forall i :: Tries(m.body.headers.retryCount) <= i < |j| ==> j[i] == DeadLetter)
    decreases |failures|
  {
    if failures != [] {
      match Destination(m.body.headers, failures[0].isMalformed)
      case Some(FirstRetry) =>
        AtMostTwoRetries(Message(MAIN_TOPIC, Tagged(Routed(m, failures[0]), FirstRetry.Topic()), 0), failures[1..]);
      case Some(SecondRetry) =>
        AtMostTwoRetries(Message(MAIN_TOPIC, Tagged(Routed(m, failures[0]), SecondRetry.Topic()), 0), failures[1..]);
      case _ =>
    }
  }

  /** The stations of a message that parses, by the retry count it starts with. */
  function Stations(c: CountHeader): seq<Fate> {
    match c
    case UnreadableCount => []
    case NoCount => [FirstRetry, SecondRetry, DeadLetter]
    case Count(n) =>
      if n == 0 then [FirstRetry, SecondRetry, DeadLetter] else if n == 1 then [SecondRetry, DeadLetter]
      else [DeadLetter]
  }

  /** A message that parses goes from station to station, one for each failure, and no further than the last. */
  lemma {:induction false} JourneyIsExact(m: Message, failures: seq<Failure>)
    requires forall i :: 0 <= i < |failures| ==> !failures[i].isMalformed
    ensures var stops := Stations(m.body.headers.retryCount);
            Journey(m, failures) == if |failures| < |stops| then stops[..|failures|] else stops
    decreases |failures|
  {
    if failures != [] {
      match Destination(m.body.headers, false)
      case Some(FirstRetry) =>
        JourneyIsExact(Message(MAIN_TOPIC, Tagged(Routed(m, failures[0]), FirstRetry.Topic()), 0), failures[1..]);
      case Some(SecondRetry) =>
        JourneyIsExact(Message(MAIN_TOPIC, Tagged(Routed(m, failures[0]), SecondRetry.Topic()), 0), failures[1..]);
      case _ =>
    }
  }

  /** A fresh message that parses and fails three times waits in each retry topic once, and is then buried. */
  lemma ThirdFailureBuries(m: Message, a: Failure, b: Failure, c: Failure)
    requires CountOf(m.body.headers.retryCount) == Some(0)
    requires !a.isMalformed && !b.isMalformed && !c.isMalformed
    ensures Journey(m, [a, b, c]) == [FirstRetry, SecondRetry, DeadLetter]
  {
    var m1 := Message(MAIN_TOPIC, Tagged(Routed(m, a), FirstRetry.Topic()), 0);
    var m2 := Message(MAIN_TOPIC, Tagged(Routed(m1, b), SecondRetry.Topic()), 0);
    assert [a, b, c][1..] == [b, c] && [b, c][1..] == [c];
    assert Journey(m2, [c]) == [DeadLetter];
    assert Journey(m1, [b, c]) == [SecondRetry] + Journey(m2, [c]);
  }
}
