/**
  The run-scoped agent-to-agent bus: publish/subscribe with per-role receive queues and a
  destructive receive that may pick one topic only.

  `Apply` is one operation on the bus as a value; the class below changes its fields in
  place and is proved against it.  The main results are about every run of operations.
  */
module A2aBus {
  import opened Options

  const MAX_HISTORY := 500

  datatype Message = Message(id: string, senderRole: string, topic: string, targetRole: Option<string>)

  datatype Subscription = Subscription(role: string, instanceId: string, topic: string, receiveBroadcast: bool)

  datatype Bus = Bus(
    subscriptions: map<string, seq<Subscription>>,
    queues: map<string, seq<Message>>,
    history: seq<Message>)

  datatype Op =
    | Publish(message: Message)
    | Subscribe(sub: Subscription)
    | Unsubscribe(role: string, instanceId: string, topic: string)
    | Receive(role: string, filter: Option<string>)

  const EMPTY := Bus(map[], map[], [])

  // ---------- One operation ----------

  function Lookup<T>(m: map<string, seq<T>>, key: string): seq<T> {
    if key in m then m[key] else []
  }

  /** A targeted message goes to the subscriptions of its target role, a broadcast to those
      that take broadcasts. */
  predicate Accepts(sub: Subscription, m: Message) {
    match m.targetRole
    case Some(target) => sub.role == target
    case None => sub.receiveBroadcast
  }

  function Deliver(queues: map<string, seq<Message>>, subs: seq<Subscription>, m: Message): map<string, seq<Message>> {
    if subs == [] then queues
    else
      var before := Deliver(queues, subs[..|subs| - 1], m);
      var sub := subs[|subs| - 1];
      if Accepts(sub, m) then before[sub.role := Lookup(before, sub.role) + [m]] else before
  }

  function Without(subs: seq<Subscription>, role: string, instanceId: string): seq<Subscription> {
    if subs == [] then []
    else
      var s := subs[|subs| - 1];
      Without(subs[..|subs| - 1], role, instanceId) + (if s.role == role && s.instanceId == instanceId then [] else [s])
  }

  predicate Wanted(m: Message, filter: Option<string>) {
    filter.None? || m.topic == filter.value
  }

  /** The messages a receive takes (`taken`) or leaves behind, in queue order. */
  function Pick(queue: seq<Message>, filter: Option<string>, taken: bool): seq<Message> {
    if queue == [] then []
    else
      var m := queue[|queue| - 1];
      Pick(queue[..|queue| - 1], filter, taken) + (if Wanted(m, filter) == taken then [m] else [])
  }

  function Newest(history: seq<Message>): seq<Message> {
    if |history| > MAX_HISTORY then history[|history| - MAX_HISTORY..] else history
  }

  function Apply(b: Bus, op: Op): Bus {
    match op
    case Publish(m) =>
      b.(history := Newest(b.history + [m]), queues := Deliver(b.queues, Lookup(b.subscriptions, m.topic), m))
    case Subscribe(sub) =>
      b.(subscriptions := b.subscriptions[sub.topic := Lookup(b.subscriptions, sub.topic) + [sub]])
    case Unsubscribe(role, instanceId, topic) =>
      var left := Without(Lookup(b.subscriptions, topic), role, instanceId);
      b.(subscriptions := if left == [] then b.subscriptions - {topic} else b.subscriptions[topic := left])
    case Receive(role, filter) =>
      b.(queues := b.queues[role := Pick(Lookup(b.queues, role), filter, false)])
  }

  function Run(b: Bus, ops: seq<Op>): Bus {
    if ops == [] then b else Apply(Run(b, ops[..|ops| - 1]), ops[|ops| - 1])
  }

  // ---------- The ledger of a run ----------

  function Copies(m: Message, role: string, subs: seq<Subscription>): seq<Message> {
    if subs == [] then []
    else
      var s := subs[|subs| - 1];
      Copies(m, role, subs[..|subs| - 1]) + (if s.role == role && Accepts(s, m) then [m] else [])
  }

  /** No later unsubscribe names this subscription. */
  predicate Survives(sub: Subscription, ops: seq<Op>) {
    forall i :: 0 <= i < |ops| ==> ops[i] != Unsubscribe(sub.role, sub.instanceId, sub.topic)
  }

  /** The subscriptions to `topic` that are in force after `ops`, oldest first. */
  function InForce(ops: seq<Op>, topic: string): seq<Subscription> {
    InForceFrom(ops, 0, topic)
  }

  function InForceFrom(ops: seq<Op>, i: nat, topic: string): seq<Subscription>
    requires i <= |ops|
    decreases |ops| - i
  {
    if i == |ops| then []
    else
      var rest := InForceFrom(ops, i + 1, topic);
      if ops[i].Subscribe? && ops[i].sub.topic == topic && Survives(ops[i].sub, ops[i + 1..]) then [ops[i].sub] + rest
      else rest
  }

  /** Every message handed to `role`'s queue, in order: one copy per subscription of the role
      that was in force, and matched, when the message was published. */
  function Delivered(ops: seq<Op>, role: string): seq<Message> {
    if ops == [] then []
    else
      var before, op := ops[..|ops| - 1], ops[|ops| - 1];
      Delivered(before, role)
      + (if op.Publish? then Copies(op.message, role, InForce(before, op.message.topic)) else [])
  }

  /** Everything the receives of `role` have returned, in order. */
  function Received(ops: seq<Op>, role: string): seq<Message> {
    if ops == [] then []
    else
      var before, op := ops[..|ops| - 1], ops[|ops| - 1];
      Received(before, role)
      + (if op.Receive? && op.role == role
         then Pick(Lookup(Run(EMPTY, before).queues, role), op.filter, true) else [])
  }

  function OfTopic(ms: seq<Message>, topic: string): seq<Message> {
    Pick(ms, Some(topic), true)
  }

  function Published(ops: seq<Op>): seq<Message> {
    if ops == [] then []
    else
      var op := ops[|ops| - 1];
      Published(ops[..|ops| - 1]) + (if op.Publish? then [op.message] else [])
  }

  // ---------- Lemmas ----------

  lemma {:induction false} DeliverAppends(queues: map<string, seq<Message>>, subs: seq<Subscription>, m: Message,
                                          role: string)
    ensures Lookup(Deliver(queues, subs, m), role) == Lookup(queues, role) + Copies(m, role, subs)
  {
    if subs != [] {
      DeliverAppends(queues, subs[..|subs| - 1], m, role);
    }
  }

  lemma {:induction false} PickConcat(a: seq<Message>, b: seq<Message>, f: Option<string>, t: bool)
    ensures Pick(a + b, f, t) == Pick(a, f, t) + Pick(b, f, t)
  {
    if b == [] {
      assert a + b == a;
    } else {
      assert (a + b)[..|a + b| - 1] == a + b[..|b| - 1];
      PickConcat(a, b[..|b| - 1], f, t);
    }
  }

  /** Taking some messages out of a queue splits each topic into a prefix and the rest. */
  lemma {:induction false} PickSplitsTopic(q: seq<Message>, f: Option<string>, topic: string)
    ensures OfTopic(Pick(q, f, true), topic) + OfTopic(Pick(q, f, false), topic) == OfTopic(q, topic)
    ensures OfTopic(Pick(q, f, true), topic) == [] || OfTopic(Pick(q, f, false), topic) == []
  {
    if q != [] {
      var m := q[|q| - 1];
      PickSplitsTopic(q[..|q| - 1], f, topic);
      PickConcat(Pick(q[..|q| - 1], f, true), if Wanted(m, f) then [m] else [], Some(topic), true);
      PickConcat(Pick(q[..|q| - 1], f, false), if Wanted(m, f) then [] else [m], Some(topic), true);
      if Wanted(m, Some(topic)) {
        EmptyTopicStays(q[..|q| - 1], f, topic);
      }
    }
  }

  /** The filter treats all messages of one topic alike. */
  lemma {:induction false} EmptyTopicStays(q: seq<Message>, f: Option<string>, topic: string)
    ensures OfTopic(Pick(q, f, !Wanted(Message("", "", topic, None), f)), topic) == []
  {
    if q != [] {
      var m, t := q[|q| - 1], !Wanted(Message("", "", topic, None), f);
      EmptyTopicStays(q[..|q| - 1], f, topic);
      PickConcat(Pick(q[..|q| - 1], f, t), if Wanted(m, f) == t then [m] else [], Some(topic), true);
    }
  }

  lemma {:induction false} PickMultiset(q: seq<Message>, f: Option<string>)
    ensures multiset(Pick(q, f, true)) + multiset(Pick(q, f, false)) == multiset(q)
  {
    if q != [] {
      PickMultiset(q[..|q| - 1], f);
      assert q == q[..|q| - 1] + [q[|q| - 1]];
    }
  }

  lemma {:induction false} PickAll(q: seq<Message>)
    ensures Pick(q, None, true) == q && Pick(q, None, false) == []
  {
    if q != [] {
      PickAll(q[..|q| - 1]);
      assert q == q[..|q| - 1] + [q[|q| - 1]];
    }
  }

  lemma {:induction false} WithoutConcat(a: seq<Subscription>, b: seq<Subscription>, role: string, inst: string)
    ensures Without(a + b, role, inst) == Without(a, role, inst) + Without(b, role, inst)
  {
    if b == [] {
      assert a + b == a;
    } else {
      assert (a + b)[..|a + b| - 1] == a + b[..|b| - 1];
      WithoutConcat(a, b[..|b| - 1], role, inst);
    }
  }

  lemma SurvivesSnoc(sub: Subscription, ops: seq<Op>, op: Op)
    ensures Survives(sub, ops + [op]) <==>
      Survives(sub, ops) && op != Unsubscribe(sub.role, sub.instanceId, sub.topic)
  {
    assert (ops + [op])[|ops|] == op;
    assert forall i :: 0 <= i < |ops| ==> (ops + [op])[i] == ops[i];
  }

  /** What one more operation makes of the subscriptions in force. */
  function After(subs: seq<Subscription>, op: Op, topic: string): seq<Subscription> {
    if op.Unsubscribe? && op.topic == topic then Without(subs, op.role, op.instanceId)
    else if op.Subscribe? && op.sub.topic == topic then subs + [op.sub]
    else subs
  }

  lemma AfterConcat(a: seq<Subscription>, b: seq<Subscription>, op: Op, topic: string)
    ensures After(a + b, op, topic) == (if op.Unsubscribe? then After(a, op, topic) else a) + After(b, op, topic)
  {
    if op.Unsubscribe? && op.topic == topic {
      WithoutConcat(a, b, op.role, op.instanceId);
    } else if op.Subscribe? && op.sub.topic == topic {
      AppendAssociates(a, b, [op.sub]);
    }
  }

  /** A subscription that an earlier operation made, if it is still in force. */
  function Kept(sub: Subscription, ops: seq<Op>): seq<Subscription> {
    if Survives(sub, ops) then [sub] else []
  }

  lemma KeptAfter(sub: Subscription, ops: seq<Op>, op: Op)
    ensures Kept(sub, ops + [op]) == if op.Unsubscribe? then After(Kept(sub, ops), op, sub.topic) else Kept(sub, ops)
  {
    SurvivesSnoc(sub, ops, op);
    assert [sub][..0] == [] && [sub][1..] == [];
    if op.Unsubscribe? && op.topic == sub.topic {
      assert Without([], op.role, op.instanceId) == [];
      assert Without([sub], op.role, op.instanceId)
          == if sub.role == op.role && sub.instanceId == op.instanceId then [] else [sub];
    }
  }

  /** What the operation at `i` adds to the subscriptions in force. */
  function Added(ops: seq<Op>, i: nat, topic: string): seq<Subscription>
    requires i < |ops|
  {
    if ops[i].Subscribe? && ops[i].sub.topic == topic then Kept(ops[i].sub, ops[i + 1..]) else []
  }

  lemma InForceUnfolds(ops: seq<Op>, i: nat, topic: string)
    requires i < |ops|
    ensures InForceFrom(ops, i, topic) == Added(ops, i, topic) + InForceFrom(ops, i + 1, topic)
  {
    assert [] + InForceFrom(ops, i + 1, topic) == InForceFrom(ops, i + 1, topic);
  }

  lemma AddedAfter(ops: seq<Op>, op: Op, i: nat, topic: string)
    requires i < |ops|
    ensures Added(ops + [op], i, topic)
      == if op.Unsubscribe? then After(Added(ops, i, topic), op, topic) else Added(ops, i, topic)
  {
    assert (ops + [op])[i] == ops[i] && (ops + [op])[i + 1..] == ops[i + 1..] + [op];
    if ops[i].Subscribe? && ops[i].sub.topic == topic {
      KeptAfter(ops[i].sub, ops[i + 1..], op);
    }
  }

  lemma InForceAtEnd(ops: seq<Op>, op: Op, topic: string)
    ensures InForceFrom(ops + [op], |ops|, topic) == After([], op, topic)
    ensures InForceFrom(ops, |ops|, topic) == []
  {
    var all := ops + [op];
    InForceUnfolds(all, |ops|, topic);
    assert all[|ops|] == op && all[|ops| + 1..] == [] && InForceFrom(all, |ops| + 1, topic) == [];
  }

  /** One more operation filters the subscriptions in force, or adds one. */
  lemma {:induction false} InForceSnoc(ops: seq<Op>, op: Op, i: nat, topic: string)
    requires i <= |ops|
    ensures InForceFrom(ops + [op], i, topic) == After(InForceFrom(ops, i, topic), op, topic)
    decreases |ops| - i
  {
    if i == |ops| {
      InForceAtEnd(ops, op, topic);
    } else {
      InForceSnoc(ops, op, i + 1, topic);
      InForceUnfolds(ops, i, topic);
      InForceUnfolds(ops + [op], i, topic);
      AddedAfter(ops, op, i, topic);
      AfterConcat(Added(ops, i, topic), InForceFrom(ops, i + 1, topic), op, topic);
    }
  }

  /** The table of subscriptions is what the log of operations says is in force, and a topic
      is listed as active exactly when it has a subscription in force. */
  lemma {:induction false} SubscriptionsAreInForce(ops: seq<Op>, topic: string)
    ensures Lookup(Run(EMPTY, ops).subscriptions, topic) == InForce(ops, topic)
    ensures topic in Run(EMPTY, ops).subscriptions <==> InForce(ops, topic) != []
  {
    if ops != [] {
      var before, op := ops[..|ops| - 1], ops[|ops| - 1];
      assert ops == before + [op];
      SubscriptionsAreInForce(before, topic);
      InForceSnoc(before, op, 0, topic);
    }
  }

  function Handed(before: seq<Op>, op: Op, role: string): seq<Message> {
    if op.Publish? then Copies(op.message, role, InForce(before, op.message.topic)) else []
  }

  /** What the last operation adds to the ledger, and what it does to the queue. */
  lemma LedgerStep(before: seq<Op>, op: Op, role: string)
    returns (r: seq<Message>, q: seq<Message>, d: seq<Message>)
    ensures r == Received(before, role) && q == Lookup(Run(EMPTY, before).queues, role) && d == Delivered(before, role)
    ensures Delivered(before + [op], role) == d + Handed(before, op, role)
    ensures op.Receive? && op.role == role ==>
      && Handed(before, op, role) == []
      && Received(before + [op], role) == r + Pick(q, op.filter, true)
      && Lookup(Run(EMPTY, before + [op]).queues, role) == Pick(q, op.filter, false)
    ensures !(op.Receive? && op.role == role) ==>
      && Received(before + [op], role) == r
      && Lookup(Run(EMPTY, before + [op]).queues, role) == q + Handed(before, op, role)
  {
    r, q, d := Received(before, role), Lookup(Run(EMPTY, before).queues, role), Delivered(before, role);
    var ops := before + [op];
    assert ops[..|ops| - 1] == before && ops[|ops| - 1] == op;
    assert r + [] == r && q + [] == q;
    if op.Publish? {
      var b := Run(EMPTY, before);
      SubscriptionsAreInForce(before, op.message.topic);
      DeliverAppends(b.queues, Lookup(b.subscriptions, op.message.topic), op.message, role);
    }
  }

  lemma AppendAssociates<T>(a: seq<T>, b: seq<T>, c: seq<T>)
    ensures (a + b) + c == a + (b + c)
  {}

  lemma TopicHanded(r: seq<Message>, q: seq<Message>, d: seq<Message>, handed: seq<Message>, topic: string)
    requires OfTopic(r, topic) + OfTopic(q, topic) == OfTopic(d, topic)
    ensures OfTopic(r, topic) + OfTopic(q + handed, topic) == OfTopic(d + handed, topic)
  {
    PickConcat(q, handed, Some(topic), true);
    PickConcat(d, handed, Some(topic), true);
    AppendAssociates(OfTopic(r, topic), OfTopic(q, topic), OfTopic(handed, topic));
  }

  lemma TopicTaken(r: seq<Message>, q: seq<Message>, d: seq<Message>, f: Option<string>, topic: string)
    requires OfTopic(r, topic) + OfTopic(q, topic) == OfTopic(d, topic)
    ensures OfTopic(r + Pick(q, f, true), topic) + OfTopic(Pick(q, f, false), topic) == OfTopic(d + [], topic)
  {
    assert d + [] == d;
    PickConcat(r, Pick(q, f, true), Some(topic), true);
    PickSplitsTopic(q, f, topic);
    AppendAssociates(OfTopic(r, topic), OfTopic(Pick(q, f, true), topic), OfTopic(Pick(q, f, false), topic));
  }

  // ---------- Main results ----------

  /** Conservation and order: for every role and topic, what was received followed by what is
      still queued is what was delivered, in order. */
  lemma {:induction false} Conservation(ops: seq<Op>, role: string, topic: string)
    ensures OfTopic(Received(ops, role), topic) + OfTopic(Lookup(Run(EMPTY, ops).queues, role), topic)
         == OfTopic(Delivered(ops, role), topic)
  {
    if ops != [] {
      var before, op := ops[..|ops| - 1], ops[|ops| - 1];
      assert ops == before + [op];
      Conservation(before, role, topic);
      var r, q, d := LedgerStep(before, op, role);
      if op.Receive? && op.role == role {
        TopicTaken(r, q, d, op.filter, topic);
      } else {
        TopicHanded(r, q, d, Handed(before, op, role), topic);
      }
    }
  }

  /** Nothing is lost or duplicated across topics either. */
  lemma {:induction false} NothingLost(ops: seq<Op>, role: string)
    ensures multiset(Received(ops, role)) + multiset(Lookup(Run(EMPTY, ops).queues, role))
         == multiset(Delivered(ops, role))
  {
    if ops != [] {
      var before, op := ops[..|ops| - 1], ops[|ops| - 1];
      assert ops == before + [op];
      NothingLost(before, role);
      var r, q, d := LedgerStep(before, op, role);
      if op.Receive? && op.role == role {
        PickMultiset(q, op.filter);
      }
    }
  }

  /** A role that never filters by topic receives across topics in delivery order. */
  lemma {:induction false} UnfilteredIsFifo(ops: seq<Op>, role: string)
    requires forall i :: 0 <= i < |ops| && ops[i].Receive? && ops[i].role == role ==> ops[i].filter.None?
    ensures Received(ops, role) + Lookup(Run(EMPTY, ops).queues, role) == Delivered(ops, role)
  {
    if ops != [] {
      var before, op := ops[..|ops| - 1], ops[|ops| - 1];
      assert ops == before + [op];
      assert forall i :: 0 <= i < |before| ==> before[i] == ops[i];
      UnfilteredIsFifo(before, role);
      var r, q, d := LedgerStep(before, op, role);
      if op.Receive? && op.role == role {
        assert op == ops[|ops| - 1];
        PickAll(q);
        assert r + q + [] == d + [];
      } else {
        AppendAssociates(r, q, Handed(before, op, role));
      }
    }
  }

  /** The history is the newest 500 published messages. */
  lemma {:induction false} HistoryIsNewest(ops: seq<Op>)
    ensures Run(EMPTY, ops).history == Newest(Published(ops))
  {
    if ops != [] {
      HistoryIsNewest(ops[..|ops| - 1]);
    }
  }

  lemma ReceiveLogged(before: seq<Op>, role: string, topic: Option<string>)
    ensures Received(before + [Receive(role, topic)], role)
      == Received(before, role) + Pick(Lookup(Run(EMPTY, before).queues, role), topic, true)
  {
    assert (before + [Receive(role, topic)])[..|before|] == before;
  }

  // ---------- The object ----------

  class A2ABus {
    var subscriptions: map<string, seq<Subscription>>
    var receiveQueues: map<string, seq<Message>>
    var messageHistory: seq<Message>
    ghost var log: seq<Op>

    ghost function View(): Bus
      reads this
    {
      Bus(subscriptions, receiveQueues, messageHistory)
    }

    /** The fields are always the outcome of the operations called so far. */
    ghost predicate Valid()
      reads this
    {
      View() == Run(EMPTY, log)
    }

    constructor ()
      ensures Valid() && log == []
    {
      subscriptions, receiveQueues, messageHistory, log := map[], map[], [], [];
    }

    ghost method Log(op: Op)
      requires View() == Apply(Run(EMPTY, log), op)
      modifies this`log
      ensures Valid() && log == old(log) + [op]
    {
      log := log + [op];
      assert log[..|log| - 1] == old(log);
    }

    method PublishMessage(message: Message)
      requires Valid()
      modifies this
      ensures Valid() && log == old(log) + [Publish(message)]
      ensures View() == Apply(old(View()), Publish(message))
    {
      Remember(message);
      var topicSubs := if message.topic in subscriptions then subscriptions[message.topic] else [];
      for i := 0 to |topicSubs|
        modifies `receiveQueues
        invariant receiveQueues == Deliver(old(receiveQueues), topicSubs[..i], message)
      {
        var sub := topicSubs[i];
        assert topicSubs[..i + 1][..i] == topicSubs[..i];
        if message.targetRole.Some? {
          if sub.role != message.targetRole.value {
            continue;
          }
        } else if !sub.receiveBroadcast {
          continue;
        }
        var queue := if sub.role in receiveQueues then receiveQueues[sub.role] else [];
        receiveQueues := receiveQueues[sub.role := queue + [message]];
      }
      assert topicSubs[..|topicSubs|] == topicSubs;
      Log(Publish(message));
    }

    /** The history part of publishing: append, then drop the oldest while over capacity. */
    method Remember(message: Message)
      modifies `messageHistory
      ensures messageHistory == Newest(old(messageHistory) + [message])
    {
      messageHistory := messageHistory + [message];
      ghost var all := messageHistory;
      while |messageHistory| > MAX_HISTORY
        invariant |messageHistory| <= |all| && messageHistory == all[|all| - |messageHistory|..]
        invariant |messageHistory| >= MAX_HISTORY || messageHistory == all
      {
        messageHistory := messageHistory[1..];
      }
    }

    method AddSubscription(sub: Subscription)
      requires Valid()
      modifies this
      ensures Valid() && log == old(log) + [Subscribe(sub)]
      ensures View() == Apply(old(View()), Subscribe(sub))
    {
      var topicSubs := if sub.topic in subscriptions then subscriptions[sub.topic] else [];
      subscriptions := subscriptions[sub.topic := topicSubs + [sub]];
      Log(Subscribe(sub));
    }

    method RemoveSubscription(role: string, instanceId: string, topic: string)
      requires Valid()
      modifies this
      ensures Valid() && log == old(log) + [Unsubscribe(role, instanceId, topic)]
      ensures View() == Apply(old(View()), Unsubscribe(role, instanceId, topic))
    {
      var topicSubs := if topic in subscriptions then subscriptions[topic] else [];
      var left: seq<Subscription> := [];
      for i := 0 to |topicSubs|
        invariant left == Without(topicSubs[..i], role, instanceId)
      {
        assert topicSubs[..i + 1][..i] == topicSubs[..i];
        var s := topicSubs[i];
        if !(s.role == role && s.instanceId == instanceId) {
          left := left + [s];
        }
      }
      assert topicSubs[..|topicSubs|] == topicSubs;
      subscriptions := subscriptions[topic := left];
      if subscriptions[topic] == [] {
        subscriptions := subscriptions - {topic};
        assert subscriptions == old(subscriptions) - {topic};
      }
      Log(Unsubscribe(role, instanceId, topic));
    }

    method ReceiveMessages(role: string, topic: Option<string>) returns (result: seq<Message>)
      requires Valid()
      modifies this
      ensures Valid() && log == old(log) + [Receive(role, topic)]
      ensures View() == Apply(old(View()), Receive(role, topic))
      ensures result == Pick(Lookup(old(receiveQueues), role), topic, true)
      ensures Received(log, role) == Received(old(log), role) + result
    {
      var queue := if role in receiveQueues then receiveQueues[role] else [];
      var remaining;
      result, remaining := SplitQueue(queue, topic);
      ReceiveLogged(log, role, topic);
      receiveQueues := receiveQueues[role := remaining];
      Log(Receive(role, topic));
    }

    /** The loop of `receive` over the queue. */
    static method SplitQueue(queue: seq<Message>, topic: Option<string>)
      returns (result: seq<Message>, remaining: seq<Message>)
      ensures result == Pick(queue, topic, true) && remaining == Pick(queue, topic, false)
    {
      result, remaining := [], [];
      for i := 0 to |queue|
        invariant result == Pick(queue[..i], topic, true) && remaining == Pick(queue[..i], topic, false)
      {
        assert queue[..i + 1][..i] == queue[..i];
        var msg := queue[i];
        if topic.Some? && msg.topic != topic.value {
          remaining := remaining + [msg];
        } else {
          result := result + [msg];
        }
      }
      assert queue[..|queue|] == queue;
    }
  }
}
