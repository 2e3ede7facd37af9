/**
  The bus under concurrent tasks.

  A publication waits for the event log after it has entered the history and after each copy it
  hands over; other tasks may join, leave, receive and publish meanwhile.  The loop of a waiting
  publication stands in the list object that was registered for the topic when the loop began:
  joining appends to the registered list in place, leaving registers a new one.
  */
module A2aBusTasks {
  import opened Options
  import opened A2aBus

  /** Where a publication waits: for its log entry, or in front of position `next` of a list. */
  datatype Publication = Logging(message: Message) | Delivering(message: Message, list: nat, next: nat)

  /** One copy handed over by a publication. */
  datatype Handing = Handing(pid: nat, sub: Subscription, message: Message)

  datatype State = State(
    table: map<string, nat>,                 // the list object registered for a topic
    lists: map<nat, seq<Subscription>>, made: nat,
    queues: map<string, seq<Message>>, history: seq<Message>,
    pubs: map<nat, Publication>, begun: nat,
    ledger: seq<Handing>,                    // never read by the bus
    taken: map<string, seq<Message>>)        // never read by the bus

  const FRESH := State(map[], map[], 0, map[], [], map[], 0, [], map[])

  datatype Event =
    | Begin(message: Message)
    | Resume(pid: nat)
    | Abandon(pid: nat)      // the task is cancelled, or the event log raises
    | Join(sub: Subscription)
    | Leave(role: string, instanceId: string, topic: string)
    | Take(role: string, filter: Option<string>)

  // ---------- One step of a task ----------

  function Members(s: State, l: nat): seq<Subscription> {
    if l in s.lists then s.lists[l] else []
  }

  /** The subscriptions in force. */
  function InForceNow(s: State, topic: string): seq<Subscription> {
    if topic in s.table then Members(s, s.table[topic]) else []
  }

  /** The next subscription that takes the message, from position `i` on. */
  function NextAccepting(subs: seq<Subscription>, i: nat, m: Message): (k: nat)
    ensures k <= |subs| || k == i
    ensures i <= k && (forall j :: i <= j < k && j < |subs| ==> !Accepts(subs[j], m))
    ensures k < |subs| ==> Accepts(subs[k], m)
    decreases |subs| - i
  {
    if i >= |subs| || Accepts(subs[i], m) then i else NextAccepting(subs, i + 1, m)
  }

  /** The loop of a publication, up to the next copy or the end of the list. */
  function Advance(s: State, pid: nat, m: Message, l: nat, i: nat): State {
    var subs := Members(s, l);
    var k := NextAccepting(subs, i, m);
    if k >= |subs| then s.(pubs := s.pubs - {pid})
    else
      var sub := subs[k];
      s.(queues := s.queues[sub.role := Lookup(s.queues, sub.role) + [m]],
         pubs := s.pubs[pid := Delivering(m, l, k + 1)],
         ledger := s.ledger + [Handing(pid, sub, m)])
  }

  function Continue(s: State, pid: nat): State
    requires pid in s.pubs
  {
    match s.pubs[pid]
    case Logging(m) =>
      if m.topic in s.table then Advance(s, pid, m, s.table[m.topic], 0) else s.(pubs := s.pubs - {pid})
    case Delivering(m, l, i) => Advance(s, pid, m, l, i)
  }

  /** A list object of its own for the topic. */
  function Register(s: State, topic: string, subs: seq<Subscription>): State {
    s.(lists := s.lists[s.made := subs], table := s.table[topic := s.made], made := s.made + 1)
  }

  function Step(s: State, e: Event): State {
    match e
    case Begin(m) =>
      s.(history := Newest(s.history + [m]), pubs := s.pubs[s.begun := Logging(m)], begun := s.begun + 1)
    case Resume(pid) => if pid in s.pubs then Continue(s, pid) else s
    case Abandon(pid) => s.(pubs := s.pubs - {pid})
    case Join(sub) =>
      if sub.topic in s.table
      then s.(lists := s.lists[s.table[sub.topic] := InForceNow(s, sub.topic) + [sub]])
      else Register(s, sub.topic, [sub])
    case Leave(role, instanceId, topic) =>
      var left := Without(InForceNow(s, topic), role, instanceId);
      if left == [] then s.(table := s.table - {topic}) else Register(s, topic, left)
    case Take(role, filter) =>
      s.(queues := s.queues[role := Pick(Lookup(s.queues, role), filter, false)],
         taken := s.taken[role := Lookup(s.taken, role) + Pick(Lookup(s.queues, role), filter, true)])
  }

  predicate Legal(s: State, e: Event) {
    e.Resume? || e.Abandon? ==> e.pid in s.pubs
  }

  function Run(s: State, es: seq<Event>): State
    decreases |es|
  {
    if es == [] then s else Run(Step(s, es[0]), es[1..])
  }

  predicate LegalRun(s: State, es: seq<Event>)
    decreases |es|
  {
    es == [] || (Legal(s, es[0]) && LegalRun(Step(s, es[0]), es[1..]))
  }

  lemma {:induction false} RunSplits(s: State, a: seq<Event>, b: seq<Event>)
    ensures Run(s, a + b) == Run(Run(s, a), b)
    ensures LegalRun(s, a + b) <==> LegalRun(s, a) && LegalRun(Run(s, a), b)
    decreases |a|
  {
    if a == [] {
      assert a + b == b;
    } else {
      assert (a + b)[1..] == a[1..] + b;
      RunSplits(Step(s, a[0]), a[1..], b);
    }
  }

  // ---------- Ledgers ----------

  /** The subscriptions that take the message. */
  function Accepting(subs: seq<Subscription>, m: Message): seq<Subscription> {
    if subs == [] then []
    else
      var s := subs[|subs| - 1];
      Accepting(subs[..|subs| - 1], m) + (if Accepts(s, m) then [s] else [])
  }

  lemma {:induction false} AcceptingConcat(a: seq<Subscription>, b: seq<Subscription>, m: Message)
    ensures Accepting(a + b, m) == Accepting(a, m) + Accepting(b, m)
  {
    if b == [] {
      assert a + b == a;
    } else {
      assert (a + b)[..|a + b| - 1] == a + b[..|b| - 1];
      AcceptingConcat(a, b[..|b| - 1], m);
    }
  }

  lemma AcceptingSplits(subs: seq<Subscription>, n: nat, m: Message)
    requires n <= |subs|
    ensures Accepting(subs, m) == Accepting(subs[..n], m) + Accepting(subs[n..], m)
  {
    AcceptingConcat(subs[..n], subs[n..], m);
    assert subs[..n] + subs[n..] == subs;
  }

  lemma {:induction false} AcceptingNone(subs: seq<Subscription>, m: Message)
    requires forall j :: 0 <= j < |subs| ==> !Accepts(subs[j], m)
    ensures Accepting(subs, m) == []
  {
    if subs != [] {
      AcceptingNone(subs[..|subs| - 1], m);
    }
  }

  /** Up to the next copy, or the end. */
  lemma AcceptingNext(subs: seq<Subscription>, i: nat, m: Message)
    requires i <= |subs|
    ensures var k := NextAccepting(subs, i, m);
      && k <= |subs|
      && Accepting(subs[..k], m) == Accepting(subs[..i], m)
      && (k < |subs| ==> Accepting(subs[..k + 1], m) == Accepting(subs[..i], m) + [subs[k]])
  {
    var k := NextAccepting(subs, i, m);
    assert subs[..k] == subs[..i] + subs[i..k];
    AcceptingNone(subs[i..k], m);
    AcceptingConcat(subs[..i], subs[i..k], m);
    if k < |subs| {
      assert subs[..k + 1][..k] == subs[..k];
    }
  }

  /** The subscriptions a publication has handed a copy to, in order. */
  function ServedBy(ledger: seq<Handing>, pid: nat): seq<Subscription> {
    if ledger == [] then []
    else
      var h := ledger[|ledger| - 1];
      ServedBy(ledger[..|ledger| - 1], pid) + (if h.pid == pid then [h.sub] else [])
  }

  /** The messages handed to a role, in order. */
  function HandedTo(ledger: seq<Handing>, role: string): seq<Message> {
    if ledger == [] then []
    else
      var h := ledger[|ledger| - 1];
      HandedTo(ledger[..|ledger| - 1], role) + (if h.sub.role == role then [h.message] else [])
  }

  lemma LedgerGrows(ledger: seq<Handing>, h: Handing, pid: nat, role: string)
    ensures ServedBy(ledger + [h], pid) == ServedBy(ledger, pid) + (if h.pid == pid then [h.sub] else [])
    ensures HandedTo(ledger + [h], role) == HandedTo(ledger, role) + (if h.sub.role == role then [h.message] else [])
  {
    assert (ledger + [h])[..|ledger|] == ledger;
  }

  // ---------- Conservation under every interleaving ----------

  ghost predicate Balanced(s: State, role: string, topic: string) {
    OfTopic(Lookup(s.taken, role), topic) + OfTopic(Lookup(s.queues, role), topic)
      == OfTopic(HandedTo(s.ledger, role), topic)
  }

  lemma AdvanceBalances(s: State, pid: nat, m: Message, l: nat, i: nat, role: string, topic: string)
    requires Balanced(s, role, topic)
    ensures Balanced(Advance(s, pid, m, l, i), role, topic)
  {
    var subs, k := Members(s, l), NextAccepting(Members(s, l), i, m);
    if k < |subs| {
      var handed := if subs[k].role == role then [m] else [];
      LedgerGrows(s.ledger, Handing(pid, subs[k], m), pid, role);
      TopicHanded(Lookup(s.taken, role), Lookup(s.queues, role), HandedTo(s.ledger, role), handed, topic);
      assert Lookup(s.queues, role) + [] == Lookup(s.queues, role);
    }
  }

  lemma StepBalances(s: State, e: Event, role: string, topic: string)
    requires Balanced(s, role, topic) && Legal(s, e)
    ensures Balanced(Step(s, e), role, topic)
  {
    if e.Resume? {
      match s.pubs[e.pid]
      case Logging(m) =>
        if m.topic in s.table {
          AdvanceBalances(s, e.pid, m, s.table[m.topic], 0, role, topic);
        }
      case Delivering(m, l, i) => AdvanceBalances(s, e.pid, m, l, i, role, topic);
    } else if e.Take? {
      TakeBalances(s, e.role, e.filter, role, topic);
    }
  }

  lemma TakeBalances(s: State, taker: string, filter: Option<string>, role: string, topic: string)
    requires Balanced(s, role, topic)
    ensures Balanced(Step(s, Take(taker, filter)), role, topic)
  {
    if taker == role {
      var q, d := Lookup(s.queues, role), HandedTo(s.ledger, role);
      TopicTaken(Lookup(s.taken, role), q, d, filter, topic);
      assert d + [] == d;
    }
  }

  /** Whatever tasks run in whatever order: per role and topic, what was received followed by what is
      queued is, in order, what the publications handed over. */
  lemma {:induction false} TasksConserve(s: State, es: seq<Event>, role: string, topic: string)
    requires Balanced(s, role, topic) && LegalRun(s, es)
    ensures Balanced(Run(s, es), role, topic)
    decreases |es|
  {
    if es != [] {
      StepBalances(s, es[0], role, topic);
      TasksConserve(Step(s, es[0]), es[1..], role, topic);
    }
  }

  // ---------- Each subscription once ----------

  /** What a publication has served so far. */
  ghost predicate PubOk(s: State, pid: nat) {
    pid in s.pubs ==>
      && pid < s.begun
      && match s.pubs[pid]
         case Logging(_) => ServedBy(s.ledger, pid) == []
         case Delivering(m, l, i) =>
           l in s.lists && i <= |s.lists[l]| && ServedBy(s.ledger, pid) == Accepting(s.lists[l][..i], m)
  }

  /** Registered lists exist, and no two topics share one. */
  ghost predicate TableOk(s: State) {
    && (forall t :: t in s.table ==> s.table[t] in s.lists)
    && (forall t, u :: t in s.table && u in s.table && t != u ==> s.table[t] != s.table[u])
    && (forall l :: l in s.lists ==> l < s.made)
  }

  ghost predicate Inv(s: State) {
    && TableOk(s)
    && (forall pid :: PubOk(s, pid))
    && (forall pid :: pid >= s.begun ==> ServedBy(s.ledger, pid) == [])
  }

  lemma FreshIsInv()
    ensures Inv(FRESH)
  {}

  /** A list object only ever grows at its end. */
  lemma ListsGrow(s: State, e: Event, l: nat)
    requires TableOk(s) && l in s.lists
    ensures l in Step(s, e).lists && s.lists[l] <= Step(s, e).lists[l]
  {}

  lemma RegisterKeeps(s: State, topic: string, subs: seq<Subscription>)
    requires TableOk(s)
    ensures TableOk(Register(s, topic, subs))
  {}

  lemma TableKeeps(s: State, e: Event)
    requires TableOk(s)
    ensures TableOk(Step(s, e))
  {
    match e
    case Join(sub) => RegisterKeeps(s, sub.topic, [sub]);
    case Leave(role, instanceId, topic) =>
      RegisterKeeps(s, topic, Without(InForceNow(s, topic), role, instanceId));
    case Resume(pid) => ResumeKeepsLists(s, pid);
    case _ => assert Step(s, e).table == s.table && Step(s, e).lists == s.lists && Step(s, e).made == s.made;
  }

  /** The publication that takes the step. */
  lemma OwnAdvance(s: State, pid: nat, m: Message, l: nat, i: nat)
    requires l in s.lists && i <= |s.lists[l]| && pid < s.begun
    requires ServedBy(s.ledger, pid) == Accepting(s.lists[l][..i], m)
    ensures PubOk(Advance(s, pid, m, l, i), pid)
  {
    var subs, k := s.lists[l], NextAccepting(s.lists[l], i, m);
    AcceptingNext(subs, i, m);
    if k < |subs| {
      LedgerGrows(s.ledger, Handing(pid, subs[k], m), pid, "");
    }
  }

  /** Any other one. */
  lemma OthersAdvance(s: State, pid: nat, m: Message, l: nat, i: nat, other: nat)
    requires l in s.lists && PubOk(s, other) && other != pid
    ensures PubOk(Advance(s, pid, m, l, i), other)
    ensures ServedBy(Advance(s, pid, m, l, i).ledger, other) == ServedBy(s.ledger, other)
  {
    var subs, k := s.lists[l], NextAccepting(s.lists[l], i, m);
    if k < |subs| {
      LedgerGrows(s.ledger, Handing(pid, subs[k], m), other, "");
    }
  }

  lemma AdvanceKeeps(s: State, pid: nat, m: Message, l: nat, i: nat, other: nat)
    requires l in s.lists && i <= |s.lists[l]| && pid < s.begun && PubOk(s, other)
    requires ServedBy(s.ledger, pid) == Accepting(s.lists[l][..i], m)
    ensures PubOk(Advance(s, pid, m, l, i), other)
    ensures other != pid ==> ServedBy(Advance(s, pid, m, l, i).ledger, other) == ServedBy(s.ledger, other)
  {
    if other == pid {
      OwnAdvance(s, pid, m, l, i);
    } else {
      OthersAdvance(s, pid, m, l, i, other);
    }
  }

  lemma ResumeKeeps(s: State, pid: nat, other: nat)
    requires TableOk(s) && pid in s.pubs && PubOk(s, pid) && PubOk(s, other)
    ensures PubOk(Continue(s, pid), other)
    ensures other != pid ==> ServedBy(Continue(s, pid).ledger, other) == ServedBy(s.ledger, other)
  {
    match s.pubs[pid]
    case Logging(m) =>
      if m.topic in s.table {
        var l := s.table[m.topic];
        assert s.lists[l][..0] == [];
        AdvanceKeeps(s, pid, m, l, 0, other);
      }
    case Delivering(m, l, i) => AdvanceKeeps(s, pid, m, l, i, other);
  }

  lemma PubKeeps(s: State, e: Event, pid: nat)
    requires Inv(s) && Legal(s, e)
    ensures PubOk(Step(s, e), pid)
  {
    assert PubOk(s, pid);
    if e.Resume? {
      assert PubOk(s, e.pid);
      ResumeKeeps(s, e.pid, pid);
    } else if pid in s.pubs && s.pubs[pid].Delivering? {
      var l, i := s.pubs[pid].list, s.pubs[pid].next;
      ListsGrow(s, e, l);
      assert Step(s, e).lists[l][..i] == s.lists[l][..i];
    }
  }

  lemma StepKeepsInv(s: State, e: Event)
    requires Inv(s) && Legal(s, e)
    ensures Inv(Step(s, e))
  {
    TableKeeps(s, e);
    forall pid
      ensures PubOk(Step(s, e), pid)
    {
      PubKeeps(s, e, pid);
    }
    forall pid | pid >= Step(s, e).begun
      ensures ServedBy(Step(s, e).ledger, pid) == []
    {
      if e.Resume? {
        assert PubOk(s, e.pid) && PubOk(s, pid);
        ResumeKeeps(s, e.pid, pid);
      }
    }
  }

  lemma {:induction false} RunKeepsInv(s: State, es: seq<Event>)
    requires Inv(s) && LegalRun(s, es)
    ensures Inv(Run(s, es))
    decreases |es|
  {
    if es != [] {
      StepKeepsInv(s, es[0]);
      RunKeepsInv(Step(s, es[0]), es[1..]);
    }
  }

  // ---------- Who gets a message ----------

  /** Who joins the topic in the course of the events, before anybody leaves it. */
  function JoinedBefore(es: seq<Event>, topic: string): seq<Subscription> {
    if es == [] || (es[0].Leave? && es[0].topic == topic) then []
    else (if es[0].Join? && es[0].sub.topic == topic then [es[0].sub] else []) + JoinedBefore(es[1..], topic)
  }

  ghost predicate Orphan(s: State, l: nat) {
    l in s.lists && forall t :: t in s.table ==> s.table[t] != l
  }

  /** A list that is no longer registered does not change. */
  lemma {:induction false} OrphanStays(s: State, es: seq<Event>, l: nat)
    requires Inv(s) && LegalRun(s, es) && Orphan(s, l)
    ensures Members(Run(s, es), l) == s.lists[l]
    decreases |es|
  {
    if es != [] {
      OrphanStep(s, es[0], l);
      StepKeepsInv(s, es[0]);
      OrphanStays(Step(s, es[0]), es[1..], l);
    }
  }

  lemma OrphanStep(s: State, e: Event, l: nat)
    requires TableOk(s) && Orphan(s, l)
    ensures Orphan(Step(s, e), l) && Step(s, e).lists[l] == s.lists[l]
  {}

  lemma RegisteredStep(s: State, e: Event, topic: string, l: nat)
    requires TableOk(s) && topic in s.table && s.table[topic] == l
    ensures var s' := Step(s, e);
      && l in s'.lists && l in s.lists
      && (if e.Leave? && e.topic == topic then Orphan(s', l) else topic in s'.table && s'.table[topic] == l)
      && s'.lists[l] == s.lists[l] + (if e.Join? && e.sub.topic == topic then [e.sub] else [])
  {
    assert s.lists[l] + [] == s.lists[l];
    if e.Join? {
      JoinedList(s, e.sub, topic, l);
    } else if !e.Leave? && !e.Resume? {
      assert Step(s, e).table == s.table && Step(s, e).lists == s.lists;
    } else if e.Resume? {
      ResumeKeepsLists(s, e.pid);
    }
  }

  lemma ResumeKeepsLists(s: State, pid: nat)
    ensures var s' := Step(s, Resume(pid));
      s'.table == s.table && s'.lists == s.lists && s'.made == s.made
  {}

  lemma JoinedList(s: State, sub: Subscription, topic: string, l: nat)
    requires TableOk(s) && topic in s.table && s.table[topic] == l
    ensures var s' := Step(s, Join(sub));
      && topic in s'.table && s'.table[topic] == l && l in s'.lists
      && s'.lists[l] == s.lists[l] + (if sub.topic == topic then [sub] else [])
  {
    assert s.lists[l] + [] == s.lists[l];
  }

  /** The list in which a loop stands is what was in force when the loop began, and whoever joined
      before the first one left. */
  lemma {:induction false} ListIsInForce(s: State, es: seq<Event>, topic: string, l: nat)
    requires Inv(s) && LegalRun(s, es) && topic in s.table && s.table[topic] == l
    ensures Members(Run(s, es), l) == s.lists[l] + JoinedBefore(es, topic)
    decreases |es|
  {
    if es == [] {
      assert s.lists[l] + [] == s.lists[l];
    } else {
      var e, s' := es[0], Step(s, es[0]);
      RegisteredStep(s, e, topic, l);
      StepKeepsInv(s, e);
      if e.Leave? && e.topic == topic {
        OrphanStays(s', es[1..], l);
        assert s.lists[l] + [] == s.lists[l];
      } else {
        ListIsInForce(s', es[1..], topic, l);
        var joined := if e.Join? && e.sub.topic == topic then [e.sub] else [];
        AppendAssociates(s.lists[l], joined, JoinedBefore(es[1..], topic));
      }
    }
  }

  ghost predicate InLoop(s: State, pid: nat, m: Message, l: nat) {
    pid in s.pubs ==> s.pubs[pid].Delivering? && s.pubs[pid].message == m && s.pubs[pid].list == l
  }

  /** A publication stays in its loop, or is over. */
  lemma {:induction false} StaysInLoop(s: State, es: seq<Event>, pid: nat, m: Message, l: nat)
    requires LegalRun(s, es) && pid < s.begun && InLoop(s, pid, m, l)
    ensures InLoop(Run(s, es), pid, m, l) && (pid in Run(s, es).pubs ==> pid in s.pubs)
    decreases |es|
  {
    if es != [] {
      LoopStep(s, es[0], pid, m, l);
      StaysInLoop(Step(s, es[0]), es[1..], pid, m, l);
    }
  }

  lemma LoopStep(s: State, e: Event, pid: nat, m: Message, l: nat)
    requires Legal(s, e) && pid < s.begun && InLoop(s, pid, m, l)
    ensures InLoop(Step(s, e), pid, m, l) && (pid in Step(s, e).pubs ==> pid in s.pubs) && pid < Step(s, e).begun
  {}

  /** The first step of the loop. */
  lemma LoopBegins(s: State, pid: nat)
    requires Inv(s) && pid in s.pubs && s.pubs[pid].Logging? && s.pubs[pid].message.topic in s.table
    ensures var m := s.pubs[pid].message;
      InLoop(Step(s, Resume(pid)), pid, m, s.table[m.topic]) && pid < s.begun
  {
    assert PubOk(s, pid);
  }

  /** The last step: everybody in the list who takes the message has it. */
  lemma LoopEnds(s: State, pid: nat, m: Message, l: nat)
    requires Inv(s) && pid in s.pubs && InLoop(s, pid, m, l) && pid !in Step(s, Resume(pid)).pubs
    ensures l in s.lists && ServedBy(Step(s, Resume(pid)).ledger, pid) == Accepting(s.lists[l], m)
  {
    assert PubOk(s, pid);
    AcceptingNext(s.lists[l], s.pubs[pid].next, m);
    assert s.lists[l][..|s.lists[l]|] == s.lists[l];
  }

  /** A publication that runs to its end, from the step that begins its loop to the one that ends it,
      with anything in between: it hands one copy each, in order, to the subscriptions that take the
      message among those in force when the loop began and those that joined before anybody left.
      One that leaves meanwhile still gets its copy. */
  lemma PublicationServes(s: State, between: seq<Event>, pid: nat)
    requires Inv(s) && pid in s.pubs && s.pubs[pid].Logging? && s.pubs[pid].message.topic in s.table
    requires LegalRun(s, [Resume(pid)] + between + [Resume(pid)])
    requires pid !in Run(s, [Resume(pid)] + between + [Resume(pid)]).pubs
    ensures var m, u := s.pubs[pid].message, Run(s, [Resume(pid)] + between + [Resume(pid)]);
      ServedBy(u.ledger, pid) == Accepting(InForceNow(s, m.topic) + JoinedBefore(between, m.topic), m)
  {
    var m, first := s.pubs[pid].message, [Resume(pid)] + between;
    var l := s.table[m.topic];
    RunSplits(s, first, [Resume(pid)]);
    var t := Run(s, first);
    assert [Resume(pid)][1..] == [] && first[1..] == between;
    RunKeepsInv(s, first);
    LoopBegins(s, pid);
    StaysInLoop(Step(s, Resume(pid)), between, pid, m, l);
    LoopEnds(t, pid, m, l);
    ListIsInForce(s, first, m.topic, l);
    assert [] + JoinedBefore(between, m.topic) == JoinedBefore(between, m.topic);
  }

  /** So a message reaches exactly the subscriptions in force when its loop began if and only if none
      that takes it joins before anybody leaves. */
  lemma ServesInForceIff(s: State, between: seq<Event>, pid: nat)
    requires Inv(s) && pid in s.pubs && s.pubs[pid].Logging? && s.pubs[pid].message.topic in s.table
    requires LegalRun(s, [Resume(pid)] + between + [Resume(pid)])
    requires pid !in Run(s, [Resume(pid)] + between + [Resume(pid)]).pubs
    ensures var m, u := s.pubs[pid].message, Run(s, [Resume(pid)] + between + [Resume(pid)]);
      (ServedBy(u.ledger, pid) == Accepting(InForceNow(s, m.topic), m)) <==>
        Accepting(JoinedBefore(between, m.topic), m) == []
  {
    var m := s.pubs[pid].message;
    PublicationServes(s, between, pid);
    AcceptingConcat(InForceNow(s, m.topic), JoinedBefore(between, m.topic), m);
  }

  /** A publication is over at once exactly when nobody in force takes the message. */
  lemma NobodyToServe(s: State, pid: nat)
    requires Inv(s) && pid in s.pubs && s.pubs[pid].Logging?
    ensures var m := s.pubs[pid].message;
      pid !in Step(s, Resume(pid)).pubs <==> Accepting(InForceNow(s, m.topic), m) == []
  {
    var m := s.pubs[pid].message;
    var subs := InForceNow(s, m.topic);
    AcceptingNext(subs, 0, m);
    assert subs[..0] == [] && subs[..|subs|] == subs;
    var k := NextAccepting(subs, 0, m);
    if k < |subs| {
      AcceptingSplits(subs, k + 1, m);
    }
  }

  // ---------- Without other tasks it is the bus of one step ----------

  /** The bus as its operations show it. */
  function View(s: State): Bus {
    Bus(map t | t in s.table :: InForceNow(s, t), s.queues, s.history)
  }

  /** Joining changes what is in force for its own topic only. */
  lemma JoinInForce(s: State, sub: Subscription, topic: string)
    requires TableOk(s)
    ensures var s' := Step(s, Join(sub));
      && (topic in s'.table <==> topic in s.table || topic == sub.topic)
      && InForceNow(s', topic) == InForceNow(s, topic) + (if topic == sub.topic then [sub] else [])
  {
    assert InForceNow(s, topic) + [] == InForceNow(s, topic);
    assert [] + [sub] == [sub];
    if topic in s.table {
      JoinedList(s, sub, topic, s.table[topic]);
    }
  }

  lemma JoinIsSubscribe(s: State, sub: Subscription)
    requires TableOk(s)
    ensures View(Step(s, Join(sub))) == Apply(View(s), Subscribe(sub))
  {
    var s', v, w := Step(s, Join(sub)), View(Step(s, Join(sub))), Apply(View(s), Subscribe(sub));
    assert Lookup(View(s).subscriptions, sub.topic) == InForceNow(s, sub.topic);
    forall t
      ensures t in v.subscriptions <==> t in w.subscriptions
      ensures t in v.subscriptions ==> v.subscriptions[t] == w.subscriptions[t]
    {
      JoinInForce(s, sub, t);
      assert InForceNow(s, t) + [] == InForceNow(s, t);
    }
    assert v.subscriptions == w.subscriptions;
  }

  /** So does leaving, and a topic without subscriptions is dropped. */
  lemma LeaveInForce(s: State, role: string, instanceId: string, topic: string, other: string)
    requires TableOk(s)
    ensures var s', left := Step(s, Leave(role, instanceId, topic)), Without(InForceNow(s, topic), role, instanceId);
      && (other in s'.table <==> if other == topic then left != [] else other in s.table)
      && InForceNow(s', other) == if other == topic then left else InForceNow(s, other)
  {}

  /** Unsubscribing, topic by topic. */
  lemma UnsubscribedAt(b: Bus, role: string, instanceId: string, topic: string, other: string)
    ensures var left := Without(Lookup(b.subscriptions, topic), role, instanceId);
      var after := Apply(b, Unsubscribe(role, instanceId, topic)).subscriptions;
      && (other in after <==> if other == topic then left != [] else other in b.subscriptions)
      && (other in after ==> after[other] == if other == topic then left else b.subscriptions[other])
  {}

  lemma LeaveIsUnsubscribe(s: State, role: string, instanceId: string, topic: string)
    requires TableOk(s)
    ensures View(Step(s, Leave(role, instanceId, topic))) == Apply(View(s), Unsubscribe(role, instanceId, topic))
  {
    var s', b := Step(s, Leave(role, instanceId, topic)), View(s);
    var v, w := View(s').subscriptions, Apply(b, Unsubscribe(role, instanceId, topic)).subscriptions;
    assert Lookup(b.subscriptions, topic) == InForceNow(s, topic);
    assert v == w by {
      forall t
        ensures (t in v <==> t in w) && (t in v ==> v[t] == w[t])
      {
        LeaveInForce(s, role, instanceId, topic, t);
        UnsubscribedAt(b, role, instanceId, topic, t);
      }
    }
  }

  lemma TakeIsReceive(s: State, role: string, filter: Option<string>)
    ensures View(Step(s, Take(role, filter))) == Apply(View(s), Receive(role, filter))
  {
    assert View(Step(s, Take(role, filter))).subscriptions == View(s).subscriptions;
  }

  lemma {:induction false} DeliverConcat(queues: map<string, seq<Message>>, a: seq<Subscription>, b: seq<Subscription>,
                                         m: Message)
    ensures Deliver(queues, a + b, m) == Deliver(Deliver(queues, a, m), b, m)
  {
    if b == [] {
      assert a + b == a;
    } else {
      assert (a + b)[..|a + b| - 1] == a + b[..|b| - 1];
      DeliverConcat(queues, a, b[..|b| - 1], m);
    }
  }

  lemma {:induction false} DeliverNone(queues: map<string, seq<Message>>, subs: seq<Subscription>, m: Message)
    requires forall j :: 0 <= j < |subs| ==> !Accepts(subs[j], m)
    ensures Deliver(queues, subs, m) == queues
  {
    if subs != [] {
      DeliverNone(queues, subs[..|subs| - 1], m);
    }
  }

  /** One step of the loop delivers to the first subscription that takes the message. */
  lemma DeliverNext(queues: map<string, seq<Message>>, subs: seq<Subscription>, i: nat, m: Message)
    requires i <= |subs|
    ensures var k := NextAccepting(subs, i, m);
      if k >= |subs| then Deliver(queues, subs[i..], m) == queues
      else Deliver(queues, subs[i..], m)
             == Deliver(queues[subs[k].role := Lookup(queues, subs[k].role) + [m]], subs[k + 1..], m)
  {
    var k := NextAccepting(subs, i, m);
    if k >= |subs| {
      DeliverNone(queues, subs[i..], m);
    } else {
      assert subs[i..] == subs[i..k] + ([subs[k]] + subs[k + 1..]);
      DeliverConcat(queues, subs[i..k], [subs[k]] + subs[k + 1..], m);
      DeliverNone(queues, subs[i..k], m);
      DeliverConcat(queues, [subs[k]], subs[k + 1..], m);
      assert [subs[k]][..0] == [];
    }
  }

  ghost predicate OnlyResumes(es: seq<Event>, pid: nat) {
    forall k :: 0 <= k < |es| ==> es[k] == Resume(pid)
  }

  /** The same bus but for the queues; the publication is over. */
  predicate Over(s: State, u: State, pid: nat, queues: map<string, seq<Message>>) {
    u.table == s.table && u.lists == s.lists && u.history == s.history && u.pubs == s.pubs - {pid} && u.queues == queues
  }

  lemma ResumeInLoop(s: State, pid: nat, m: Message, l: nat, i: nat)
    requires pid in s.pubs && s.pubs[pid] == Delivering(m, l, i)
    ensures Legal(s, Resume(pid)) && Step(s, Resume(pid)) == Advance(s, pid, m, l, i)
  {}

  lemma AdvanceMoves(s: State, pid: nat, m: Message, l: nat, i: nat) returns (s': State, k: nat)
    requires l in s.lists && i <= |s.lists[l]|
    ensures s' == Advance(s, pid, m, l, i) && k == NextAccepting(s.lists[l], i, m)
    ensures s'.lists == s.lists && s'.table == s.table && s'.history == s.history && s'.pubs - {pid} == s.pubs - {pid}
    ensures k >= |s.lists[l]| ==> s'.pubs == s.pubs - {pid} && s'.queues == s.queues
    ensures k < |s.lists[l]| ==>
      && i <= k && pid in s'.pubs && s'.pubs[pid] == Delivering(m, l, k + 1)
      && var role := s.lists[l][k].role;
      s'.queues == s.queues[role := Lookup(s.queues, role) + [m]]
  {
    s', k := Advance(s, pid, m, l, i), NextAccepting(s.lists[l], i, m);
  }

  /** One step of a loop: it is over, or stands behind the next subscription that takes the message. */
  lemma AdvanceAlone(s: State, pid: nat, m: Message, l: nat, i: nat) returns (s': State, k: nat)
    requires l in s.lists && i <= |s.lists[l]|
    ensures s' == Advance(s, pid, m, l, i) && s'.lists == s.lists && s'.table == s.table && s'.history == s.history
    ensures k >= |s.lists[l]| ==> Over(s, s', pid, Deliver(s.queues, s.lists[l][i..], m))
    ensures k < |s.lists[l]| ==>
      && i <= k && s'.pubs - {pid} == s.pubs - {pid}
      && Legal(s', Resume(pid)) && Step(s', Resume(pid)) == Advance(s', pid, m, l, k + 1)
      && Deliver(s'.queues, s.lists[l][k + 1..], m) == Deliver(s.queues, s.lists[l][i..], m)
  {
    s', k := AdvanceMoves(s, pid, m, l, i);
    DeliverNext(s.queues, s.lists[l], i, m);
    if k < |s.lists[l]| {
      ResumeInLoop(s', pid, m, l, k + 1);
    }
  }

  lemma ConsRun(s: State, e: Event, es: seq<Event>)
    ensures Run(s, [e] + es) == Run(Step(s, e), es)
    ensures LegalRun(s, [e] + es) <==> Legal(s, e) && LegalRun(Step(s, e), es)
  {
    assert ([e] + es)[1..] == es;
  }

  lemma OverLater(s: State, s': State, u: State, pid: nat, queues: map<string, seq<Message>>)
    requires s'.lists == s.lists && s'.table == s.table && s'.history == s.history && s'.pubs - {pid} == s.pubs - {pid}
    requires Over(s', u, pid, queues)
    ensures Over(s, u, pid, queues)
  {}

  /** The rest of a loop that nobody interrupts, after its next step. */
  lemma {:induction false} LoopAlone(s: State, pid: nat, m: Message, l: nat, i: nat)
    returns (s': State, es: seq<Event>, u: State)
    requires l in s.lists && i <= |s.lists[l]|
    ensures s' == Advance(s, pid, m, l, i) && OnlyResumes(es, pid) && LegalRun(s', es) && u == Run(s', es)
    ensures Over(s, u, pid, Deliver(s.queues, s.lists[l][i..], m))
    decreases |s.lists[l]| - i
  {
    var k;
    s', k := AdvanceAlone(s, pid, m, l, i);
    if k >= |s.lists[l]| {
      es, u := [], s';
    } else {
      var s'', rest;
      s'', rest, u := LoopAlone(s', pid, m, l, k + 1);
      es := [Resume(pid)] + rest;
      ConsRun(s', Resume(pid), rest);
      OverLater(s, s', u, pid, Deliver(s'.queues, s'.lists[l][k + 1..], m));
    }
  }

  /** From the first step of its loop on. */
  lemma ResumesAlone(s: State, pid: nat, m: Message) returns (es: seq<Event>)
    requires TableOk(s) && pid in s.pubs && s.pubs[pid] == Logging(m)
    ensures es != [] && OnlyResumes(es, pid) && LegalRun(s, es)
    ensures Over(s, Run(s, es), pid, Deliver(s.queues, InForceNow(s, m.topic), m))
  {
    var rest: seq<Event> := [];
    if m.topic in s.table {
      var l := s.table[m.topic];
      var s', u;
      s', rest, u := LoopAlone(s, pid, m, l, 0);
      assert s.lists[l][0..] == s.lists[l];
    }
    es := [Resume(pid)] + rest;
    ConsRun(s, Resume(pid), rest);
  }

  /** When the event log does not make it wait, publishing is one step of the bus. */
  lemma AloneIsAtomic(s: State, m: Message) returns (es: seq<Event>)
    requires Inv(s)
    ensures es != [] && es[0] == Begin(m) && OnlyResumes(es[1..], s.begun) && LegalRun(s, es)
    ensures View(Run(s, es)) == Apply(View(s), Publish(m)) && Run(s, es).pubs == s.pubs
  {
    var pid, s1 := s.begun, Step(s, Begin(m));
    assert PubOk(s, pid);
    var rest := ResumesAlone(s1, pid, m);
    es := [Begin(m)] + rest;
    assert es[1..] == rest && s1.pubs - {pid} == s.pubs;
    var u := Run(s1, rest);
    assert forall topic :: topic in s.table ==> InForceNow(u, topic) == InForceNow(s, topic);
    assert View(u).subscriptions == View(s).subscriptions;
    assert Lookup(View(s).subscriptions, m.topic) == InForceNow(s, m.topic) == InForceNow(s1, m.topic);
  }

  // ---------- With them it is not ----------

  /** One subscription has its copy; the publication waits for the log entry of it. */
  lemma OneServed(subs: seq<Subscription>, m: Message) returns (s: State)
    requires subs != [] && Accepts(subs[0], m)
    ensures Inv(s) && s.table == map[m.topic := 0] && s.lists == map[0 := subs]
    ensures s.pubs == map[0 := Delivering(m, 0, 1)]
    ensures s.ledger == [Handing(0, subs[0], m)] && s.made == 1 && s.queues == map[subs[0].role := [m]]
  {
    var s0 := Register(FRESH, m.topic, subs);
    FreshIsInv();
    assert Inv(s0);
    var s1 := Step(s0, Begin(m));
    StepKeepsInv(s0, Begin(m));
    s := Step(s1, Resume(0));
    StepKeepsInv(s1, Resume(0));
    assert [] + [m] == [m] && [] + [Handing(0, subs[0], m)] == [Handing(0, subs[0], m)];
  }

  /** A role that joins while a message is being handed round gets it, although it was published
      before. */
  lemma LateJoinerGetsIt(a: Subscription, b: Subscription, m: Message) returns (s: State)
    requires Accepts(a, m) && Accepts(b, m) && a.topic == b.topic == m.topic
    ensures Inv(s) && InForceNow(s, m.topic) == [a] && s.pubs.Keys == {0}
    ensures ServedBy(Run(s, [Join(b), Resume(0)]).ledger, 0) == [a, b]
  {
    s := OneServed([a], m);
    var s1 := Step(s, Join(b));
    assert [a] + [b] == [a, b] && s1.lists == map[0 := [a, b]];
    assert [Join(b), Resume(0)][1..] == [Resume(0)] && [Resume(0)][1..] == [];
    ServedTwo(a, b, m);
  }

  lemma ServedTwo(a: Subscription, b: Subscription, m: Message)
    ensures ServedBy([Handing(0, a, m)] + [Handing(0, b, m)], 0) == [a, b]
  {
    LedgerGrows([], Handing(0, a, m), 0, "");
    LedgerGrows([Handing(0, a, m)], Handing(0, b, m), 0, "");
    assert [] + [Handing(0, a, m)] == [Handing(0, a, m)];
  }

  /** And one that leaves in that time still gets it. */
  lemma LeaverStillGetsIt(a: Subscription, b: Subscription, m: Message) returns (s: State)
    requires Accepts(a, m) && Accepts(b, m) && a.topic == b.topic == m.topic && a.role != b.role
    ensures Inv(s) && InForceNow(s, m.topic) == [a, b] && s.pubs.Keys == {0}
    ensures var s' := Step(s, Leave(b.role, b.instanceId, m.topic));
      InForceNow(s', m.topic) == [a] && ServedBy(Step(s', Resume(0)).ledger, 0) == [a, b]
  {
    s := OneServed([a, b], m);
    assert [a, b][..1] == [a] && [a][..0] == [] && [] + [a] == [a] && [a] + [] == [a];
    assert Without([a], b.role, b.instanceId) == [a];
    assert Without([a, b], b.role, b.instanceId) == [a];
    ServedTwo(a, b, m);
  }

  // ---------- From the publication on ----------

  /** None of the events is about the publication. */
  predicate OfOthers(es: seq<Event>, pid: nat) {
    forall k :: 0 <= k < |es| ==> es[k] != Resume(pid) && es[k] != Abandon(pid)
  }

  lemma {:induction false} StaysLogging(s: State, es: seq<Event>, pid: nat, m: Message)
    requires LegalRun(s, es) && OfOthers(es, pid) && pid < s.begun && pid in s.pubs && s.pubs[pid] == Logging(m)
    ensures pid in Run(s, es).pubs && Run(s, es).pubs[pid] == Logging(m)
    decreases |es|
  {
    if es != [] {
      LoggingStep(s, es[0], pid, m);
      StaysLogging(Step(s, es[0]), es[1..], pid, m);
    }
  }

  lemma LoggingStep(s: State, e: Event, pid: nat, m: Message)
    requires e != Resume(pid) && e != Abandon(pid) && pid < s.begun && pid in s.pubs && s.pubs[pid] == Logging(m)
    ensures pid in Step(s, e).pubs && Step(s, e).pubs[pid] == Logging(m) && pid < Step(s, e).begun
  {}

  /** A publication that is over does not come back. */
  lemma {:induction false} StaysOver(s: State, es: seq<Event>, pid: nat)
    requires LegalRun(s, es) && pid < s.begun && pid !in s.pubs
    ensures pid !in Run(s, es).pubs
    decreases |es|
  {
    if es != [] {
      OverStep(s, es[0], pid);
      StaysOver(Step(s, es[0]), es[1..], pid);
    }
  }

  lemma OverStep(s: State, e: Event, pid: nat)
    requires Legal(s, e) && pid < s.begun && pid !in s.pubs
    ensures pid !in Step(s, e).pubs && pid < Step(s, e).begun
  {}

  /** Which of the subscriptions nobody takes off the topic. */
  function StillIn(subs: seq<Subscription>, es: seq<Event>, topic: string): seq<Subscription>
    decreases es
  {
    if es == [] then subs
    else
      var e := es[0];
      StillIn(if e.Leave? && e.topic == topic then Without(subs, e.role, e.instanceId) else subs, es[1..], topic)
  }

  /** Who joins the topic and is not taken off again. */
  function JoinedAndStill(es: seq<Event>, topic: string): seq<Subscription> {
    if es == [] then []
    else
      var joined := if es[0].Join? && es[0].sub.topic == topic then [es[0].sub] else [];
      StillIn(joined, es[1..], topic) + JoinedAndStill(es[1..], topic)
  }

  lemma {:induction false} StillInConcat(a: seq<Subscription>, b: seq<Subscription>, es: seq<Event>, topic: string)
    ensures StillIn(a + b, es, topic) == StillIn(a, es, topic) + StillIn(b, es, topic)
    decreases |es|
  {
    if es != [] {
      var e := es[0];
      if e.Leave? && e.topic == topic {
        WithoutConcat(a, b, e.role, e.instanceId);
        StillInConcat(Without(a, e.role, e.instanceId), Without(b, e.role, e.instanceId), es[1..], topic);
      } else {
        StillInConcat(a, b, es[1..], topic);
      }
    }
  }

  lemma InForceStep(s: State, e: Event, topic: string)
    requires TableOk(s)
    ensures var subs := InForceNow(s, topic);
      InForceNow(Step(s, e), topic) ==
      (if e.Leave? && e.topic == topic then Without(subs, e.role, e.instanceId) else subs)
      + (if e.Join? && e.sub.topic == topic then [e.sub] else [])
  {
    var subs := InForceNow(s, topic);
    assert subs + [] == subs;
    match e
    case Join(sub) => JoinInForce(s, sub, topic);
    case Leave(role, instanceId, t) =>
      LeaveInForce(s, role, instanceId, t, topic);
      assert Without(subs, role, instanceId) + [] == Without(subs, role, instanceId);
    case Resume(pid) => ResumeKeepsLists(s, pid);
    case _ => assert Step(s, e).table == s.table && Step(s, e).lists == s.lists;
  }

  /** The subscriptions in force after any events: those that stay, then those that joined and stay. */
  lemma {:induction false} InForceLater(s: State, es: seq<Event>, topic: string)
    requires TableOk(s) && LegalRun(s, es)
    ensures InForceNow(Run(s, es), topic) == StillIn(InForceNow(s, topic), es, topic) + JoinedAndStill(es, topic)
    decreases |es|
  {
    if es == [] {
      assert InForceNow(s, topic) + [] == InForceNow(s, topic);
    } else {
      var e, s' := es[0], Step(s, es[0]);
      var kept := if e.Leave? && e.topic == topic then Without(InForceNow(s, topic), e.role, e.instanceId)
                  else InForceNow(s, topic);
      var joined := if e.Join? && e.sub.topic == topic then [e.sub] else [];
      TableKeeps(s, e);
      InForceStep(s, e, topic);
      InForceLater(s', es[1..], topic);
      StillInConcat(kept, joined, es[1..], topic);
      AppendAssociates(StillIn(kept, es[1..], topic), StillIn(joined, es[1..], topic),
                       JoinedAndStill(es[1..], topic));
    }
  }

  lemma {:induction false} LastDoesNotJoin(es: seq<Event>, last: Event, topic: string)
    requires !last.Join?
    ensures JoinedBefore(es + [last], topic) == JoinedBefore(es, topic)
  {
    if es == [] {
      assert [last][1..] == [];
    } else {
      assert (es + [last])[1..] == es[1..] + [last];
      LastDoesNotJoin(es[1..], last, topic);
    }
  }

  /** The loop ends at its first step, or at a later one of its own. */
  predicate EndsLoop(loop: seq<Event>, pid: nat) {
    loop == [] || loop[|loop| - 1] == Resume(pid)
  }

  lemma LoopServes(s: State, loop: seq<Event>, pid: nat)
    requires Inv(s) && pid in s.pubs && s.pubs[pid].Logging? && EndsLoop(loop, pid)
    requires LegalRun(s, [Resume(pid)] + loop) && pid !in Run(s, [Resume(pid)] + loop).pubs
    ensures var m := s.pubs[pid].message;
      ServedBy(Run(s, [Resume(pid)] + loop).ledger, pid)
        == Accepting(InForceNow(s, m.topic) + JoinedBefore(loop, m.topic), m)
  {
    var m := s.pubs[pid].message;
    ConsRun(s, Resume(pid), loop);
    if loop == [] {
      AtOnceServes(s, pid);
      assert InForceNow(s, m.topic) + [] == InForceNow(s, m.topic);
    } else {
      var between := loop[..|loop| - 1];
      assert loop == between + [Resume(pid)];
      assert [Resume(pid)] + between + [Resume(pid)] == [Resume(pid)] + loop;
      LoopHasList(s, between, pid);
      PublicationServes(s, between, pid);
      LastDoesNotJoin(between, Resume(pid), m.topic);
    }
  }

  /** What is over at its first step has served nobody, and there was nobody to serve. */
  lemma AtOnceServes(s: State, pid: nat)
    requires Inv(s) && pid in s.pubs && s.pubs[pid].Logging? && pid !in Step(s, Resume(pid)).pubs
    ensures var m := s.pubs[pid].message;
      ServedBy(Step(s, Resume(pid)).ledger, pid) == [] == Accepting(InForceNow(s, m.topic), m)
  {
    assert PubOk(s, pid);
    NobodyToServe(s, pid);
  }

  /** A loop that goes on after its first step stands in a registered list. */
  lemma LoopHasList(s: State, between: seq<Event>, pid: nat)
    requires Inv(s) && pid in s.pubs && s.pubs[pid].Logging?
    requires LegalRun(s, [Resume(pid)] + between + [Resume(pid)])
    ensures s.pubs[pid].message.topic in s.table
  {
    assert PubOk(s, pid);
    RunSplits(s, [Resume(pid)] + between, [Resume(pid)]);
    ConsRun(s, Resume(pid), between);
    if s.pubs[pid].message.topic !in s.table {
      StaysOver(Step(s, Resume(pid)), between, pid);
    }
  }

  /** Up to its loop. */
  lemma WaitsForLog(s: State, m: Message, pre: seq<Event>) returns (s1: State)
    requires Inv(s) && OfOthers(pre, s.begun) && LegalRun(s, [Begin(m)] + pre)
    ensures s1 == Run(s, [Begin(m)] + pre) && Inv(s1) && s.begun in s1.pubs && s1.pubs[s.begun] == Logging(m)
    ensures InForceNow(s1, m.topic)
      == StillIn(InForceNow(s, m.topic), pre, m.topic) + JoinedAndStill(pre, m.topic)
  {
    var s0 := Step(s, Begin(m));
    ConsRun(s, Begin(m), pre);
    StepKeepsInv(s, Begin(m));
    StaysLogging(s0, pre, s.begun, m);
    RunKeepsInv(s0, pre);
    InForceLater(s0, pre, m.topic);
    assert InForceNow(s0, m.topic) == InForceNow(s, m.topic);
    s1 := Run(s0, pre);
  }

  /** A whole publication, with anything in between: while it waits for its log entry (`pre`), and in
      its loop.  Served are, once each and in order, the subscriptions that take the message among
      those in force when the loop began and those that joined the loop before anybody left. */
  lemma PublishServes(s: State, m: Message, pre: seq<Event>, loop: seq<Event>)
    requires Inv(s) && OfOthers(pre, s.begun) && EndsLoop(loop, s.begun)
    requires LegalRun(s, [Begin(m)] + pre + ([Resume(s.begun)] + loop))
    requires s.begun !in Run(s, [Begin(m)] + pre + ([Resume(s.begun)] + loop)).pubs
    ensures ServedBy(Run(s, [Begin(m)] + pre + ([Resume(s.begun)] + loop)).ledger, s.begun)
      == Accepting(StillIn(InForceNow(s, m.topic), pre, m.topic), m)
         + Accepting(JoinedAndStill(pre, m.topic) + JoinedBefore(loop, m.topic), m)
  {
    RunSplits(s, [Begin(m)] + pre, [Resume(s.begun)] + loop);
    var s1 := WaitsForLog(s, m, pre);
    LoopServes(s1, loop, s.begun);
    var kept, joined := StillIn(InForceNow(s, m.topic), pre, m.topic), JoinedAndStill(pre, m.topic);
    AppendAssociates(kept, joined, JoinedBefore(loop, m.topic));
    AcceptingConcat(kept, joined + JoinedBefore(loop, m.topic), m);
  }

  /** Somebody who takes the message is taken off the topic. */
  ghost predicate SomebodyLeaves(takers: seq<Subscription>, es: seq<Event>, topic: string) {
    exists k, i :: 0 <= k < |es| && 0 <= i < |takers| && es[k] == Leave(takers[i].role, takers[i].instanceId, topic)
  }

  /** Taking off subscriptions takes off those among them that take the message. */
  lemma {:induction false} AcceptingWithout(subs: seq<Subscription>, role: string, instanceId: string, m: Message)
    ensures Accepting(Without(subs, role, instanceId), m) == Without(Accepting(subs, m), role, instanceId)
  {
    if subs != [] {
      var init, last := subs[..|subs| - 1], subs[|subs| - 1];
      AcceptingWithout(init, role, instanceId, m);
      AcceptingConcat(Without(init, role, instanceId), Without([last], role, instanceId), m);
      WithoutConcat(Accepting(init, m), Accepting([last], m), role, instanceId);
      assert [last][..0] == [] && Without([], role, instanceId) == [];
      WithoutConcat(init, [last], role, instanceId);
      assert init + [last] == subs;
    }
  }

  lemma {:induction false} WithoutShortens(subs: seq<Subscription>, role: string, instanceId: string)
    ensures |Without(subs, role, instanceId)| <= |subs|
    ensures Without(subs, role, instanceId) == subs || |Without(subs, role, instanceId)| < |subs|
    ensures Without(subs, role, instanceId) == subs
      <==> forall i :: 0 <= i < |subs| ==> !(subs[i].role == role && subs[i].instanceId == instanceId)
  {
    if subs != [] {
      var init := subs[..|subs| - 1];
      WithoutShortens(init, role, instanceId);
      assert subs == init + [subs[|subs| - 1]];
    }
  }

  lemma {:induction false} AcceptingStillIn(subs: seq<Subscription>, es: seq<Event>, topic: string, m: Message)
    ensures Accepting(StillIn(subs, es, topic), m) == StillIn(Accepting(subs, m), es, topic)
    decreases |es|
  {
    if es != [] {
      var e := es[0];
      if e.Leave? && e.topic == topic {
        AcceptingWithout(subs, e.role, e.instanceId, m);
        AcceptingStillIn(Without(subs, e.role, e.instanceId), es[1..], topic, m);
      } else {
        AcceptingStillIn(subs, es[1..], topic, m);
      }
    }
  }

  lemma {:induction false} StillInShortens(subs: seq<Subscription>, es: seq<Event>, topic: string)
    ensures |StillIn(subs, es, topic)| <= |subs|
    decreases |es|
  {
    if es != [] {
      var e := es[0];
      if e.Leave? && e.topic == topic {
        WithoutShortens(subs, e.role, e.instanceId);
        StillInShortens(Without(subs, e.role, e.instanceId), es[1..], topic);
      } else {
        StillInShortens(subs, es[1..], topic);
      }
    }
  }

  lemma LeavesNowOrLater(takers: seq<Subscription>, es: seq<Event>, topic: string)
    requires es != []
    ensures SomebodyLeaves(takers, es, topic) <==>
      SomebodyLeaves(takers, [es[0]], topic) || SomebodyLeaves(takers, es[1..], topic)
  {
    if SomebodyLeaves(takers, es, topic) {
      var k, i :| 0 <= k < |es| && 0 <= i < |takers| && es[k] == Leave(takers[i].role, takers[i].instanceId, topic);
      assert if k == 0 then [es[0]][0] == es[k] else es[1..][k - 1] == es[k];
    }
    if SomebodyLeaves(takers, es[1..], topic) {
      var k, i :| 0 <= k < |es[1..]| && 0 <= i < |takers|
        && es[1..][k] == Leave(takers[i].role, takers[i].instanceId, topic);
      assert es[k + 1] == es[1..][k];
    }
    if SomebodyLeaves(takers, [es[0]], topic) {
      assert [es[0]][0] == es[0];
    }
  }

  /** All of them stay exactly when none of them is taken off. */
  lemma {:induction false} AllStayIff(takers: seq<Subscription>, es: seq<Event>, topic: string)
    ensures StillIn(takers, es, topic) == takers <==> !SomebodyLeaves(takers, es, topic)
    decreases |es|
  {
    if es != [] {
      var e := es[0];
      LeavesNowOrLater(takers, es, topic);
      AllStayIff(takers, es[1..], topic);
      if e.Leave? && e.topic == topic {
        WithoutShortens(takers, e.role, e.instanceId);
        StillInShortens(Without(takers, e.role, e.instanceId), es[1..], topic);
        OneLeaves(takers, e, topic);
      }
    }
  }

  lemma OneLeaves(takers: seq<Subscription>, e: Event, topic: string)
    requires e.Leave? && e.topic == topic
    ensures SomebodyLeaves(takers, [e], topic)
      <==> exists i :: 0 <= i < |takers| && takers[i].role == e.role && takers[i].instanceId == e.instanceId
  {
    if i :| 0 <= i < |takers| && takers[i].role == e.role && takers[i].instanceId == e.instanceId {
      assert [e][0] == Leave(takers[i].role, takers[i].instanceId, topic);
    }
  }

  /** Who takes the message when it is published gets it, and nobody else, if and only if those who
      are taken off before the loop begins are the last of them and exactly these join again, in
      order.  When nobody who joins had been in force, that is: if and only if none of them is taken
      off before the loop begins and nobody who takes the message joins and stays for the loop. */
  lemma PublishReachesIff(s: State, m: Message, pre: seq<Event>, loop: seq<Event>)
    requires Inv(s) && OfOthers(pre, s.begun) && EndsLoop(loop, s.begun)
    requires LegalRun(s, [Begin(m)] + pre + ([Resume(s.begun)] + loop))
    requires s.begun !in Run(s, [Begin(m)] + pre + ([Resume(s.begun)] + loop)).pubs
    ensures var served := ServedBy(Run(s, [Begin(m)] + pre + ([Resume(s.begun)] + loop)).ledger, s.begun);
      var takers := Accepting(InForceNow(s, m.topic), m);
      var kept := StillIn(takers, pre, m.topic);
      var joined := Accepting(JoinedAndStill(pre, m.topic) + JoinedBefore(loop, m.topic), m);
      && served == kept + joined
      && (served == takers <==> kept <= takers && joined == takers[|kept|..])
      && ((forall x :: x in joined ==> x !in takers) ==>
            (served == takers <==> !SomebodyLeaves(takers, pre, m.topic) && joined == []))
  {
    var takers := Accepting(InForceNow(s, m.topic), m);
    var kept := StillIn(takers, pre, m.topic);
    var joined := Accepting(JoinedAndStill(pre, m.topic) + JoinedBefore(loop, m.topic), m);
    PublishServes(s, m, pre, loop);
    AcceptingStillIn(InForceNow(s, m.topic), pre, m.topic, m);
    AllStayIff(takers, pre, m.topic);
    PartsOfTakers(takers, kept, joined);
  }

  lemma PartsOfTakers(takers: seq<Subscription>, kept: seq<Subscription>, joined: seq<Subscription>)
    ensures kept + joined == takers <==> kept <= takers && joined == takers[|kept|..]
    ensures (forall x :: x in joined ==> x !in takers) ==> (kept + joined == takers <==> kept == takers && joined == [])
  {
    if kept + joined == takers && joined != [] {
      assert joined[0] == takers[|kept|] && joined[0] in takers;
    }
    assert joined == [] ==> kept + joined == kept;
  }

  /** Two roles are subscribed, and the second leaves when a message has just been published. */
  lemma LeavesEarly(a: Subscription, b: Subscription, m: Message) returns (s: State, s2: State)
    requires a.topic == b.topic == m.topic && a.role != b.role
    ensures Inv(s) && InForceNow(s, m.topic) == [a, b] && s.begun == 0
    ensures s2 == Step(Step(s, Begin(m)), Leave(b.role, b.instanceId, m.topic))
    ensures InForceNow(s2, m.topic) == [a] && s2.ledger == []
    ensures m.topic in s2.table && s2.table[m.topic] == 1 && 1 in s2.lists && s2.pubs == map[0 := Logging(m)]
  {
    s := Register(FRESH, m.topic, [a, b]);
    FreshIsInv();
    assert [a, b][..1] == [a] && [a][..0] == [] && [] + [a] == [a] && [a] + [] == [a];
    assert Without([a], b.role, b.instanceId) == [a];
    assert Without([a, b], b.role, b.instanceId) == [a];
    s2 := Step(Step(s, Begin(m)), Leave(b.role, b.instanceId, m.topic));
  }

  /** A role that leaves while the publication waits for its log entry does not get the message. */
  lemma EarlyLeaverMissesIt(a: Subscription, b: Subscription, m: Message) returns (s: State)
    requires Accepts(a, m) && Accepts(b, m) && a.topic == b.topic == m.topic && a.role != b.role
    ensures Inv(s) && InForceNow(s, m.topic) == [a, b] && s.begun == 0
    ensures var es := [Begin(m), Leave(b.role, b.instanceId, m.topic), Resume(0), Resume(0)];
      LegalRun(s, es) && 0 !in Run(s, es).pubs && ServedBy(Run(s, es).ledger, 0) == [a]
  {
    var s2;
    s, s2 := LeavesEarly(a, b, m);
    var s3, k := AdvanceMoves(s2, 0, m, 1, 0);
    var s4, k' := AdvanceMoves(s3, 0, m, 1, 1);
    assert s3.ledger == [Handing(0, a, m)] by {
      assert [] + [Handing(0, a, m)] == [Handing(0, a, m)];
    }
    LedgerGrows([], Handing(0, a, m), 0, "");
    FourSteps(s, Begin(m), Leave(b.role, b.instanceId, m.topic), Resume(0), Resume(0));
  }

  lemma FourSteps(s: State, a: Event, b: Event, c: Event, d: Event)
    ensures var s1 := Step(s, a);
      var s2 := Step(s1, b);
      var s3 := Step(s2, c);
      && Run(s, [a, b, c, d]) == Step(s3, d)
      && (LegalRun(s, [a, b, c, d]) <==> Legal(s, a) && Legal(s1, b) && Legal(s2, c) && Legal(s3, d))
  {
    ConsRun(s, a, [b, c, d]);
    ConsRun(Step(s, a), b, [c, d]);
    ConsRun(Step(Step(s, a), b), c, [d]);
    assert [a] + [b, c, d] == [a, b, c, d] && [b] + [c, d] == [b, c, d] && [c] + [d] == [c, d];
    assert [d][1..] == [];
  }
}
