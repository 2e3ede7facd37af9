/**
  Correlation of responses in a hosted MCP connection.

  A request gets the next internal id and a future; the pump settles futures from what the
  server sends.  A future is named by its internal id.  A send may fail, and then nobody waits
  for the future that was made for it.  `handle_message` waits in the middle,
  so it is two events here: sending the request, and going on once the future is done.  All
  sections refer to the JSON-RPC 2.0 specification.
  */
module McpCorrelation {
  import opened Options

  /** A message id on the wire is a number or a string (section 4). */
  datatype Id = Number(n: nat) | Text(s: string)

  /** A result is an object or something else; only objects are passed on. */
  datatype Json = Object(fields: string) | NotObject

  datatype Result = Fields(json: Json) | ErrorField(error: string)

  datatype Future = Waiting | Returned(result: Result) | Raised(error: string) | Cancelled

  datatype Message =
    | Request(id: nat, name: string)
    | Unsent(id: nat, name: string)
    | Notification(name: string)
    | Reply(to: Id, answer: string)

  /** What the pump reads from the server. */
  datatype Item =
    | Exception(error: string)
    | Response(id: Id, result: Json)
    | ErrorResponse(id: Id, message: string)
    | ServerRequest(id: Id, answer: string)   // with the answer of the external side
    | ServerNotification

  datatype Event =
    | SendRequest(name: string, ok: bool)
    | SendNotification(name: string, ok: bool)
    | Pump(item: Item)
    | Resume(id: nat)
    | CallerCancelled(id: nat)
    | Close

  datatype State = State(
    started: bool, messageId: nat, pending: set<nat>, futures: map<nat, Future>, sent: seq<Message>)

  const FRESH := State(false, 0, {}, map[], [])

  predicate Done(f: Future) {
    !f.Waiting?
  }

  function AsObject(j: Json): Json {
    if j.Object? then j else Object("")
  }

  // ---------- One event ----------

  /** Settles the future of an id that is pending and not done. */
  function Settle(s: State, id: Id, f: Future): State {
    if id.Number? && id.n in s.pending && id.n in s.futures && !Done(s.futures[id.n])
    then s.(futures := s.futures[id.n := f])
    else s
  }

  /** All pending futures are settled but those of `rest`. */
  function SettledBut(futures: map<nat, Future>, pending: set<nat>, rest: set<nat>, f: Future): map<nat, Future> {
    map i | i in futures :: if i in pending && i !in rest && !Done(futures[i]) then f else futures[i]
  }

  /** Settles every pending future that is not done. */
  function SettleAll(s: State, f: Future): State {
    s.(futures := SettledBut(s.futures, s.pending, {}, f))
  }

  function Step(s: State, e: Event): State {
    match e
    case SendRequest(name, ok) =>
      var id := s.messageId + 1;
      State(true, id, s.pending + {id}, s.futures[id := Waiting], s.sent + [Tried(id, name, ok)])
    case SendNotification(name, ok) =>
      s.(started := true, sent := if ok then s.sent + [Notification(name)] else s.sent)
    case Pump(item) => StepPump(s, item)
    case Resume(id) => s.(pending := s.pending - {id})
    case CallerCancelled(id) => Settle(s, Number(id), Cancelled).(pending := s.pending - {id})
    case Close => SettleAll(s, Cancelled).(started := false, pending := {})
  }

  function Tried(id: nat, name: string, ok: bool): Message {
    if ok then Request(id, name) else Unsent(id, name)
  }

  function StepPump(s: State, item: Item): State {
    match item
    case Exception(error) => SettleAll(s, Raised(error))
    case Response(id, result) => Settle(s, id, Returned(Fields(AsObject(result))))
    case ErrorResponse(id, message) => Settle(s, id, Returned(ErrorField(message)))
    case ServerRequest(id, answer) => s.(sent := s.sent + [Reply(id, answer)])
    case ServerNotification => s
  }

  /** The pump runs while the connection is open, and a caller goes on when its future is done. */
  predicate Legal(s: State, e: Event) {
    match e
    case Pump(_) => s.started
    case Resume(id) => id in s.futures && Done(s.futures[id])
    case CallerCancelled(id) => id in s.pending
    case _ => true
  }

  function Run(s: State, es: seq<Event>): State
    decreases |es|
  {
    if es == [] then s else Run(Step(s, es[0]), es[1..])
  }

  predicate LegalRun(s: State, es: seq<Event>)
    decreases |es|
  {
    es == [] || (Legal(s, es[0]) && LegalRun(Step(s, es[0]), es[1..]))
  }

  lemma SettledNone(futures: map<nat, Future>, pending: set<nat>, f: Future)
    ensures SettledBut(futures, pending, pending * futures.Keys, f) == futures
  {}

  lemma SettleOne(futures: map<nat, Future>, pending: set<nat>, rest: set<nat>, i: nat, f: Future)
    requires i in rest && rest <= pending * futures.Keys
    ensures var now := SettledBut(futures, pending, rest, f);
      && now[i] == futures[i]
      && SettledBut(futures, pending, rest - {i}, f) == if Done(futures[i]) then now else now[i := f]
  {}

  // ---------- The connection ----------

  class HostedMcpConnection {
    var started: bool
    var messageId: nat
    var pending: set<nat>
    var futures: map<nat, Future>
    var sent: seq<Message>

    ghost function Contents(): State
      reads this
    {
      State(started, messageId, pending, futures, sent)
    }

    constructor ()
      ensures Contents() == FRESH
    {
      started, messageId, pending, futures, sent := false, 0, {}, map[], [];
    }

    method NextMessageId() returns (id: nat)
      modifies `messageId
      ensures id == messageId == old(messageId) + 1
    {
      messageId := messageId + 1;
      return messageId;
    }

    /** `handle_message` up to the point where it waits, or to the exception of a send that fails; no
        id for a notification. */
    method SendMessage(name: string, wantsReply: bool, sends: bool) returns (id: Option<nat>, raised: bool)
      modifies this
      ensures Contents() ==
        Step(old(Contents()), if wantsReply then SendRequest(name, sends) else SendNotification(name, sends))
      ensures id == (if wantsReply then Some(old(messageId) + 1) else None) && raised == !sends
    {
      started := true;
      raised := !sends;
      if !wantsReply {
        if sends {
          sent := sent + [Notification(name)];
        }
        return None, raised;
      }
      var next := NextMessageId();
      futures := futures[next := Waiting];
      pending := pending + {next};
      sent := sent + [if sends then Request(next, name) else Unsent(next, name)];
      return Some(next), raised;
    }

    /** `handle_message` after its wait: the outcome, and the entry is dropped. */
    method TakeOutcome(id: nat) returns (outcome: Future)
      requires id in futures && Done(futures[id])
      modifies `pending
      ensures outcome == old(futures)[id] && Contents() == Step(old(Contents()), Resume(id))
    {
      outcome := futures[id];
      pending := pending - {id};
    }

    method SetAll(f: Future)
      modifies `futures
      ensures Contents() == SettleAll(old(Contents()), f)
    {
      var before := futures;
      var rest := pending * futures.Keys;
      SettledNone(futures, pending, f);
      while rest != {}
        invariant rest <= pending * before.Keys
        invariant futures == SettledBut(before, pending, rest, f)
        decreases |rest|
      {
        var i :| i in rest;
        SettleOne(before, pending, rest, i, f);
        if !Done(futures[i]) {
          futures := futures[i := f];
        }
        rest := rest - {i};
      }
    }

    /** One item of `_pump_messages`. */
    method PumpMessage(item: Item)
      modifies this
      ensures Contents() == StepPump(old(Contents()), item)
    {
      match item
      case Exception(error) =>
        SetAll(Raised(error));
      case Response(id, result) =>
        if id.Number? && id.n in pending && id.n in futures && !Done(futures[id.n]) {
          futures := futures[id.n := Returned(Fields(if result.Object? then result else Object("")))];
        }
      case ErrorResponse(id, message) =>
        if id.Number? && id.n in pending && id.n in futures && !Done(futures[id.n]) {
          futures := futures[id.n := Returned(ErrorField(message))];
        }
      case ServerRequest(id, answer) =>
        sent := sent + [Reply(id, answer)];
      case ServerNotification =>
    }

    method CloseConnection()
      modifies this
      ensures Contents() == Step(old(Contents()), Close)
    {
      SetAll(Cancelled);
      pending := {};
      started := false;
    }
  }

  // ---------- The invariant ----------

  ghost predicate Inv(s: State) {
    && (forall i :: i in s.futures <==> 0 < i <= s.messageId)
    && (forall i :: i in s.pending ==> i in s.futures)
    && (forall i :: i in s.futures && !Done(s.futures[i]) ==> i in s.pending && s.started)
  }

  lemma StepKeepsInv(s: State, e: Event)
    requires Inv(s) && Legal(s, e)
    ensures Inv(Step(s, e))
  {}

  // ---------- Ids ----------

  predicate TakesId(m: Message) {
    m.Request? || m.Unsent?
  }

  /** The internal ids of the requests, in the order in which they were sent or failed to be. */
  function Issued(sent: seq<Message>): seq<nat> {
    if sent == [] then []
    else
      var last := sent[|sent| - 1];
      Issued(sent[..|sent| - 1]) + (if TakesId(last) then [last.id] else [])
  }

  lemma IssuedGrows(sent: seq<Message>, m: Message)
    ensures Issued(sent + [m]) == Issued(sent) + (if TakesId(m) then [m.id] else [])
  {
    assert (sent + [m])[..|sent|] == sent;
  }

  predicate Numbered(sent: seq<Message>, n: nat) {
    |Issued(sent)| == n && forall k :: 0 <= k < n ==> Issued(sent)[k] == k + 1
  }

  predicate Counts(s: State) {
    Numbered(s.sent, s.messageId)
  }

  lemma NumberedGrows(sent: seq<Message>, n: nat, m: Message)
    requires Numbered(sent, n) && (TakesId(m) ==> m.id == n + 1)
    ensures Numbered(sent + [m], if TakesId(m) then n + 1 else n)
  {
    IssuedGrows(sent, m);
  }

  /** What an event adds to the messages, and the id it takes. */
  lemma SentStep(s: State, e: Event) returns (m: Option<Message>, s': State)
    ensures s' == Step(s, e)
    ensures match m
      case None => s'.sent == s.sent && s'.messageId == s.messageId
      case Some(x) =>
        && s'.sent == s.sent + [x] && (TakesId(x) ==> x.id == s.messageId + 1)
        && s'.messageId == if TakesId(x) then s.messageId + 1 else s.messageId
  {
    s' := Step(s, e);
    match e {
      case SendRequest(name, ok) => m := Some(Tried(s.messageId + 1, name, ok));
      case SendNotification(name, ok) => m := if ok then Some(Notification(name)) else None;
      case Pump(ServerRequest(id, answer)) => m := Some(Reply(id, answer));
      case _ => m := None;
    }
  }

  lemma CountsStep(s: State, e: Event)
    requires Counts(s)
    ensures Counts(Step(s, e))
  {
    var m, s' := SentStep(s, e);
    if m.Some? {
      NumberedGrows(s.sent, s.messageId, m.value);
    }
  }

  /** Internal ids are 1, 2, 3, ... over the whole life of the connection, however often it is
      closed and started again: strictly increasing and never reused. */
  lemma {:induction false} IdsCountUp(s: State, es: seq<Event>)
    requires Counts(s)
    ensures Counts(Run(s, es))
    decreases |es|
  {
    if es != [] {
      CountsStep(s, es[0]);
      IdsCountUp(Step(s, es[0]), es[1..]);
    }
  }

  // ---------- What settles a future ----------

  /** How an event settles the future of `id`, whatever the connection has recorded: a response
      or an error with that very id (section 5), an exception of the transport, the end of the
      connection, or its own caller going away. */
  function Settles(e: Event, id: nat): Option<Future> {
    match e
    case Pump(Exception(error)) => Some(Raised(error))
    case Pump(Response(i, result)) => if i == Number(id) then Some(Returned(Fields(AsObject(result)))) else None
    case Pump(ErrorResponse(i, message)) => if i == Number(id) then Some(Returned(ErrorField(message))) else None
    case Close => Some(Cancelled)
    case CallerCancelled(i) => if i == id then Some(Cancelled) else None
    case _ => None
  }

  /** The outcome by the first event that settles it. */
  function FirstSettling(es: seq<Event>, id: nat): Future {
    if es == [] then Waiting
    else match Settles(es[0], id)
      case Some(f) => f
      case None => FirstSettling(es[1..], id)
  }

  lemma StepSettles(s: State, e: Event, id: nat)
    requires Inv(s) && Legal(s, e) && id in s.futures
    ensures id in Step(s, e).futures
    ensures Step(s, e).futures[id] == if Done(s.futures[id]) then s.futures[id] else Settles(e, id).GetOr(Waiting)
  {}

  /** Once done, a future keeps its outcome for ever: it is settled at most once. */
  lemma {:induction false} OutcomeStays(s: State, es: seq<Event>, id: nat)
    requires Inv(s) && LegalRun(s, es) && id in s.futures && Done(s.futures[id])
    ensures id in Run(s, es).futures && Run(s, es).futures[id] == s.futures[id]
    decreases |es|
  {
    if es != [] {
      StepSettles(s, es[0], id);
      StepKeepsInv(s, es[0]);
      OutcomeStays(Step(s, es[0]), es[1..], id);
    }
  }

  /** Over any run, the outcome of a waiting request is given by the first event that concerns
      it, and by nothing else: not by responses to other requests, duplicates or strangers. */
  lemma {:induction false} OutcomeIsFirst(s: State, es: seq<Event>, id: nat)
    requires Inv(s) && LegalRun(s, es) && id in s.futures && !Done(s.futures[id])
    ensures id in Run(s, es).futures && Run(s, es).futures[id] == FirstSettling(es, id)
    decreases |es|
  {
    if es != [] {
      StepSettles(s, es[0], id);
      StepKeepsInv(s, es[0]);
      if Settles(es[0], id).Some? {
        OutcomeStays(Step(s, es[0]), es[1..], id);
      } else {
        OutcomeIsFirst(Step(s, es[0]), es[1..], id);
      }
    }
  }

  /** From sending on, whatever the connection has been through before. */
  lemma RequestIsCorrelated(before: seq<Event>, name: string, ok: bool, after: seq<Event>)
    requires LegalRun(FRESH, before + [SendRequest(name, ok)] + after)
    ensures var id, s := Run(FRESH, before).messageId + 1, Run(FRESH, before + [SendRequest(name, ok)] + after);
      id in s.futures && s.futures[id] == FirstSettling(after, id)
  {
    RunSplits(FRESH, before + [SendRequest(name, ok)], after);
    RunSplits(FRESH, before, [SendRequest(name, ok)]);
    RunKeepsInv(FRESH, before);
    var s := Run(FRESH, before);
    assert [SendRequest(name, ok)][1..] == [];
    StepKeepsInv(s, SendRequest(name, ok));
    OutcomeIsFirst(Step(s, SendRequest(name, ok)), after, s.messageId + 1);
  }

  lemma {:induction false} RunKeepsInv(s: State, es: seq<Event>)
    requires Inv(s) && LegalRun(s, es)
    ensures Inv(Run(s, es))
    decreases |es|
  {
    if es != [] {
      StepKeepsInv(s, es[0]);
      RunKeepsInv(Step(s, es[0]), es[1..]);
    }
  }

  lemma {:induction false} RunSplits(s: State, a: seq<Event>, b: seq<Event>)
    ensures Run(s, a + b) == Run(Run(s, a), b)
    ensures LegalRun(s, a + b) <==> LegalRun(s, a) && LegalRun(Run(s, a), b)
    decreases |a|
  {
    if a == [] {
      assert a + b == b;
    } else {
      assert (a + b)[1..] == a[1..] + b;
      RunSplits(Step(s, a[0]), a[1..], b);
    }
  }

  // ---------- Entries ----------

  /** Takes the entry of `id` out of the table. */
  predicate Drops(e: Event, id: nat) {
    e.Close? || ((e.Resume? || e.CallerCancelled?) && e.id == id)
  }

  /** An entry is in the table until its caller goes on or away, or the connection is closed.  After
      a send that failed nobody is there to go on: the entry stays until the close. */
  lemma {:induction false} EntryStaysIff(s: State, es: seq<Event>, id: nat)
    requires Inv(s) && LegalRun(s, es) && id in s.pending
    ensures id in Run(s, es).pending <==> forall k :: 0 <= k < |es| ==> !Drops(es[k], id)
    decreases |es|
  {
    if es != [] {
      StepKeepsInv(s, es[0]);
      if Drops(es[0], id) {
        GoneForGood(Step(s, es[0]), es[1..], id);
      } else {
        EntryStaysIff(Step(s, es[0]), es[1..], id);
        assert forall k :: 0 < k < |es| ==> es[k] == es[1..][k - 1];
        assert forall k :: 0 <= k < |es[1..]| ==> es[1..][k] == es[k + 1];
      }
    }
  }

  lemma {:induction false} GoneForGood(s: State, es: seq<Event>, id: nat)
    requires Inv(s) && LegalRun(s, es) && id !in s.pending && id <= s.messageId
    ensures id !in Run(s, es).pending
    decreases |es|
  {
    if es != [] {
      StepKeepsInv(s, es[0]);
      GoneForGood(Step(s, es[0]), es[1..], id);
    }
  }

  // ---------- Strays ----------

  /** A response or an error that nobody waits for: an unknown id, a string, or a second one. */
  predicate Stray(s: State, e: Event) {
    e.Pump? && (e.item.Response? || e.item.ErrorResponse?)
    && (e.item.id.Number? ==> e.item.id.n !in s.pending || (e.item.id.n in s.futures && Done(s.futures[e.item.id.n])))
  }

  /** The run without the strays that the server sends in the course of it. */
  function WithoutStrays(s: State, es: seq<Event>): seq<Event>
    decreases |es|
  {
    if es == [] then []
    else if Stray(s, es[0]) then WithoutStrays(Step(s, es[0]), es[1..])
    else [es[0]] + WithoutStrays(Step(s, es[0]), es[1..])
  }

  /** Strays change nothing at all: every run ends as it does without them. */
  lemma {:induction false} StraysChangeNothing(s: State, es: seq<Event>)
    requires LegalRun(s, es)
    ensures LegalRun(s, WithoutStrays(s, es)) && Run(s, WithoutStrays(s, es)) == Run(s, es)
    decreases |es|
  {
    if es != [] {
      StraysChangeNothing(Step(s, es[0]), es[1..]);
      if Stray(s, es[0]) {
        assert Step(s, es[0]) == s;
      } else {
        assert WithoutStrays(s, es)[1..] == WithoutStrays(Step(s, es[0]), es[1..]);
      }
    }
  }
}
