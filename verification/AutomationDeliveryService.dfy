/**
  The delivery service and its repository as objects.

  The service keeps the state of the machine of AutomationDelivery as a ghost field; `Valid`
  ties its real fields to that state.  Every method says exactly which events it goes
  through.  What a channel answers, what the event log says about a run and what becomes of
  a notification are passed in.
  */
module AutomationDeliveryService {
  import opened Options
  import opened Ordering
  import opened Passes
  import opened Whitespace
  import opened AutomationDelivery
  import Theorems = AutomationDeliveryTheorems

  // ---------- The repository ----------

  class AutomationDeliveryRepository {
    var rows: map<nat, Delivery>
    var lastId: nat

    constructor ()
      ensures rows == map[] && lastId == 0
    {
      rows, lastId := map[], 0;
    }

    /** `run_id` is unique; a second row for a run is refused. */
    method Create(row: Delivery) returns (id: Option<nat>)
      modifies this
      ensures id.Some? <==> forall i :: i in old(rows) ==> old(rows)[i].run != row.run
      ensures id.Some? ==> id.value == old(lastId) + 1 == lastId && rows == old(rows)[lastId := row]
      ensures id.None? ==> rows == old(rows) && lastId == old(lastId)
    {
      if exists i :: i in rows && rows[i].run == row.run {
        return None;
      }
      lastId := lastId + 1;
      rows := rows[lastId := row];
      return Some(lastId);
    }

    method Update(id: nat, row: Delivery) returns (ok: bool)
      modifies `rows
      ensures ok == (id in old(rows))
      ensures rows == if ok then old(rows)[id := row] else old(rows)
    {
      ok := id in rows;
      if ok {
        rows := rows[id := row];
      }
    }

    method GetByRunId(run: string) returns (id: Option<nat>)
      ensures id.Some? ==> id.value in rows && rows[id.value].run == run
      ensures id.None? ==> forall i :: i in rows ==> rows[i].run != run
    {
      if exists i :: i in rows && rows[i].run == run {
        var i :| i in rows && rows[i].run == run;
        return Some(i);
      }
      return None;
    }

    /** `claim_started` and `claim_terminal`: takes a pending leg, or one whose lease has run out. */
    method Claim(leg: Leg, id: nat, staleBefore: int, now: int) returns (claimed: Option<Delivery>)
      modifies `rows
      ensures claimed.Some? <==> id in old(rows) && Claimable(old(rows)[id], leg, staleBefore)
      ensures claimed.Some? ==>
        claimed.value == ClaimedRow(old(rows)[id], leg, now) && rows == old(rows)[id := claimed.value]
      ensures claimed.None? ==> rows == old(rows)
    {
      if id in rows {
        var r := rows[id];
        var status := if leg.Started? then r.started else r.terminal;
        if status.Pending? || (status.Sending? && r.updatedAt <= staleBefore) {
          var taken :=
            if leg.Started? then r.(started := Sending, updatedAt := now)
            else r.(terminal := Sending, updatedAt := now);
          rows := rows[id := taken];
          return Some(taken);
        }
      }
      return None;
    }

    /** The oldest rows that satisfy the condition, at most `limit` of them. */
    method ListOldest(due: Delivery -> bool, limit: nat) returns (ids: seq<nat>)
      ensures IsListing(rows, ids, due, limit)
    {
      var all := SortByTime(DueTimes(rows, due));
      ids := if |all| > limit then all[..limit] else all;
      CutIsOldest(DueTimes(rows, due), all, limit, ids);
    }
  }

  ghost predicate IsListing(rows: map<nat, Delivery>, ids: seq<nat>, due: Delivery -> bool, limit: nat) {
    Oldest(DueTimes(rows, due), limit, ids)
  }

  function DueTimes(rows: map<nat, Delivery>, due: Delivery -> bool): map<nat, int> {
    map i | i in rows && due(rows[i]) :: rows[i].updatedAt
  }

  predicate CleanupDue(r: Delivery, staleBefore: int) {
    r.cleanup.CleanupPending? || (r.cleanup.Cleaning? && r.updatedAt <= staleBefore)
  }

  // ---------- What the outside world answers ----------

  /** The channel took the message, refused it with a RuntimeError, or broke in another way. */
  datatype SendResult = Delivered | Refused | Broke

  datatype NotifyResult = Notified | NoService | NotifyBroke

  /** One attempt: what the event log says, what the channel does and how long it takes, and
      what becomes of a notification. */
  datatype Answer = Answer(output: string, error: string, send: SendResult, elapsed: nat, notify: NotifyResult)

  // ---------- The events of each operation ----------

  function StartedMessage(r: Delivery): string {
    Strip("定时任务 " + r.projectName + " 开始执行")
  }

  predicate Open(st: Status) {
    st.Pending? || st.Sending?
  }

  /** The claim succeeds. */
  predicate Takes(s: State, id: nat, leg: Leg) {
    id in s.cells && s.cells[id].row.Some? && Claimable(s.cells[id].row.value, leg, s.clock - LEASE)
  }

  function SendEvents(id: nat, message: string, a: Answer, now: int): seq<Event> {
    [At(id, Send(message, a.send.Delivered?)), Tick(now + a.elapsed), At(id, if a.send.Broke? then Crash else Record)]
  }

  /** `_attempt_started_delivery` on a row as it was listed. */
  function StartedEvents(s: State, id: nat, listed: Delivery, a: Answer): seq<Event> {
    if !Open(listed.started) || !Takes(s, id, Started) then []
    else
      [At(id, Claim(Started, s.clock - LEASE, false))]
      + SendEvents(id, StartedMessage(s.cells[id].row.value), a, s.clock)
  }

  /** The run has ended and is not waiting for recovery. */
  predicate Ended(s: State, run: string) {
    run in s.runs && s.runs[run].finished && !s.runs[run].awaitingRecovery
  }

  /** The attempt that makes the terminal leg FAILED. */
  predicate GivesUp(r: Delivery, a: Answer) {
    a.send.Refused? && r.terminalAttempts + 1 >= TERMINAL_MAX_ATTEMPTS
  }

  /** `_attempt_terminal_delivery` on a row as it was listed. */
  function TerminalEvents(s: State, id: nat, listed: Delivery, a: Answer): seq<Event> {
    if !Open(listed.terminal) || !Ended(s, listed.run) || !Takes(s, id, Terminal) then []
    else
      var r, rt := s.cells[id].row.value, s.runs[listed.run];
      var message := TerminalMessage(r, rt.completed, a.output, a.error, rt.lastError);
      [At(id, Claim(Terminal, s.clock - LEASE, rt.completed))]
      + if !Worthy(r, rt.completed, message) then [At(id, SkipUnwanted(message))]
        else SendEvents(id, message, a, s.clock)
             + if GivesUp(r, a) then [At(id, if a.notify.Notified? then Notify else Crash)] else []
  }

  predicate StartedRaises(s: State, id: nat, listed: Delivery, a: Answer) {
    Open(listed.started) && Takes(s, id, Started) && a.send.Broke?
  }

  predicate TerminalRaises(s: State, id: nat, listed: Delivery, a: Answer) {
    Open(listed.terminal) && Ended(s, listed.run) && Takes(s, id, Terminal) &&
    AttemptRaises(s.cells[id].row.value, s.runs[listed.run], a)
  }

  // ---------- Runs ----------

  ghost predicate Went(s: State, es: seq<Event>, s': State) {
    LegalRun(s, es) && s' == Run(s, es)
  }

  lemma {:induction false} WentOn(s: State, a: seq<Event>, s': State, b: seq<Event>, s'': State)
    requires Went(s, a, s') && Went(s', b, s'')
    ensures Went(s, a + b, s'')
    decreases |a|
  {
    if a == [] {
      assert a + b == b;
    } else {
      assert (a + b)[1..] == a[1..] + b;
      WentOn(Step(s, a[0]), a[1..], s', b, s'');
    }
  }

  /** Some step of the run is one for which a pass reports progress. */
  predicate Progress(s: State, es: seq<Event>) {
    Theorems.ProgressSteps(s, es) > 0
  }

  lemma {:induction false} ProgressAppends(s: State, a: seq<Event>, b: seq<Event>)
    ensures Theorems.ProgressSteps(s, a + b) == Theorems.ProgressSteps(s, a) + Theorems.ProgressSteps(Run(s, a), b)
    decreases |a|
  {
    if a == [] {
      assert a + b == b;
    } else {
      assert (a + b)[1..] == a[1..] + b;
      ProgressAppends(Step(s, a[0]), a[1..], b);
    }
  }

  lemma OneMoreStep(s: State, es: seq<Event>, s': State, e: Event)
    requires Went(s, es, s')
    ensures Progress(s, es + [e]) <==> Progress(s, es) || Theorems.IsProgress(s', e)
  {
    ProgressAppends(s, es, [e]);
    assert Theorems.ProgressSteps(s', [e]) == if Theorems.IsProgress(s', e) then 1 else 0 by {
      assert [e][1..] == [];
    }
  }

  lemma WentStep(s: State, es: seq<Event>, s': State, e: Event)
    requires Went(s, es, s') && Inv(s') && Legal(s', e)
    ensures Went(s, es + [e], Step(s', e)) && Inv(Step(s', e))
  {
    assert [e][1..] == [];
    StepKeepsInv(s', e);
    WentOn(s, es, s', [e], Step(s', e));
  }

  // ---------- Passes ----------

  type DeliveryPass = Pass<State, Event>
  type DeliveryTurn = Turn<State, Event>

  function RowsOf(s: State): map<nat, Delivery> {
    map i | i in s.cells && s.cells[i].row.Some? :: s.cells[i].row.value
  }

  /** Attempts on the rows that were listed, each as it was listed. */
  ghost function StartedTurn(listed: map<nat, Delivery>, a: nat -> Answer): DeliveryTurn {
    (s: State, id: nat, es: seq<Event>, aborted: bool, s': State) =>
      && id in listed && es == StartedEvents(s, id, listed[id], a(id))
      && aborted == StartedRaises(s, id, listed[id], a(id)) && Went(s, es, s')
  }

  ghost function TerminalTurn(listed: map<nat, Delivery>, a: nat -> Answer): DeliveryTurn {
    (s: State, id: nat, es: seq<Event>, aborted: bool, s': State) =>
      && id in listed && es == TerminalEvents(s, id, listed[id], a(id))
      && aborted == TerminalRaises(s, id, listed[id], a(id)) && Went(s, es, s')
  }

  ghost function CleanupTurn(): DeliveryTurn {
    (s: State, id: nat, es: seq<Event>, aborted: bool, s': State) =>
      es == [At(id, Cleanup)] && !aborted && Went(s, es, s')
  }

  ghost predicate AnyProgress(p: DeliveryPass) {
    AnyTurn(p, Progress)
  }

  ghost predicate IsStartedPass(p: DeliveryPass, s: State, s': State, staleBefore: int, limit: nat, a: nat -> Answer) {
    && IsListing(RowsOf(s), p.ids, (r: Delivery) => Claimable(r, Started, staleBefore), limit)
    && PassRuns(p, s, s', StartedTurn(RowsOf(s), a))
  }

  ghost predicate IsTerminalPass(p: DeliveryPass, s: State, s': State, staleBefore: int, limit: nat, a: nat -> Answer) {
    && IsListing(RowsOf(s), p.ids, (r: Delivery) => Claimable(r, Terminal, staleBefore), limit)
    && PassRuns(p, s, s', TerminalTurn(RowsOf(s), a))
  }

  ghost predicate IsCleanupPass(p: DeliveryPass, s: State, s': State, staleBefore: int, limit: nat) {
    && IsListing(RowsOf(s), p.ids, (r: Delivery) => CleanupDue(r, staleBefore), limit)
    && PassRuns(p, s, s', CleanupTurn())
  }

  const NOTHING: DeliveryPass := Pass([], [EMPTY], [], false)

  function Last(p: DeliveryPass): State {
    if p.states == [] then EMPTY else p.states[|p.states| - 1]
  }

  // ---------- The service ----------

  /** The table holds exactly the rows of the cells. */
  ghost predicate RowsTied(rows: map<nat, Delivery>, cells: map<nat, Cell>) {
    && (forall i :: i in rows ==> i in cells && cells[i].row == Some(rows[i]))
    && (forall i :: i in cells && cells[i].row.Some? ==> i in rows)
  }

  predicate UniqueRuns(rows: map<nat, Delivery>) {
    forall i, j :: i in rows && j in rows && rows[i].run == rows[j].run ==> i == j
  }

  /** A legal run after which only the cell of `id` and the clock are different. */
  ghost predicate Leads(s: State, es: seq<Event>, id: nat, c: Cell, clock: int) {
    id in s.cells && Went(s, es, After(s, id, c, clock)) && Inv(After(s, id, c, clock))
  }

  function After(s: State, id: nat, c: Cell, clock: int): State {
    s.(cells := s.cells[id := c], clock := clock)
  }

  lemma ThenCell(s: State, es: seq<Event>, id: nat, c: Cell, clock: int, e: CellEvent)
    requires Leads(s, es, id, c, clock) && LegalCell(c, e, clock) && !e.Claim? && !e.Cleanup?
    ensures Leads(s, es + [At(id, e)], id, CellStep(c, e, clock), clock)
  {
    var t := After(s, id, c, clock);
    WentStep(s, es, t, At(id, e));
    assert Step(t, At(id, e)) == After(s, id, CellStep(c, e, clock), clock);
  }

  lemma ThenTick(s: State, es: seq<Event>, id: nat, c: Cell, clock: int, to: int)
    requires Leads(s, es, id, c, clock) && clock <= to
    ensures Leads(s, es + [Tick(to)], id, c, to)
  {
    WentStep(s, es, After(s, id, c, clock), Tick(to));
  }

  lemma ClaimLeads(s: State, id: nat, leg: Leg, completed: bool)
    requires Inv(s) && WorkerIdle(s) && Takes(s, id, leg)
    requires leg.Terminal? ==> Over(s.runs, s.cells[id].row.value.run, completed)
    ensures var e := Claim(leg, s.clock - LEASE, completed);
      Leads(s, [At(id, e)], id, CellStep(s.cells[id], e, s.clock), s.clock)
  {
    var e := Claim(leg, s.clock - LEASE, completed);
    WentStep(s, [], s, At(id, e));
    assert [] + [At(id, e)] == [At(id, e)];
    assert Step(s, At(id, e)) == After(s, id, CellStep(s.cells[id], e, s.clock), s.clock);
  }

  /** Handing a message over and waiting for the channel. */
  lemma SendWaits(s: State, es: seq<Event>, id: nat, c: Cell, now: int, message: string, a: Answer) returns (c1: Cell)
    requires Leads(s, es, id, c, now) && LegalCell(c, Send(message, a.send.Delivered?), now)
    ensures c1 == CellStep(c, Send(message, a.send.Delivered?), now)
    ensures Leads(s, es + [At(id, Send(message, a.send.Delivered?)), Tick(now + a.elapsed)], id, c1, now + a.elapsed)
  {
    var send, tick := At(id, Send(message, a.send.Delivered?)), Tick(now + a.elapsed);
    c1 := CellStep(c, send.e, now);
    ThenCell(s, es, id, c, now, send.e);
    ThenTick(s, es + [send], id, c1, now, now + a.elapsed);
    assert es + [send] + [tick] == es + [send, tick];
  }

  /** Handing a message over and recording what came of it. */
  lemma SendLeads(s: State, es: seq<Event>, id: nat, c: Cell, now: int, message: string, a: Answer)
    requires Leads(s, es, id, c, now) && LegalCell(c, Send(message, a.send.Delivered?), now)
    ensures Leads(s, es + SendEvents(id, message, a, now), id, SentCell(c, message, a, now), now + a.elapsed)
    ensures !a.send.Broke? && c.row.Some? ==> Progress(s, es + SendEvents(id, message, a, now))
  {
    var last := if a.send.Broke? then Crash else Record;
    var sent := es + [At(id, Send(message, a.send.Delivered?)), Tick(now + a.elapsed)];
    var c1 := SendWaits(s, es, id, c, now, message, a);
    ThenCell(s, sent, id, c1, now + a.elapsed, last);
    OneMoreStep(s, sent, After(s, id, c1, now + a.elapsed), At(id, last));
    assert sent + [At(id, last)] == es + SendEvents(id, message, a, now);
  }

  function SentCell(c: Cell, message: string, a: Answer, now: int): Cell {
    CellStep(CellStep(c, Send(message, a.send.Delivered?), now),
             if a.send.Broke? then Crash else Record, now + a.elapsed)
  }

  lemma StartedLeads(s: State, id: nat, listed: Delivery, a: Answer) returns (c: Cell)
    requires Inv(s) && WorkerIdle(s) && Open(listed.started) && Takes(s, id, Started)
    ensures Leads(s, StartedEvents(s, id, listed, a), id, c, s.clock + a.elapsed) && c.hold.Free?
    ensures var r := s.cells[id].row.value;
      c.row == Some(SentRow(r, Started, false, StartedMessage(r), a, s.clock))
    ensures !a.send.Broke? ==> Progress(s, StartedEvents(s, id, listed, a))
  {
    var e, message := Claim(Started, s.clock - LEASE, false), StartedMessage(s.cells[id].row.value);
    var claimed := CellStep(s.cells[id], e, s.clock);
    c := SentCell(claimed, message, a, s.clock);
    ClaimLeads(s, id, Started, false);
    SendLeads(s, [At(id, e)], id, claimed, s.clock, message, a);
  }

  /** The row after a claim and a send. */
  function SentRow(r: Delivery, leg: Leg, completed: bool, message: string, a: Answer, now: int): Delivery {
    var claimed := ClaimedRow(r, leg, now);
    if a.send.Broke? then claimed else RecordedRow(claimed, leg, completed, message, a.send.Delivered?, now + a.elapsed)
  }

  /** The message of the row's terminal leg. */
  function MessageFor(r: Delivery, rt: Runtime, a: Answer): string {
    TerminalMessage(r, rt.completed, a.output, a.error, rt.lastError)
  }

  /** The row after an attempt of its terminal leg. */
  function TerminalRow(r: Delivery, rt: Runtime, a: Answer, now: int): Delivery {
    if Worthy(r, rt.completed, MessageFor(r, rt, a))
    then SentRow(r, Terminal, rt.completed, MessageFor(r, rt, a), a, now)
    else UnwantedRow(ClaimedRow(r, Terminal, now), rt.completed, MessageFor(r, rt, a), now)
  }

  /** The same from the row as it is once claimed. */
  function FromClaimed(claimed: Delivery, rt: Runtime, a: Answer, now: int): Delivery {
    var message := MessageFor(claimed, rt, a);
    if !Worthy(claimed, rt.completed, message) then UnwantedRow(claimed, rt.completed, message, now)
    else if a.send.Broke? then claimed
    else RecordedRow(claimed, Terminal, rt.completed, message, a.send.Delivered?, now + a.elapsed)
  }

  /** An exception leaves the attempt: the channel or the notification broke. */
  predicate AttemptRaises(r: Delivery, rt: Runtime, a: Answer) {
    Worthy(r, rt.completed, MessageFor(r, rt, a)) && (a.send.Broke? || (GivesUp(r, a) && a.notify.NotifyBroke?))
  }

  /** Claiming a row changes neither its message nor what is wanted. */
  lemma SameMessage(r: Delivery, rt: Runtime, a: Answer, now: int)
    ensures var c := ClaimedRow(r, Terminal, now);
      && TerminalRow(r, rt, a, now) == FromClaimed(c, rt, a, now) && TerminalTime(r, rt, a) == TerminalTime(c, rt, a)
      && AttemptRaises(r, rt, a) == AttemptRaises(c, rt, a) && FallbackBody(r, rt, a) == FallbackBody(c, rt, a)
  {}

  function TerminalTime(r: Delivery, rt: Runtime, a: Answer): nat {
    if Worthy(r, rt.completed, MessageFor(r, rt, a)) then a.elapsed else 0
  }

  /** What is notified instead of a message that cannot be delivered. */
  function FallbackBody(r: Delivery, rt: Runtime, a: Answer): Option<string> {
    if Worthy(r, rt.completed, MessageFor(r, rt, a)) && GivesUp(r, a) && a.notify.Notified?
    then Some(Strip(MessageFor(r, rt, a))) else None
  }

  function Listed<T>(o: Option<T>): seq<T> {
    if o.Some? then [o.value] else []
  }

  predicate TerminalAttempted(s: State, id: nat, listed: Delivery) {
    Open(listed.terminal) && Ended(s, listed.run) && Takes(s, id, Terminal)
  }

  lemma UnwantedLeads(s: State, id: nat, listed: Delivery, a: Answer) returns (c: Cell)
    requires Inv(s) && WorkerIdle(s) && TerminalAttempted(s, id, listed) && s.cells[id].row.value.run == listed.run
    requires var r, rt := s.cells[id].row.value, s.runs[listed.run];
      !Worthy(r, rt.completed, MessageFor(r, rt, a))
    ensures Leads(s, TerminalEvents(s, id, listed, a), id, c, s.clock) && c.hold.Free?
    ensures c.row == Some(TerminalRow(s.cells[id].row.value, s.runs[listed.run], a, s.clock))
    ensures c.tally.fallbacks == s.cells[id].tally.fallbacks && Progress(s, TerminalEvents(s, id, listed, a))
  {
    var r, rt := s.cells[id].row.value, s.runs[listed.run];
    var e, message := Claim(Terminal, s.clock - LEASE, rt.completed), MessageFor(r, rt, a);
    var claimed := CellStep(s.cells[id], e, s.clock);
    ClaimLeads(s, id, Terminal, rt.completed);
    ThenCell(s, [At(id, e)], id, claimed, s.clock, SkipUnwanted(message));
    OneMoreStep(s, [At(id, e)], After(s, id, claimed, s.clock), At(id, SkipUnwanted(message)));
    c := CellStep(claimed, SkipUnwanted(message), s.clock);
    assert [At(id, e)] + [At(id, SkipUnwanted(message))] == TerminalEvents(s, id, listed, a);
  }

  /** Claiming and sending, up to the record. */
  lemma TerminalSendLeads(s: State, id: nat, rt: Runtime, a: Answer) returns (c: Cell)
    requires Inv(s) && WorkerIdle(s) && Takes(s, id, Terminal) && Over(s.runs, s.cells[id].row.value.run, rt.completed)
    requires Worthy(s.cells[id].row.value, rt.completed, MessageFor(s.cells[id].row.value, rt, a))
    ensures var message := MessageFor(s.cells[id].row.value, rt, a);
      Leads(s, [At(id, Claim(Terminal, s.clock - LEASE, rt.completed))] + SendEvents(id, message, a, s.clock),
            id, c, s.clock + a.elapsed)
      && c.hold == if GivesUp(s.cells[id].row.value, a) then Notifying(message) else Free
    ensures c.row == Some(TerminalRow(s.cells[id].row.value, rt, a, s.clock))
    ensures c.tally.fallbacks == s.cells[id].tally.fallbacks
    ensures !a.send.Broke? ==> Progress(s, [At(id, Claim(Terminal, s.clock - LEASE, rt.completed))]
                                           + SendEvents(id, MessageFor(s.cells[id].row.value, rt, a), a, s.clock))
  {
    var e, message := Claim(Terminal, s.clock - LEASE, rt.completed), MessageFor(s.cells[id].row.value, rt, a);
    var claimed := CellStep(s.cells[id], e, s.clock);
    ClaimLeads(s, id, Terminal, rt.completed);
    SendLeads(s, [At(id, e)], id, claimed, s.clock, message, a);
    c := SentCell(claimed, message, a, s.clock);
  }

  function NotifyEvent(a: Answer): CellEvent {
    if a.notify.Notified? then Notify else Crash
  }

  /** The notification that follows the last refused attempt. */
  lemma NotifyLeads(s: State, es: seq<Event>, id: nat, c: Cell, clock: int, a: Answer) returns (c': Cell)
    requires Leads(s, es, id, c, clock) && c.hold.Notifying?
    ensures Leads(s, es + [At(id, NotifyEvent(a))], id, c', clock) && c'.hold.Free? && c'.row == c.row
    ensures c'.tally.fallbacks == c.tally.fallbacks + Listed(Body(c.hold.message, a))
    ensures Progress(s, es) ==> Progress(s, es + [At(id, NotifyEvent(a))])
  {
    OneMoreStep(s, es, After(s, id, c, clock), At(id, NotifyEvent(a)));
    ThenCell(s, es, id, c, clock, NotifyEvent(a));
    assert CellOk(After(s, id, c, clock).cells[id], clock);
    NotifiedCell(c, a, clock);
    c' := CellStep(c, NotifyEvent(a), clock);
  }

  function Body(message: string, a: Answer): Option<string> {
    if a.notify.Notified? then Some(Strip(message)) else None
  }

  lemma NotifiedCell(c: Cell, a: Answer, clock: int)
    requires c.hold.Notifying? && Strip(c.hold.message) != ""
    ensures var c' := CellStep(c, NotifyEvent(a), clock);
      && c'.hold.Free? && c'.row == c.row
      && c'.tally.fallbacks == c.tally.fallbacks + Listed(Body(c.hold.message, a))
  {
    if !a.notify.Notified? {
      assert c.tally.fallbacks + [] == c.tally.fallbacks;
    }
  }

  lemma TerminalLeads(s: State, id: nat, listed: Delivery, a: Answer) returns (c: Cell)
    requires Inv(s) && WorkerIdle(s) && TerminalAttempted(s, id, listed) && s.cells[id].row.value.run == listed.run
    ensures var r, rt := s.cells[id].row.value, s.runs[listed.run];
      && Leads(s, TerminalEvents(s, id, listed, a), id, c, s.clock + TerminalTime(r, rt, a)) && c.hold.Free?
      && c.row == Some(TerminalRow(r, rt, a, s.clock))
      && c.tally.fallbacks == s.cells[id].tally.fallbacks + Listed(FallbackBody(r, rt, a))
      && (!TerminalRaises(s, id, listed, a) ==> Progress(s, TerminalEvents(s, id, listed, a)))
  {
    var r, rt := s.cells[id].row.value, s.runs[listed.run];
    if !Worthy(r, rt.completed, MessageFor(r, rt, a)) {
      c := UnwantedLeads(s, id, listed, a);
    } else {
      c := TerminalSendLeads(s, id, rt, a);
      var claim := At(id, Claim(Terminal, s.clock - LEASE, rt.completed));
      var es := [claim] + SendEvents(id, MessageFor(r, rt, a), a, s.clock);
      if GivesUp(r, a) {
        c := NotifyLeads(s, es, id, c, s.clock + a.elapsed, a);
        assert es + [At(id, NotifyEvent(a))] == TerminalEvents(s, id, listed, a);
      } else {
        assert es == TerminalEvents(s, id, listed, a);
      }
    }
  }

  /** A state and the table that goes with it. */
  ghost predicate Tied(rows: map<nat, Delivery>, s: State) {
    RowsTied(rows, s.cells) && UniqueRuns(rows) && Inv(s)
  }

  /** The same between two calls. */
  ghost predicate Settled(rows: map<nat, Delivery>, s: State) {
    Tied(rows, s) && WorkerIdle(s)
  }

  lemma TiedAfter(rows: map<nat, Delivery>, s: State, es: seq<Event>, id: nat, c: Cell, clock: int)
    requires Tied(rows, s) && Leads(s, es, id, c, clock) && id in rows && c.row.Some? && c.row.value.run == rows[id].run
    ensures Tied(rows[id := c.row.value], After(s, id, c, clock))
  {}

  /** Replacing a row and its cell keeps the table and the cells together. */
  lemma SettledAfter(rows: map<nat, Delivery>, s: State, es: seq<Event>, id: nat, c: Cell, clock: int)
    requires Settled(rows, s) && Leads(s, es, id, c, clock) && id in rows && c.row.Some?
    requires c.row.value.run == rows[id].run && c.hold.Free?
    ensures Settled(rows[id := c.row.value], After(s, id, c, clock))
  {}

  predicate SameRuns(before: map<nat, Delivery>, after: map<nat, Delivery>) {
    forall i :: i in after ==> i in before && after[i].run == before[i].run
  }

  lemma SettledRows(rows: map<nat, Delivery>, s: State)
    requires Settled(rows, s)
    ensures rows == RowsOf(s)
  {}

  lemma CleanupLeads(s: State, id: nat) returns (c: Cell)
    requires Inv(s) && WorkerIdle(s) && id in s.cells && s.cells[id].row.Some?
    requires !s.cells[id].row.value.cleanup.CleanupSkipped?
    ensures Leads(s, [At(id, Cleanup)], id, c, s.clock) && c.hold.Free?
    ensures c.row == Some(s.cells[id].row.value.(cleanup := CleanupSkipped, updatedAt := s.clock))
    ensures Progress(s, [At(id, Cleanup)])
  {
    c := CellStep(s.cells[id], Cleanup, s.clock);
    WentStep(s, [], s, At(id, Cleanup));
    OneMoreStep(s, [], s, At(id, Cleanup));
    assert [] + [At(id, Cleanup)] == [At(id, Cleanup)];
    assert Step(s, At(id, Cleanup)) == After(s, id, c, s.clock);
  }

  lemma SameRunsStill(listed: map<nat, Delivery>, before: map<nat, Delivery>, after: map<nat, Delivery>)
    requires SameRuns(listed, before) && SameRuns(before, after)
    ensures SameRuns(listed, after)
  {}

  lemma TakesClaimable(rows: map<nat, Delivery>, s: State, id: nat, leg: Leg)
    requires Settled(rows, s)
    ensures Takes(s, id, leg) <==> id in rows && Claimable(rows[id], leg, s.clock - LEASE)
    ensures id in rows ==> id in s.cells && s.cells[id].row == Some(rows[id])
  {}

  /** The listed rows from `i` on are as they were listed. */
  predicate CleanupLeft(listed: map<nat, Delivery>, rows: map<nat, Delivery>, ids: seq<nat>, i: nat) {
    && (forall k, l :: 0 <= k < l < |ids| ==> ids[k] != ids[l])
    && forall k :: i <= k < |ids| ==>
         ids[k] in listed && !listed[ids[k]].cleanup.CleanupSkipped? && ids[k] in rows && rows[ids[k]] == listed[ids[k]]
  }

  lemma CleanupBegins(listed: map<nat, Delivery>, staleBefore: int, limit: nat, ids: seq<nat>)
    requires IsListing(listed, ids, (r: Delivery) => CleanupDue(r, staleBefore), limit)
    ensures CleanupLeft(listed, listed, ids, 0)
  {
    assert forall k :: 0 <= k < |ids| ==> ids[k] in ids;
  }

  lemma CleanupGoes(listed: map<nat, Delivery>, before: map<nat, Delivery>, after: map<nat, Delivery>, ids: seq<nat>,
                    i: nat)
    requires CleanupLeft(listed, before, ids, i) && i < |ids| && ids[i] in after
    requires after == before[ids[i] := after[ids[i]]]
    ensures CleanupLeft(listed, after, ids, i + 1)
  {}

  lemma SettledWithNew(rows: map<nat, Delivery>, s: State, r: Delivery)
    requires Settled(rows, s) && Legal(s, Register(r)) && forall i :: i in rows ==> rows[i].run != r.run
    ensures Settled(rows[s.lastId + 1 := r], Step(s, Register(r)))
  {
    StepKeepsInv(s, Register(r));
  }

  lemma RegisterLeads(rows: map<nat, Delivery>, s: State, r: Delivery) returns (s': State)
    requires Settled(rows, s) && Legal(s, Register(r)) && forall i :: i in rows ==> rows[i].run != r.run
    ensures Went(s, [Register(r)], s') && Settled(rows[s.lastId + 1 := r], s')
    ensures s'.lastId == s.lastId + 1 && s'.runs == s.runs && s'.clock == s.clock
  {
    WentStep(s, [], s, Register(r));
    assert [] + [Register(r)] == [Register(r)];
    SettledWithNew(rows, s, r);
    s' := Step(s, Register(r));
  }

  lemma SkipLeads(s: State, id: nat, message: Option<string>) returns (c: Cell)
    requires Inv(s) && id in s.cells && s.cells[id].row.Some? && !s.cells[id].row.value.terminal.Sent?
    ensures Leads(s, [At(id, MarkSkipped(message))], id, c, s.clock) && c.hold == s.cells[id].hold
    ensures c.row == Some(SkippedRow(s.cells[id].row.value, message, s.clock))
  {
    c := CellStep(s.cells[id], MarkSkipped(message), s.clock);
    assert [] + [At(id, MarkSkipped(message))] == [At(id, MarkSkipped(message))];
    assert After(s, id, s.cells[id], s.clock) == s;
    ThenCell(s, [], id, s.cells[id], s.clock, MarkSkipped(message));
  }

  /** What an attempt does to the table and the clock, and what it reports. */
  datatype Effect = Effect(rows: map<nat, Delivery>, clock: int, progress: bool, raised: bool, notified: Option<string>)

  function StartedEffect(rows: map<nat, Delivery>, clock: int, id: nat, record: Delivery, a: Answer): Effect {
    if Open(record.started) && id in rows && Claimable(rows[id], Started, clock - LEASE) then
      Effect(rows[id := SentRow(rows[id], Started, false, StartedMessage(rows[id]), a, clock)], clock + a.elapsed,
             !a.send.Broke?, a.send.Broke?, None)
    else Effect(rows, clock, false, false, None)
  }

  function TerminalEffect(rows: map<nat, Delivery>, runs: map<string, Runtime>, clock: int, id: nat, record: Delivery,
                          a: Answer)
    : Effect
  {
    if Open(record.terminal) && record.run in runs && runs[record.run].finished && !runs[record.run].awaitingRecovery
       && id in rows && Claimable(rows[id], Terminal, clock - LEASE)
    then
      var r, rt := rows[id], runs[record.run];
      Effect(rows[id := TerminalRow(r, rt, a, clock)], clock + TerminalTime(r, rt, a),
             !AttemptRaises(r, rt, a), AttemptRaises(r, rt, a), FallbackBody(r, rt, a))
    else Effect(rows, clock, false, false, None)
  }

  /** The events lead from one state to the other, which goes with the rows and the clock; runs and
      ids are as before. */
  ghost predicate Carries(s: State, es: seq<Event>, s': State, f: Effect) {
    && Went(s, es, s') && Settled(f.rows, s') && s'.clock == f.clock && s.clock <= f.clock
    && s'.runs == s.runs && s'.lastId == s.lastId
    && (!f.raised ==> f.progress == Progress(s, es))
  }

  lemma StartedKeeps(rows: map<nat, Delivery>, s: State, id: nat, record: Delivery, a: Answer) returns (s': State)
    requires Settled(rows, s)
    ensures var f := StartedEffect(rows, s.clock, id, record, a);
      && Carries(s, StartedEvents(s, id, record, a), s', f) && f.raised == StartedRaises(s, id, record, a)
      && SameRuns(rows, f.rows)
  {
    TakesClaimable(rows, s, id, Started);
    s' := s;
    if Open(record.started) && Takes(s, id, Started) {
      var c := StartedLeads(s, id, record, a);
      SettledAfter(rows, s, StartedEvents(s, id, record, a), id, c, s.clock + a.elapsed);
      s' := After(s, id, c, s.clock + a.elapsed);
    }
  }

  lemma TerminalKeeps(rows: map<nat, Delivery>, s: State, id: nat, record: Delivery, a: Answer) returns (s': State)
    requires Settled(rows, s) && (id in rows ==> rows[id].run == record.run)
    ensures var f := TerminalEffect(rows, s.runs, s.clock, id, record, a);
      && Carries(s, TerminalEvents(s, id, record, a), s', f)
      && f.raised == TerminalRaises(s, id, record, a) && SameRuns(rows, f.rows)
      && (id in s.cells ==>
            id in s'.cells && s'.cells[id].tally.fallbacks == s.cells[id].tally.fallbacks + Listed(f.notified))
  {
    TakesClaimable(rows, s, id, Terminal);
    s' := s;
    if TerminalAttempted(s, id, record) {
      var time := TerminalTime(rows[id], s.runs[record.run], a);
      var c := TerminalLeads(s, id, record, a);
      SettledAfter(rows, s, TerminalEvents(s, id, record, a), id, c, s.clock + time);
      s' := After(s, id, c, s.clock + time);
    }
  }

  class AutomationDeliveryService {
    const repository: AutomationDeliveryRepository
    var runs: map<string, Runtime>
    var clock: int
    ghost var state: State

    /** The fields are the state, also while the worker is in the middle of an attempt. */
    ghost predicate Consistent()
      reads this, repository
    {
      && Tied(repository.rows, state) && repository.lastId == state.lastId
      && runs == state.runs && clock == state.clock
    }

    ghost predicate Valid()
      reads this, repository
    {
      Consistent() && WorkerIdle(state)
    }

    constructor ()
      ensures Valid() && fresh(repository) && state == EMPTY
    {
      repository := new AutomationDeliveryRepository();
      runs, clock, state := map[], 0, EMPTY;
      new;
    }

    method RegisterRun(bound: bool, run: string, project: string, projectName: string, events: set<Kind>, feishu: bool,
                       sendStarted: bool)
      returns (registered: Option<nat>, ghost es: seq<Event>)
      requires Valid()
      modifies repository, `state
      ensures Valid() && Went(old(state), es, state)
      ensures registered.Some? <==>
        bound && forall i :: i in old(repository.rows) ==> old(repository.rows)[i].run != run
      ensures es ==
        if registered.Some? then [Register(NewRow(run, project, projectName, events, feishu, sendStarted, clock))]
        else []
      ensures registered.Some? ==> registered.value == repository.lastId == old(repository.lastId) + 1
    {
      if !bound {
        return None, [];
      }
      var row := Delivery(run, project, projectName, events, feishu,
                          if sendStarted && StartedEvent in events then Pending else Skipped,
                          if CompletedEvent in events || FailedEvent in events then Pending else Skipped,
                          0, 0, None, None, CleanupSkipped, clock);
      registered := repository.Create(row);
      es := [];
      if registered.Some? {
        assert row == NewRow(run, project, projectName, events, feishu, sendStarted, clock);
        es := [Register(row)];
        ghost var s' := RegisterLeads(old(repository.rows), state, row);
        state := s';
      }
    }

    /** Does nothing for an unknown run or a message that is already out.  It may be called at any
        time, also while the worker awaits a send. */
    method MarkTerminalDeliverySkipped(run: string, message: Option<string>) returns (ghost es: seq<Event>)
      requires Consistent()
      modifies repository`rows, `state
      ensures Consistent() && Went(old(state), es, state)
      ensures old(WorkerIdle(state)) ==> WorkerIdle(state)
      ensures (forall i :: i in old(repository.rows) ==> old(repository.rows)[i].run != run) ==> es == []
      ensures forall i :: i in old(repository.rows) && old(repository.rows)[i].run == run ==>
        es == if old(repository.rows)[i].terminal.Sent? then [] else [At(i, MarkSkipped(message))]
    {
      es := [];
      var found := repository.GetByRunId(run);
      if found == None {
        return;
      }
      var id := found.value;
      var record := repository.rows[id];
      if record.terminal.Sent? {
        return;
      }
      es := [At(id, MarkSkipped(message))];
      ghost var c := SkipLeads(state, id, message);
      TiedAfter(repository.rows, state, es, id, c, clock);
      state := After(state, id, c, clock);
      var _ := repository.Update(id,
        record.(terminalEvent := Some(FailedEvent), terminal := Skipped,
                terminalMessage := if message.Some? then message else record.terminalMessage, updatedAt := clock));
    }

    /** `_attempt_started_delivery`: the row as it was listed, then the claim, then the send. */
    method AttemptStartedDelivery(id: nat, record: Delivery, a: Answer)
      returns (progress: bool, raised: bool, ghost es: seq<Event>)
      requires Valid()
      modifies this, repository`rows
      ensures Valid() && es == StartedEvents(old(state), id, record, a) && Went(old(state), es, state)
      ensures raised == StartedRaises(old(state), id, record, a)
      ensures !raised ==> progress == Progress(old(state), es)
      ensures clock >= old(clock)
      ensures SameRuns(old(repository.rows), repository.rows)
    {
      es := StartedEvents(state, id, record, a);
      ghost var s' := StartedKeeps(repository.rows, state, id, record, a);
      progress, raised := TryStarted(id, record, a);
      state := s';
    }

    method TryStarted(id: nat, record: Delivery, a: Answer) returns (progress: bool, raised: bool)
      modifies `clock, repository`rows
      ensures Effect(repository.rows, clock, progress, raised, None)
        == StartedEffect(old(repository.rows), old(clock), id, record, a)
    {
      var cutoff := clock - LEASE;
      if !record.started.Pending? && !record.started.Sending? {
        return false, false;
      }
      var claim := repository.Claim(Started, id, cutoff, clock);
      if claim == None {
        return false, false;
      }
      raised := DeliverStarted(id, claim.value, a);
      progress := !raised;
    }

    /** Sends the claimed row's message and records the outcome; a broken channel leaves the claim. */
    method DeliverStarted(id: nat, claimed: Delivery, a: Answer) returns (raised: bool)
      requires id in repository.rows && repository.rows[id] == claimed
      modifies `clock, repository`rows
      ensures clock == old(clock) + a.elapsed && raised == a.send.Broke?
      ensures repository.rows == old(repository.rows)[id :=
        if raised then claimed
        else RecordedRow(claimed, Started, false, StartedMessage(claimed), a.send.Delivered?, clock)]
    {
      var attempts := claimed.startedAttempts + 1;
      clock := clock + a.elapsed;
      if a.send.Broke? {
        return true;
      }
      if a.send.Refused? {
        var next := if attempts >= STARTED_MAX_ATTEMPTS then Failed else Pending;
        var _ := repository.Update(id, claimed.(startedAttempts := attempts, started := next, updatedAt := clock));
      } else {
        var _ := repository.Update(id, claimed.(startedAttempts := attempts, started := Sent, updatedAt := clock));
      }
      return false;
    }

    /** `_attempt_terminal_delivery`; `notified` is the body of the notification that went out instead. */
    method AttemptTerminalDelivery(id: nat, record: Delivery, a: Answer)
      returns (progress: bool, raised: bool, notified: Option<string>, ghost es: seq<Event>)
      requires Valid() && (id in repository.rows ==> repository.rows[id].run == record.run)
      modifies this, repository`rows
      ensures Valid() && es == TerminalEvents(old(state), id, record, a) && Went(old(state), es, state)
      ensures raised == TerminalRaises(old(state), id, record, a)
      ensures !raised ==> progress == Progress(old(state), es)
      ensures clock >= old(clock)
      ensures id in old(state).cells ==>
        id in state.cells
        && state.cells[id].tally.fallbacks == old(state).cells[id].tally.fallbacks + Listed(notified)
      ensures SameRuns(old(repository.rows), repository.rows)
    {
      es := TerminalEvents(state, id, record, a);
      ghost var s' := TerminalKeeps(repository.rows, state, id, record, a);
      progress, raised, notified := TryTerminal(id, record, a);
      state := s';
    }

    method TryTerminal(id: nat, record: Delivery, a: Answer)
      returns (progress: bool, raised: bool, notified: Option<string>)
      modifies `clock, repository`rows
      ensures Effect(repository.rows, clock, progress, raised, notified) ==
        TerminalEffect(old(repository.rows), runs, old(clock), id, record, a)
    {
      if !record.terminal.Pending? && !record.terminal.Sending? {
        return false, false, None;
      }
      if record.run !in runs || !runs[record.run].finished || runs[record.run].awaitingRecovery {
        return false, false, None;
      }
      var runtime := runs[record.run];
      var cutoff := clock - LEASE;
      var claim := repository.Claim(Terminal, id, cutoff, clock);
      if claim == None {
        return false, false, None;
      }
      SameMessage(old(repository.rows)[id], runtime, a, clock);
      raised, notified := HandleClaimed(id, claim.value, runtime, a);
      progress := !raised;
    }

    /** What is unwanted or blank is skipped; the rest is sent. */
    method HandleClaimed(id: nat, claimed: Delivery, runtime: Runtime, a: Answer)
      returns (raised: bool, notified: Option<string>)
      requires id in repository.rows && repository.rows[id] == claimed
      modifies `clock, repository`rows
      ensures repository.rows == old(repository.rows)[id := FromClaimed(claimed, runtime, a, old(clock))]
      ensures clock == old(clock) + TerminalTime(claimed, runtime, a)
      ensures raised == AttemptRaises(claimed, runtime, a) && notified == FallbackBody(claimed, runtime, a)
    {
      var message := TerminalMessage(claimed, runtime.completed, a.output, a.error, runtime.lastError);
      if KindOf(runtime.completed) !in claimed.wants || Strip(message) == "" {
        var _ := repository.Update(id,
          claimed.(terminalEvent := Some(KindOf(runtime.completed)), terminal := Skipped,
                   terminalMessage := Some(message), updatedAt := clock));
        return false, None;
      }
      StripKeepsText(message);
      raised, notified := DeliverTerminal(id, claimed, runtime.completed, message, a);
    }

    /** Sends the claimed row's message and records the outcome; the last refusal notifies instead. */
    method DeliverTerminal(id: nat, claimed: Delivery, completed: bool, message: string, a: Answer)
      returns (raised: bool, notified: Option<string>)
      requires id in repository.rows && repository.rows[id] == claimed && !Blank(message)
      modifies `clock, repository`rows
      ensures clock == old(clock) + a.elapsed
      ensures repository.rows == old(repository.rows)[id :=
        if a.send.Broke? then claimed else RecordedRow(claimed, Terminal, completed, message, a.send.Delivered?, clock)]
      ensures raised == (a.send.Broke? || (GivesUp(claimed, a) && a.notify.NotifyBroke?))
      ensures notified == if GivesUp(claimed, a) && a.notify.Notified? then Some(Strip(message)) else None
    {
      var attempts := claimed.terminalAttempts + 1;
      clock := clock + a.elapsed;
      if a.send.Broke? {
        return true, None;
      }
      if a.send.Refused? {
        var next := if attempts >= TERMINAL_MAX_ATTEMPTS then Failed else Pending;
        var persisted := claimed.(terminalEvent := Some(KindOf(completed)), terminalMessage := Some(message),
                                  terminalAttempts := attempts, terminal := next, updatedAt := clock);
        var _ := repository.Update(id, persisted);
        if next.Failed? {
          raised, notified := EmitFallbackTerminalNotification(persisted, a.notify);
          return;
        }
        return false, None;
      }
      var _ := repository.Update(id,
        claimed.(terminalEvent := Some(KindOf(completed)), terminalMessage := Some(message),
                 terminalAttempts := attempts,
                 terminal := Sent, cleanup := CleanupSkipped, updatedAt := clock));
      return false, None;
    }

    method EmitFallbackTerminalNotification(record: Delivery, service: NotifyResult)
      returns (raised: bool, notified: Option<string>)
      ensures notified.Some? <==>
        service.Notified? && record.terminalMessage.Some? && !Blank(record.terminalMessage.value)
      ensures notified.Some? ==> notified.value == Strip(record.terminalMessage.value)
      ensures raised <==> service.NotifyBroke? && record.terminalMessage.Some? && !Blank(record.terminalMessage.value)
    {
      if record.terminalMessage.Some? {
        StripKeepsText(record.terminalMessage.value);
      }
      if service.NoService? {
        return false, None;
      }
      var body := if record.terminalMessage.Some? then Strip(record.terminalMessage.value) else "";
      if body == "" {
        return false, None;
      }
      return service.NotifyBroke?, if service.Notified? then Some(body) else None;
    }

    // Passes

    method AttemptAllStarted(staleBefore: int, limit: nat, a: nat -> Answer)
      returns (progress: bool, raised: bool, ghost pass: DeliveryPass)
      requires Valid()
      modifies this, repository`rows
      ensures Valid() && IsStartedPass(pass, old(state), state, staleBefore, limit, a) && raised == pass.aborted
      ensures !raised ==> progress == AnyProgress(pass)
    {
      progress, raised := false, false;
      SettledRows(repository.rows, state);
      var ids := repository.ListOldest((r: Delivery) => Claimable(r, Started, staleBefore), limit);
      var listed := repository.rows;
      ghost var turn := StartedTurn(listed, a);
      pass := Begun(ids, state);
      for i := 0 to |ids|
        invariant Valid() && SameRuns(listed, repository.rows)
        invariant pass.ids == ids && |pass.chunks| == i && PassSoFar(pass, old(state), state, turn)
        invariant progress == AnyProgress(pass)
      {
        assert ids[i] in ids;
        ghost var before, rows := state, repository.rows;
        var changed, broke, es := AttemptStartedDelivery(ids[i], listed[ids[i]], a(ids[i]));
        pass := TakeTurn(pass, old(state), before, state, turn, Progress, es, broke);
        SameRunsStill(listed, rows, repository.rows);
        if broke {
          raised := true;
          return;
        }
        progress := changed || progress;
      }
    }

    method AttemptAllTerminal(staleBefore: int, limit: nat, a: nat -> Answer)
      returns (progress: bool, raised: bool, ghost pass: DeliveryPass)
      requires Valid()
      modifies this, repository`rows
      ensures Valid() && IsTerminalPass(pass, old(state), state, staleBefore, limit, a) && raised == pass.aborted
      ensures !raised ==> progress == AnyProgress(pass)
    {
      progress, raised := false, false;
      SettledRows(repository.rows, state);
      var ids := repository.ListOldest((r: Delivery) => Claimable(r, Terminal, staleBefore), limit);
      var listed := repository.rows;
      ghost var turn := TerminalTurn(listed, a);
      pass := Begun(ids, state);
      for i := 0 to |ids|
        invariant Valid() && SameRuns(listed, repository.rows)
        invariant pass.ids == ids && |pass.chunks| == i && PassSoFar(pass, old(state), state, turn)
        invariant progress == AnyProgress(pass)
      {
        assert ids[i] in ids;
        ghost var before, rows := state, repository.rows;
        var changed, broke, _, es := AttemptTerminalDelivery(ids[i], listed[ids[i]], a(ids[i]));
        pass := TakeTurn(pass, old(state), before, state, turn, Progress, es, broke);
        SameRunsStill(listed, rows, repository.rows);
        if broke {
          raised := true;
          return;
        }
        progress := changed || progress;
      }
    }

    method AttemptAllCleanups(staleBefore: int, limit: nat) returns (progress: bool, ghost pass: DeliveryPass)
      requires Valid()
      modifies repository`rows, `state
      ensures Valid() && IsCleanupPass(pass, old(state), state, staleBefore, limit)
      ensures progress == AnyProgress(pass)
    {
      progress := false;
      SettledRows(repository.rows, state);
      var ids := repository.ListOldest((r: Delivery) => CleanupDue(r, staleBefore), limit);
      var listed := repository.rows;
      CleanupBegins(listed, staleBefore, limit, ids);
      ghost var turn := CleanupTurn();
      pass := Begun(ids, state);
      for i := 0 to |ids|
        invariant Valid() && CleanupLeft(listed, repository.rows, ids, i)
        invariant pass.ids == ids && |pass.chunks| == i && PassSoFar(pass, old(state), state, turn)
        invariant progress == AnyProgress(pass)
      {
        ghost var before, rows := state, repository.rows;
        var es := AttemptStartedCleanup(ids[i], listed[ids[i]]);
        pass := TakeTurn(pass, old(state), before, state, turn, Progress, es, false);
        CleanupGoes(listed, rows, repository.rows, ids, i);
        progress := true;
      }
    }

    method AttemptStartedCleanup(id: nat, record: Delivery) returns (ghost es: seq<Event>)
      requires Valid() && id in repository.rows && repository.rows[id] == record && !record.cleanup.CleanupSkipped?
      modifies repository`rows, `state
      ensures Valid() && es == [At(id, Cleanup)] && Went(old(state), es, state) && Progress(old(state), es)
      ensures repository.rows == old(repository.rows)[id := record.(cleanup := CleanupSkipped, updatedAt := clock)]
    {
      es := [At(id, Cleanup)];
      ghost var c := CleanupLeads(state, id);
      SettledAfter(repository.rows, state, es, id, c, clock);
      var _ := repository.Update(id, record.(cleanup := CleanupSkipped, updatedAt := clock));
      state := After(state, id, c, clock);
    }

    /** Started legs, then terminal legs, then cleanups; true exactly when something was done. */
    method ProcessPending(limit: nat, starts: nat -> Answer, ends: nat -> Answer)
      returns (progress: bool, raised: bool,
               ghost started: DeliveryPass, ghost ended: DeliveryPass, ghost cleaned: DeliveryPass)
      requires Valid()
      modifies this, repository`rows
      ensures Valid() && raised == (started.aborted || ended.aborted)
      ensures IsStartedPass(started, old(state), Last(started), old(clock) - LEASE, limit, starts)
      ensures started.aborted ==> state == Last(started)
      ensures !started.aborted ==> IsTerminalPass(ended, Last(started), Last(ended), old(clock) - LEASE, limit, ends)
      ensures !started.aborted && ended.aborted ==> state == Last(ended)
      ensures !raised ==>
        && IsCleanupPass(cleaned, Last(ended), state, old(clock) - LEASE, limit)
        && progress == (AnyProgress(started) || AnyProgress(ended) || AnyProgress(cleaned))
    {
      ended, cleaned := NOTHING, NOTHING;
      var staleBefore := clock - LEASE;
      var changed;
      progress, raised, started := AttemptAllStarted(staleBefore, limit, starts);
      if raised {
        return;
      }
      changed, raised, ended := AttemptAllTerminal(staleBefore, limit, ends);
      progress := changed || progress;
      if raised {
        return;
      }
      changed, cleaned := AttemptAllCleanups(staleBefore, limit);
      progress := changed || progress;
    }
  }
}
