/**
  The delivery outbox of automation runs, as a state machine.

  A row has two legs, the message that a run started and the message how it ended; each is
  claimed, sent and written back on its own, but both share one `updatedAt`, which is also
  the lease of either.  One worker attempts one leg at a time and may crash between any two
  statements; what it writes back is its whole copy of the row.  Times are microseconds.
  */
module AutomationDelivery {
  import opened Options
  import opened Whitespace

  datatype Status = Pending | Sending | Sent | Skipped | Failed

  datatype Cleanup = CleanupPending | Cleaning | CleanupSkipped

  datatype Kind = StartedEvent | CompletedEvent | FailedEvent

  datatype Leg = Started | Terminal

  datatype Delivery = Delivery(
    run: string, project: string, projectName: string, wants: set<Kind>, feishu: bool,
    started: Status, terminal: Status, startedAttempts: nat, terminalAttempts: nat,
    terminalEvent: Option<Kind>, terminalMessage: Option<string>, cleanup: Cleanup, updatedAt: int)

  datatype Runtime = Runtime(finished: bool, completed: bool, awaitingRecovery: bool, lastError: string)

  const SECOND := 1_000_000
  const LEASE := 60 * SECOND
  const STARTED_MAX_ATTEMPTS := 3
  const TERMINAL_MAX_ATTEMPTS := 5

  /** What the worker holds of a row: a claim, a claim whose message has been handed to the
      channel (`ok` says whether it was taken), or the duty to notify somebody else instead. */
  datatype Hold =
    | Free
    | Claimed(leg: Leg, copy: Delivery, completed: bool)
    | Attempted(leg: Leg, copy: Delivery, completed: bool, message: string, ok: bool)
    | Notifying(message: string)

  /** A claim, and whether the leg has been released since. */
  datatype ClaimMark = ClaimMark(at: int, released: bool)

  /** History of one leg: messages handed over, those whose outcome was never recorded, claims. */
  datatype LegTally = LegTally(sends: nat, lostSends: nat, claims: seq<ClaimMark>)

  /** History of one row; never read by the service. */
  datatype Tally = Tally(started: LegTally, terminal: LegTally, gaveUp: nat, fallbacks: seq<string>)

  const NO_LEG := LegTally(0, 0, [])
  const NO_TALLY := Tally(NO_LEG, NO_LEG, 0, [])

  datatype Cell = Cell(row: Option<Delivery>, hold: Hold, tally: Tally)

  datatype State = State(cells: map<nat, Cell>, lastId: nat, runs: map<string, Runtime>, clock: int)

  const EMPTY := State(map[], 0, map[], 0)

  datatype CellEvent =
    | Claim(leg: Leg, cutoff: int, completed: bool)
    | Send(message: string, ok: bool)
    | Record
    | SkipUnwanted(message: string)
    | Notify
    | Crash
    | Cleanup
    | MarkSkipped(reason: Option<string>)
    | Delete

  datatype Event =
    | Tick(to: int)
    | SetRuntime(run: string, runtime: Runtime)
    | Register(row: Delivery)
    | DeleteProject(project: string)
    | At(id: nat, e: CellEvent)

  // ---------- Text ----------

  /** `_build_terminal_message`: the run's output, or a line of its own where the channel needs one. */
  function TerminalMessage(r: Delivery, completed: bool, output: string, error: string, lastError: string): string {
    if completed then
      if output != "" then output
      else if !r.feishu then "定时任务 " + r.projectName + " 执行完成。"
      else ""
    else
      var detail := if output != "" then output else if error != "" then error
                    else if Strip(lastError) != "" then Strip(lastError) else "未知错误。";
      "定时任务 " + r.projectName + " 执行失败。\n\n" + detail
  }

  /** The message of a failed run is never blank. */
  lemma FailureMessageNotBlank(r: Delivery, output: string, error: string, lastError: string)
    ensures !Blank(TerminalMessage(r, false, output, error, lastError))
  {
    assert TerminalMessage(r, false, output, error, lastError)[0] == '定';
  }

  // ---------- Legs ----------

  function StatusOf(r: Delivery, leg: Leg): Status {
    if leg.Started? then r.started else r.terminal
  }

  function AttemptsOf(r: Delivery, leg: Leg): nat {
    if leg.Started? then r.startedAttempts else r.terminalAttempts
  }

  function MaxAttempts(leg: Leg): nat {
    if leg.Started? then STARTED_MAX_ATTEMPTS else TERMINAL_MAX_ATTEMPTS
  }

  function TallyOf(t: Tally, leg: Leg): LegTally {
    if leg.Started? then t.started else t.terminal
  }

  function SetTally(t: Tally, leg: Leg, l: LegTally): Tally {
    if leg.Started? then t.(started := l) else t.(terminal := l)
  }

  function KindOf(completed: bool): Kind {
    if completed then CompletedEvent else FailedEvent
  }

  // ---------- Rows as the code writes them ----------

  function ClaimedRow(r: Delivery, leg: Leg, now: int): Delivery {
    if leg.Started? then r.(started := Sending, updatedAt := now) else r.(terminal := Sending, updatedAt := now)
  }

  /** After a send: sent, or to be tried again, or given up. */
  function RecordedRow(copy: Delivery, leg: Leg, completed: bool, message: string, ok: bool, now: int): Delivery {
    var attempts := AttemptsOf(copy, leg) + 1;
    var status := if ok then Sent else if attempts >= MaxAttempts(leg) then Failed else Pending;
    if leg.Started? then copy.(startedAttempts := attempts, started := status, updatedAt := now)
    else
      copy.(terminalEvent := Some(KindOf(completed)), terminalMessage := Some(message), terminalAttempts := attempts,
            terminal := status, cleanup := if ok then CleanupSkipped else copy.cleanup, updatedAt := now)
  }

  function UnwantedRow(copy: Delivery, completed: bool, message: string, now: int): Delivery {
    copy.(terminalEvent := Some(KindOf(completed)), terminal := Skipped, terminalMessage := Some(message),
          updatedAt := now)
  }

  function SkippedRow(r: Delivery, message: Option<string>, now: int): Delivery {
    r.(terminalEvent := Some(FailedEvent), terminal := Skipped,
       terminalMessage := if message.Some? then message else r.terminalMessage, updatedAt := now)
  }

  /** `register_run` */
  function NewRow(run: string, project: string, projectName: string, wants: set<Kind>, feishu: bool, sendStarted: bool,
                  now: int): Delivery
  {
    Delivery(run, project, projectName, wants, feishu,
             if sendStarted && StartedEvent in wants then Pending else Skipped,
             if CompletedEvent in wants || FailedEvent in wants then Pending else Skipped,
             0, 0, None, None, CleanupSkipped, now)
  }

  // ---------- One event ----------

  function Release(t: LegTally): LegTally {
    if t.claims == [] then t else t.(claims := t.claims[|t.claims| - 1 := t.claims[|t.claims| - 1].(released := true)])
  }

  function Lost(t: LegTally): LegTally {
    t.(lostSends := t.lostSends + 1)
  }

  function CellStep(c: Cell, e: CellEvent, clock: int): Cell {
    match e
    case Claim(leg, _, completed) =>
      if c.row.Some? then
        var r, t := ClaimedRow(c.row.value, leg, clock), TallyOf(c.tally, leg);
        Cell(Some(r), Claimed(leg, r, completed),
             SetTally(c.tally, leg, t.(claims := t.claims + [ClaimMark(clock, false)])))
      else c
    case Send(message, ok) =>
      if c.hold.Claimed? then
        var leg, t := c.hold.leg, TallyOf(c.tally, c.hold.leg);
        c.(hold := Attempted(leg, c.hold.copy, c.hold.completed, message, ok),
           tally := SetTally(c.tally, leg, t.(sends := t.sends + 1)))
      else c
    case Record =>
      if c.hold.Attempted? && c.row.Some? then RecordCell(c, clock)
      else if c.hold.Attempted?
      then c.(hold := Free, tally := SetTally(c.tally, c.hold.leg, Lost(TallyOf(c.tally, c.hold.leg))))
      else c
    case SkipUnwanted(message) =>
      if c.hold.Claimed? && c.row.Some?
      then Cell(Some(UnwantedRow(c.hold.copy, c.hold.completed, message, clock)), Free,
                c.tally.(terminal := Release(c.tally.terminal)))
      else c.(hold := Free)
    case Notify =>
      if c.hold.Notifying? then
        c.(hold := Free, tally := if Strip(c.hold.message) == "" then c.tally
                                  else c.tally.(fallbacks := c.tally.fallbacks + [Strip(c.hold.message)]))
      else c
    case Crash =>
      if c.hold.Attempted?
      then c.(hold := Free, tally := SetTally(c.tally, c.hold.leg, Lost(TallyOf(c.tally, c.hold.leg))))
      else c.(hold := Free)
    case Cleanup =>
      if c.row.Some? then c.(row := Some(c.row.value.(cleanup := CleanupSkipped, updatedAt := clock))) else c
    case MarkSkipped(reason) =>
      if c.row.Some? && !c.row.value.terminal.Sent?
      then c.(row := Some(SkippedRow(c.row.value, reason, clock)),
              tally := c.tally.(terminal := Release(c.tally.terminal)))
      else c
    case Delete => c.(row := None)
  }

  /** Writing the outcome of a send back over the row. */
  function RecordCell(c: Cell, clock: int): Cell
    requires c.hold.Attempted?
  {
    var h := c.hold;
    var r := RecordedRow(h.copy, h.leg, h.completed, h.message, h.ok, clock);
    var t := SetTally(c.tally, h.leg, Release(TallyOf(c.tally, h.leg)));
    if h.leg.Terminal? && r.terminal.Failed? then Cell(Some(r), Notifying(h.message), t.(gaveUp := t.gaveUp + 1))
    else Cell(Some(r), Free, t)
  }

  function Step(s: State, e: Event): State {
    match e
    case Tick(to) => s.(clock := to)
    case SetRuntime(run, runtime) => s.(runs := s.runs[run := runtime])
    case Register(row) => s.(cells := s.cells[s.lastId + 1 := Cell(Some(row), Free, NO_TALLY)], lastId := s.lastId + 1)
    case DeleteProject(project) =>
      s.(cells := map i | i in s.cells ::
        if s.cells[i].row.Some? && s.cells[i].row.value.project == project
        then CellStep(s.cells[i], Delete, s.clock)
        else s.cells[i])
    case At(id, ce) => if id in s.cells then s.(cells := s.cells[id := CellStep(s.cells[id], ce, s.clock)]) else s
  }

  // ---------- What can happen when ----------

  ghost predicate WorkerIdle(s: State) {
    forall i :: i in s.cells ==> s.cells[i].hold.Free?
  }

  /** The WHERE clause of both claims. */
  predicate Claimable(r: Delivery, leg: Leg, cutoff: int) {
    StatusOf(r, leg).Pending? || (StatusOf(r, leg).Sending? && r.updatedAt <= cutoff)
  }

  predicate Over(runs: map<string, Runtime>, run: string, completed: bool) {
    run in runs && runs[run].finished && !runs[run].awaitingRecovery && runs[run].completed == completed
  }

  /** A terminal message goes out only if it is wanted and says something. */
  predicate Worthy(r: Delivery, completed: bool, message: string) {
    KindOf(completed) in r.wants && Strip(message) != ""
  }

  predicate LegalCell(c: Cell, e: CellEvent, clock: int) {
    match e
    case Claim(leg, cutoff, _) =>
      c.row.Some? && c.hold.Free? && cutoff <= clock - LEASE && Claimable(c.row.value, leg, cutoff)
    case Send(message, _) =>
      c.hold.Claimed? && (c.hold.leg.Terminal? ==> Worthy(c.hold.copy, c.hold.completed, message))
    case Record => c.hold.Attempted?
    case SkipUnwanted(message) =>
      c.hold.Claimed? && c.hold.leg.Terminal? && !Worthy(c.hold.copy, c.hold.completed, message)
    case Notify => c.hold.Notifying?
    case Crash => true
    case Cleanup => c.row.Some? && c.hold.Free? && !c.row.value.cleanup.CleanupSkipped?
    case MarkSkipped(_) => c.row.Some?
    case Delete => true
  }

  /** The worker will still write its copy of the row back. */
  predicate InFlight(c: Cell) {
    c.hold.Claimed? || c.hold.Attempted?
  }

  ghost predicate Legal(s: State, e: Event) {
    match e
    case Tick(to) => s.clock <= to
    case SetRuntime(_, _) => true
    case Register(row) =>
      exists sendStarted ::
        row == NewRow(row.run, row.project, row.projectName, row.wants, row.feishu, sendStarted, s.clock)
    case DeleteProject(_) => true
    case At(id, ce) =>
      && id in s.cells && LegalCell(s.cells[id], ce, s.clock)
      && (ce.Claim? || ce.Cleanup? ==> WorkerIdle(s))
      && (ce.Claim? && ce.leg.Terminal? ==> Over(s.runs, s.cells[id].row.value.run, ce.completed))
  }

  function Run(s: State, es: seq<Event>): State
    decreases |es|
  {
    if es == [] then s else Run(Step(s, es[0]), es[1..])
  }

  ghost predicate LegalRun(s: State, es: seq<Event>)
    decreases |es|
  {
    es == [] || (Legal(s, es[0]) && LegalRun(Step(s, es[0]), es[1..]))
  }

  // ---------- The invariant ----------

  /** Unless the leg was released in between, claims are a lease apart. */
  predicate Spaced(claims: seq<ClaimMark>) {
    forall k :: 0 < k < |claims| ==> claims[k - 1].released || claims[k - 1].at + LEASE <= claims[k].at
  }

  predicate LegOk(r: Delivery, leg: Leg, t: LegTally, h: Hold) {
    var status, attempts, most := StatusOf(r, leg), AttemptsOf(r, leg), MaxAttempts(leg);
    && attempts <= most
    && (status.Pending? || status.Sending? ==> attempts < most)
    && (status.Failed? ==> attempts == most)
    && t.sends == attempts + t.lostSends + (if h.Attempted? && h.leg == leg then 1 else 0)
    && (if status.Sending? then t.claims != [] && t.claims[|t.claims| - 1].at <= r.updatedAt
        else t.claims == [] || t.claims[|t.claims| - 1].released)
  }

  /** A notification is due or out only after the last attempt failed, and at most once. */
  predicate FallbackOk(c: Cell) {
    var t := c.tally;
    && t.gaveUp <= 1
    && |t.fallbacks| + (if c.hold.Notifying? then 1 else 0) <= t.gaveUp
    && (forall k :: 0 <= k < |t.fallbacks| ==> t.fallbacks[k] != "")
    && (c.hold.Notifying? ==> Strip(c.hold.message) != "")
    && (c.hold.Attempted? && c.hold.leg.Terminal? ==> Strip(c.hold.message) != "")
  }

  /** A row, or a copy of it that will be written back, agrees with the history. */
  predicate RowOk(r: Delivery, t: Tally, h: Hold, clock: int) {
    && r.updatedAt <= clock
    && LegOk(r, Started, t.started, h) && LegOk(r, Terminal, t.terminal, h)
    && (r.terminal.Failed? ==> t.gaveUp == 1)
    && (t.gaveUp == 1 ==> r.terminalAttempts == TERMINAL_MAX_ATTEMPTS && (r.terminal.Failed? || r.terminal.Skipped?))
  }

  /** The row is the copy, or the copy with its terminal leg skipped by somebody else. */
  predicate Behind(copy: Delivery, r: Delivery) {
    r == copy ||
    (r.terminal.Skipped? && !copy.terminal.Sent?
     && r == copy.(terminal := Skipped, terminalEvent := r.terminalEvent, terminalMessage := r.terminalMessage,
                   updatedAt := r.updatedAt))
  }

  predicate CellOk(c: Cell, clock: int) {
    && Spaced(c.tally.started.claims) && Spaced(c.tally.terminal.claims)
    && FallbackOk(c)
    && (c.row.Some? ==> RowOk(c.row.value, c.tally, c.hold, clock))
    && (c.row.Some? && InFlight(c) ==>
          && RowOk(c.hold.copy, c.tally, c.hold, clock) && StatusOf(c.hold.copy, c.hold.leg).Sending?
          && Behind(c.hold.copy, c.row.value))
  }

  ghost predicate Inv(s: State) {
    && (forall i :: i in s.cells ==> CellOk(s.cells[i], s.clock))
    && (forall i :: i in s.cells ==> 0 < i <= s.lastId)
  }

  lemma InvInitially()
    ensures Inv(EMPTY)
  {}

  // ---------- One step keeps it ----------

  lemma ClaimStartedKeeps(c: Cell, e: CellEvent, clock: int)
    requires CellOk(c, clock) && LegalCell(c, e, clock) && e.Claim? && e.leg.Started?
    ensures CellOk(CellStep(c, e, clock), clock)
  {}

  lemma ClaimTerminalKeeps(c: Cell, e: CellEvent, clock: int)
    requires CellOk(c, clock) && LegalCell(c, e, clock) && e.Claim? && e.leg.Terminal?
    ensures CellOk(CellStep(c, e, clock), clock)
  {}

  lemma SendKeeps(c: Cell, e: CellEvent, clock: int)
    requires CellOk(c, clock) && LegalCell(c, e, clock) && e.Send?
    ensures CellOk(CellStep(c, e, clock), clock)
  {}

  lemma ReleaseKeeps(t: LegTally)
    requires Spaced(t.claims)
    ensures Spaced(Release(t).claims) && |Release(t).claims| == |t.claims|
    ensures Release(t).sends == t.sends && Release(t).lostSends == t.lostSends
    ensures t.claims != [] ==> Release(t).claims[|t.claims| - 1].released
  {}

  lemma RecordStartedKeeps(c: Cell, clock: int)
    requires CellOk(c, clock) && c.row.Some? && c.hold.Attempted? && c.hold.leg.Started?
    ensures CellOk(RecordCell(c, clock), clock)
  {
    ReleaseKeeps(c.tally.started);
  }

  lemma RecordTerminalKeeps(c: Cell, clock: int)
    requires CellOk(c, clock) && c.row.Some? && c.hold.Attempted? && c.hold.leg.Terminal?
    ensures CellOk(RecordCell(c, clock), clock)
  {
    ReleaseKeeps(c.tally.terminal);
  }

  lemma RecordKeeps(c: Cell, e: CellEvent, clock: int)
    requires CellOk(c, clock) && LegalCell(c, e, clock) && e.Record?
    ensures CellOk(CellStep(c, e, clock), clock)
  {
    if c.row.Some? {
      if c.hold.leg.Started? {
        RecordStartedKeeps(c, clock);
      } else {
        RecordTerminalKeeps(c, clock);
      }
    }
  }

  lemma SkipKeeps(c: Cell, e: CellEvent, clock: int)
    requires CellOk(c, clock) && LegalCell(c, e, clock) && (e.SkipUnwanted? || e.MarkSkipped?)
    ensures CellOk(CellStep(c, e, clock), clock)
  {
    ReleaseKeeps(c.tally.terminal);
  }

  lemma RestKeeps(c: Cell, e: CellEvent, clock: int)
    requires CellOk(c, clock) && LegalCell(c, e, clock) && (e.Notify? || e.Crash? || e.Cleanup? || e.Delete?)
    ensures CellOk(CellStep(c, e, clock), clock)
  {}

  lemma CellKeeps(c: Cell, e: CellEvent, clock: int)
    requires CellOk(c, clock) && LegalCell(c, e, clock)
    ensures CellOk(CellStep(c, e, clock), clock)
  {
    if e.Claim? && e.leg.Started? {
      ClaimStartedKeeps(c, e, clock);
    } else if e.Claim? {
      ClaimTerminalKeeps(c, e, clock);
    } else if e.Send? {
      SendKeeps(c, e, clock);
    } else if e.Record? {
      RecordKeeps(c, e, clock);
    } else if e.SkipUnwanted? || e.MarkSkipped? {
      SkipKeeps(c, e, clock);
    } else {
      RestKeeps(c, e, clock);
    }
  }

  /** Every step of the worker, of other tasks and of the clock keeps the invariant. */
  lemma StepKeepsInv(s: State, e: Event)
    requires Inv(s) && Legal(s, e)
    ensures Inv(Step(s, e))
  {
    match e
    case Tick(_) =>
    case SetRuntime(_, _) =>
    case Register(_) =>
    case DeleteProject(_) =>
      forall i | i in s.cells
        ensures CellOk(CellStep(s.cells[i], Delete, s.clock), s.clock)
      {
        CellKeeps(s.cells[i], Delete, s.clock);
      }
    case At(id, ce) => CellKeeps(s.cells[id], ce, s.clock);
  }
}
