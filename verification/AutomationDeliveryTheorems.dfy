/**
  What holds over every run of the delivery outbox: any crashes, any changes of the runs'
  status, any passing of time.
  */
module AutomationDeliveryTheorems {
  import opened Options
  import opened Whitespace
  import opened AutomationDelivery
  import Sums

  lemma {:induction false} RunKeepsInv(s: State, es: seq<Event>)
    requires Inv(s) && LegalRun(s, es)
    ensures Inv(Run(s, es))
    decreases |es|
  {
    if es != [] {
      StepKeepsInv(s, es[0]);
      RunKeepsInv(Step(s, es[0]), es[1..]);
    }
  }

  // ---------- Accounting ----------

  /** Messages handed over are the recorded attempts, those whose outcome a crash lost, and one
      in flight; recorded attempts never exceed three and five, and only a leg with attempts
      left can be claimed. */
  lemma DeliveryAccounting(s: State, es: seq<Event>, id: nat, leg: Leg)
    requires Inv(s) && LegalRun(s, es) && id in Run(s, es).cells && Run(s, es).cells[id].row.Some?
    ensures var c := Run(s, es).cells[id];
      var r, t := c.row.value, TallyOf(c.tally, leg);
      && t.sends == AttemptsOf(r, leg) + t.lostSends + (if c.hold.Attempted? && c.hold.leg == leg then 1 else 0)
      && AttemptsOf(r, leg) <= MaxAttempts(leg)
      && (StatusOf(r, leg).Pending? || StatusOf(r, leg).Sending? ==> AttemptsOf(r, leg) < MaxAttempts(leg))
      && (StatusOf(r, leg).Failed? ==> AttemptsOf(r, leg) == MaxAttempts(leg))
  {
    RunKeepsInv(s, es);
  }

  /** The fallback notification goes out at most once, never blank, and only when the terminal
      leg has used up its attempts. */
  lemma FallbackOnlyOnGivingUp(s: State, es: seq<Event>, id: nat)
    requires Inv(s) && LegalRun(s, es) && id in Run(s, es).cells
    ensures var c := Run(s, es).cells[id];
      && |c.tally.fallbacks| <= c.tally.gaveUp <= 1
      && (forall k :: 0 <= k < |c.tally.fallbacks| ==> c.tally.fallbacks[k] != "")
      && (c.tally.fallbacks != [] && c.row.Some? ==>
            c.row.value.terminalAttempts == TERMINAL_MAX_ATTEMPTS && !c.row.value.terminal.Sent?)
  {
    RunKeepsInv(s, es);
  }

  predicate RowFailed(c: Cell) {
    c.row.Some? && c.row.value.terminal.Failed?
  }

  /** The worker will write back a copy that had failed before. */
  predicate FailedBefore(c: Cell) {
    InFlight(c) && c.hold.copy.terminal.Failed?
  }

  /** Only recording the last refused attempt makes the terminal leg FAILED anew, and the duty to
      notify comes from there and nowhere else. */
  lemma OnlyGivingUpFails(s: State, e: Event, id: nat)
    requires Inv(s) && Legal(s, e) && id in s.cells && s.cells[id].row.Some? && id in Step(s, e).cells
    requires var c, c' := s.cells[id], Step(s, e).cells[id];
      (RowFailed(c') && !RowFailed(c) && !FailedBefore(c)) || (c'.hold.Notifying? && !c.hold.Notifying?)
    ensures var c, c' := s.cells[id], Step(s, e).cells[id];
      && e == At(id, Record) && c.hold.Attempted? && c.hold.leg.Terminal? && !c.hold.ok
      && c.row.value.terminalAttempts == TERMINAL_MAX_ATTEMPTS - 1 && c'.hold == Notifying(c.hold.message)
  {
    var c := s.cells[id];
    CellAfter(s, e, id);
    if e.At? && e.id == id && e.e.Record? {
      GivingUp(c, s.clock);
    } else if e.At? && e.id == id {
      OthersDoNotFail(c, e.e, s.clock);
    }
  }

  lemma OthersDoNotFail(c: Cell, e: CellEvent, clock: int)
    requires CellOk(c, clock) && LegalCell(c, e, clock) && c.row.Some? && !e.Record?
    ensures RowFailed(CellStep(c, e, clock)) ==> RowFailed(c) || FailedBefore(c)
    ensures CellStep(c, e, clock).hold.Notifying? ==> c.hold.Notifying?
  {}

  lemma GivingUp(c: Cell, clock: int)
    requires CellOk(c, clock) && c.hold.Attempted? && c.row.Some?
    requires var c' := RecordCell(c, clock);
      (RowFailed(c') && !c.hold.copy.terminal.Failed?) || c'.hold.Notifying?
    ensures c.hold.leg.Terminal? && !c.hold.ok && c.row.value.terminalAttempts == TERMINAL_MAX_ATTEMPTS - 1
    ensures RecordCell(c, clock).hold == Notifying(c.hold.message)
  {}

  // ---------- Finished legs ----------

  predicate Final(st: Status) {
    st.Sent? || st.Skipped? || st.Failed?
  }

  /** Nothing further is handed over for the leg: it is finished, also in a copy that the worker
      will write back. */
  predicate LegAtRest(c: Cell, leg: Leg) {
    && (c.row.Some? ==> Final(StatusOf(c.row.value, leg)))
    && (InFlight(c) ==> c.hold.leg != leg && Final(StatusOf(c.hold.copy, leg)))
  }

  /** SENT is never left, and FAILED and SKIPPED only for each other. */
  predicate Settled(before: Status, after: Status) {
    after == before || (!before.Sent? && !after.Sent? && Final(before) && Final(after))
  }

  /** The leg is skipped, also in a copy that the worker will write back. */
  predicate SkippedAnyway(c: Cell, leg: Leg) {
    && (c.row.Some? ==> StatusOf(c.row.value, leg).Skipped?)
    && (InFlight(c) ==> c.hold.leg != leg && StatusOf(c.hold.copy, leg).Skipped?)
  }

  lemma RestStep(c: Cell, e: CellEvent, clock: int, leg: Leg)
    requires CellOk(c, clock) && LegalCell(c, e, clock) && LegAtRest(c, leg)
    ensures var c' := CellStep(c, e, clock);
      && LegAtRest(c', leg) && TallyOf(c'.tally, leg).sends == TallyOf(c.tally, leg).sends
      && (c'.row.Some? ==> c.row.Some? && Settled(StatusOf(c.row.value, leg), StatusOf(c'.row.value, leg)))
    ensures SkippedAnyway(c, leg) ==> SkippedAnyway(CellStep(c, e, clock), leg)
  {}

  lemma CellAfter(s: State, e: Event, id: nat)
    requires Inv(s) && id in s.cells
    ensures id in Step(s, e).cells
    ensures var c' := Step(s, e).cells[id];
      c' == s.cells[id] || (e.DeleteProject? && c' == CellStep(s.cells[id], Delete, s.clock))
      || (e.At? && e.id == id && c' == CellStep(s.cells[id], e.e, s.clock))
  {}

  lemma RestAfter(s: State, e: Event, id: nat, leg: Leg)
    requires Inv(s) && Legal(s, e) && id in s.cells && LegAtRest(s.cells[id], leg)
    ensures id in Step(s, e).cells
    ensures var c, c' := s.cells[id], Step(s, e).cells[id];
      && LegAtRest(c', leg) && TallyOf(c'.tally, leg).sends == TallyOf(c.tally, leg).sends
      && (c'.row.Some? ==> c.row.Some? && Settled(StatusOf(c.row.value, leg), StatusOf(c'.row.value, leg)))
      && (SkippedAnyway(c, leg) ==> SkippedAnyway(c', leg))
  {
    CellAfter(s, e, id);
    if e.DeleteProject? {
      RestStep(s.cells[id], Delete, s.clock, leg);
    } else if e.At? && e.id == id {
      RestStep(s.cells[id], e.e, s.clock, leg);
    }
  }

  /** A leg that is SENT, SKIPPED or FAILED never sends again, whatever happens, unless an attempt in
      flight holds a copy in which it is not.  SENT is never left, and FAILED and SKIPPED only for
      each other: a skip from outside, and a write-back over it. */
  lemma {:induction false} FinalLegStays(s: State, es: seq<Event>, id: nat, leg: Leg)
    requires Inv(s) && LegalRun(s, es) && id in s.cells && LegAtRest(s.cells[id], leg)
    ensures id in Run(s, es).cells
    ensures var c, c' := s.cells[id], Run(s, es).cells[id];
      && LegAtRest(c', leg) && TallyOf(c'.tally, leg).sends == TallyOf(c.tally, leg).sends
      && (c'.row.Some? ==> c.row.Some? && Settled(StatusOf(c.row.value, leg), StatusOf(c'.row.value, leg)))
      && (SkippedAnyway(c, leg) ==> SkippedAnyway(c', leg))
    decreases |es|
  {
    if es != [] {
      RestAfter(s, es[0], id, leg);
      StepKeepsInv(s, es[0]);
      FinalLegStays(Step(s, es[0]), es[1..], id, leg);
    }
  }

  // ---------- The lease ----------

  /** Two claims of a leg with no release in between are at least the lease apart, although a
      write to the other leg moves the time that both leases read. */
  lemma LeaseIsExclusive(s: State, es: seq<Event>, id: nat, leg: Leg, k: nat)
    requires Inv(s) && LegalRun(s, es) && id in Run(s, es).cells
    requires 0 < k < |TallyOf(Run(s, es).cells[id].tally, leg).claims|
    ensures var claims := TallyOf(Run(s, es).cells[id].tally, leg).claims;
      claims[k - 1].released || claims[k - 1].at + LEASE <= claims[k].at
  {
    RunKeepsInv(s, es);
    assert CellOk(Run(s, es).cells[id], Run(s, es).clock);
  }

  // ---------- The worker cannot spin ----------

  function Left(r: Delivery, leg: Leg): nat {
    if Final(StatusOf(r, leg)) then 0
    else if AttemptsOf(r, leg) < MaxAttempts(leg) then MaxAttempts(leg) - AttemptsOf(r, leg) else 0
  }

  function RowWeight(r: Delivery): nat {
    Left(r, Started) + Left(r, Terminal) + (if r.cleanup.CleanupSkipped? then 0 else 1)
  }

  /** How many more times the worker can make progress on a row; what it will write back counts. */
  function Weight(c: Cell): nat {
    if c.row.None? then 0 else RowWeight(if InFlight(c) then c.hold.copy else c.row.value)
  }

  const NEW_WEIGHT := 8

  function WeightAt(cells: map<nat, Cell>, i: nat): nat {
    if i in cells then Weight(cells[i]) else 0
  }

  function Weights(cells: map<nat, Cell>): nat -> nat {
    (i: nat) => WeightAt(cells, i)
  }

  function Total(s: State): nat {
    Sums.Total(Weights(s.cells), s.lastId)
  }

  /** Steps for which a pass of the worker reports progress. */
  predicate IsProgress(s: State, e: Event) {
    e.At? && e.id in s.cells && PaysFor(s.cells[e.id], e.e)
  }

  function ProgressSteps(s: State, es: seq<Event>): nat
    decreases |es|
  {
    if es == [] then 0 else (if IsProgress(s, es[0]) then 1 else 0) + ProgressSteps(Step(s, es[0]), es[1..])
  }

  function Registrations(es: seq<Event>): nat {
    if es == [] then 0 else (if es[0].Register? then 1 else 0) + Registrations(es[1..])
  }

  predicate PaysFor(c: Cell, e: CellEvent) {
    c.row.Some? && (e.Record? || e.SkipUnwanted? || e.Cleanup?)
  }

  lemma RecordPays(c: Cell, clock: int)
    requires CellOk(c, clock) && c.hold.Attempted? && c.row.Some?
    ensures Weight(RecordCell(c, clock)) + 1 <= Weight(c)
  {}

  lemma SkipUnwantedPays(c: Cell, e: CellEvent, clock: int)
    requires CellOk(c, clock) && LegalCell(c, e, clock) && e.SkipUnwanted? && c.row.Some?
    ensures Weight(CellStep(c, e, clock)) + 1 <= Weight(c)
  {}

  lemma ClaimAndSendCostNothing(c: Cell, e: CellEvent, clock: int)
    requires CellOk(c, clock) && LegalCell(c, e, clock) && (e.Claim? || e.Send?)
    ensures Weight(CellStep(c, e, clock)) == Weight(c)
  {}

  lemma RestPays(c: Cell, e: CellEvent, clock: int)
    requires CellOk(c, clock) && LegalCell(c, e, clock)
    requires e.Notify? || e.Crash? || e.Cleanup? || e.MarkSkipped? || e.Delete?
    ensures Weight(CellStep(c, e, clock)) + (if PaysFor(c, e) then 1 else 0) <= Weight(c)
  {}

  lemma CellPays(c: Cell, e: CellEvent, clock: int)
    requires CellOk(c, clock) && LegalCell(c, e, clock)
    ensures Weight(CellStep(c, e, clock)) + (if PaysFor(c, e) then 1 else 0) <= Weight(c)
  {
    if e.Claim? || e.Send? {
      ClaimAndSendCostNothing(c, e, clock);
    } else if e.SkipUnwanted? {
      if c.row.Some? {
        SkipUnwantedPays(c, e, clock);
      }
    } else if e.Record? {
      if c.row.Some? {
        RecordPays(c, clock);
      }
    } else {
      RestPays(c, e, clock);
    }
  }

  lemma OthersWeigh(s: State, e: Event, i: nat)
    requires Inv(s) && Legal(s, e) && !(e.Register? && i == s.lastId + 1)
    ensures WeightAt(Step(s, e).cells, i) + (if IsProgress(s, e) && e.id == i then 1 else 0) <= WeightAt(s.cells, i)
  {
    if i in s.cells && e.At? && e.id == i {
      CellPays(s.cells[i], e.e, s.clock);
    }
  }

  /** A new row can be attempted three times and five times. */
  lemma NewRowWeighs(s: State, e: Event)
    requires Legal(s, e) && e.Register?
    ensures Step(s, e).lastId == s.lastId + 1 && WeightAt(Step(s, e).cells, s.lastId + 1) <= NEW_WEIGHT
  {}

  lemma StepPays(s: State, e: Event)
    requires Inv(s) && Legal(s, e)
    ensures (if IsProgress(s, e) then 1 else 0) + Total(Step(s, e))
      <= Total(s) + (if e.Register? then NEW_WEIGHT else 0)
  {
    var before, after := Weights(s.cells), Weights(Step(s, e).cells);
    var id := if e.Register? then s.lastId + 1 else if e.At? then e.id else 0;
    forall i: nat | i != id
      ensures after(i) <= before(i)
    {
      OthersWeigh(s, e, i);
    }
    if e.Register? {
      NewRowWeighs(s, e);
      Sums.TotalMoves(before, after, s.lastId, id, -NEW_WEIGHT);
    } else {
      OthersWeigh(s, e, id);
      var d := if IsProgress(s, e) then 1 else 0;
      if IsProgress(s, e) {
        KnownId(s, e.id);
      }
      Sums.TotalMoves(before, after, s.lastId, id, d);
    }
  }

  lemma KnownId(s: State, id: nat)
    requires Inv(s) && id in s.cells
    ensures 0 < id <= s.lastId
  {}

  /** Over any run, recorded attempts, skips and cleanups are bounded by what the first rows
      allow and eight for each row registered, whatever crashes and however runs change. */
  lemma {:induction false} ProgressIsBounded(s: State, es: seq<Event>)
    requires Inv(s) && LegalRun(s, es)
    ensures ProgressSteps(s, es) + Total(Run(s, es)) <= Total(s) + NEW_WEIGHT * Registrations(es)
    decreases |es|
  {
    if es != [] {
      StepPays(s, es[0]);
      StepKeepsInv(s, es[0]);
      ProgressIsBounded(Step(s, es[0]), es[1..]);
    }
  }

  // ---------- Skipping a delivery from outside ----------

  /** Over every legal run the row stays skipped as long as it exists. */
  ghost predicate SkippedForGood(s: State, id: nat) {
    forall es :: LegalRun(s, es) ==> id in Run(s, es).cells && RowSkipped(Run(s, es).cells[id])
  }

  predicate RowSkipped(c: Cell) {
    c.row.Some? ==> c.row.value.terminal.Skipped?
  }

  /** The worker can still write back a copy in which the terminal leg is not skipped. */
  predicate Overwrites(c: Cell) {
    match c.hold
    case Free => false
    case Notifying(_) => false
    case Attempted(leg, copy, _, _, _) => leg.Terminal? || !copy.terminal.Skipped?
    case Claimed(leg, copy, completed) =>
      if leg.Terminal? then KindOf(completed) in copy.wants else !copy.terminal.Skipped?
  }

  /** Skipping the terminal leg from outside lasts if and only if no attempt in flight can write back
      a copy in which the leg is not skipped. */
  lemma SkipLastsIff(s: State, id: nat, reason: Option<string>)
    requires Inv(s) && id in s.cells && s.cells[id].row.Some? && !s.cells[id].row.value.terminal.Sent?
    ensures SkippedForGood(Step(s, At(id, MarkSkipped(reason))), id) <==> !Overwrites(s.cells[id])
  {
    var e := At(id, MarkSkipped(reason));
    var s', c := Step(s, e), s.cells[id];
    StepKeepsInv(s, e);
    if Overwrites(c) {
      var es := WriteBack(s', id);
    } else if c.hold.Claimed? && c.hold.leg.Terminal? {
      UnwantedStaysSkipped(s', id);
    } else {
      forall es | LegalRun(s', es)
        ensures id in Run(s', es).cells && RowSkipped(Run(s', es).cells[id])
      {
        FinalLegStays(s', es, id, Terminal);
      }
    }
  }

  lemma RecordUndoes(s: State, id: nat)
    requires Inv(s) && id in s.cells && s.cells[id].row.Some? && s.cells[id].hold.Attempted? && Overwrites(s.cells[id])
    ensures LegalRun(s, [At(id, Record)]) && id in Run(s, [At(id, Record)]).cells
    ensures !RowSkipped(Run(s, [At(id, Record)]).cells[id])
  {
    assert [At(id, Record)][1..] == [];
  }

  /** The worker finishes its attempt, and the row is no longer skipped. */
  lemma WriteBack(s: State, id: nat) returns (es: seq<Event>)
    requires Inv(s) && id in s.cells && s.cells[id].row.Some? && Overwrites(s.cells[id])
    ensures LegalRun(s, es) && id in Run(s, es).cells && !RowSkipped(Run(s, es).cells[id])
  {
    if s.cells[id].hold.Attempted? {
      es := [At(id, Record)];
      RecordUndoes(s, id);
    } else {
      var send := At(id, Send("x", true));
      PlainText("x");
      StepKeepsInv(s, send);
      RecordUndoes(Step(s, send), id);
      es := [send, At(id, Record)];
      assert es[1..] == [At(id, Record)];
    }
  }

  /** The worker holds a claim of a terminal message that nobody wants: it will be skipped. */
  predicate Unwanted(c: Cell) {
    RowSkipped(c) &&
    (InFlight(c) ==>
      if c.hold.leg.Terminal? then c.hold.Claimed? && KindOf(c.hold.completed) !in c.hold.copy.wants
      else c.hold.copy.terminal.Skipped?)
  }

  lemma UnwantedStep(c: Cell, e: CellEvent, clock: int)
    requires CellOk(c, clock) && LegalCell(c, e, clock) && Unwanted(c)
    ensures Unwanted(CellStep(c, e, clock))
  {}

  lemma {:induction false} UnwantedStays(s: State, es: seq<Event>, id: nat)
    requires Inv(s) && LegalRun(s, es) && id in s.cells && Unwanted(s.cells[id])
    ensures id in Run(s, es).cells && RowSkipped(Run(s, es).cells[id])
    decreases |es|
  {
    if es != [] {
      var e := es[0];
      CellAfter(s, e, id);
      if e.DeleteProject? {
        UnwantedStep(s.cells[id], Delete, s.clock);
      } else if e.At? && e.id == id {
        UnwantedStep(s.cells[id], e.e, s.clock);
      }
      StepKeepsInv(s, e);
      UnwantedStays(Step(s, e), es[1..], id);
    }
  }

  lemma UnwantedStaysSkipped(s: State, id: nat)
    requires Inv(s) && id in s.cells && Unwanted(s.cells[id])
    ensures SkippedForGood(s, id)
  {
    forall es | LegalRun(s, es)
      ensures id in Run(s, es).cells && RowSkipped(Run(s, es).cells[id])
    {
      UnwantedStays(s, es, id);
    }
  }

  /** And when no attempt is in flight, nothing is sent for the leg afterwards, in any run. */
  lemma SkippedStaysQuiet(s: State, es: seq<Event>, id: nat, reason: Option<string>)
    requires Inv(s) && id in s.cells && s.cells[id].row.Some? && !s.cells[id].row.value.terminal.Sent?
    requires !InFlight(s.cells[id]) && LegalRun(Step(s, At(id, MarkSkipped(reason))), es)
    ensures id in Run(Step(s, At(id, MarkSkipped(reason))), es).cells
    ensures Run(Step(s, At(id, MarkSkipped(reason))), es).cells[id].tally.terminal.sends
      == s.cells[id].tally.terminal.sends
  {
    StepKeepsInv(s, At(id, MarkSkipped(reason)));
    FinalLegStays(Step(s, At(id, MarkSkipped(reason))), es, id, Terminal);
  }

  lemma PlainText(s: string)
    requires s != "" && !IsSpace(s[0]) && !IsSpace(s[|s| - 1])
    ensures Strip(s) == s
  {}

  /** The terminal leg of a completed run has been claimed. */
  lemma ClaimedAttempt() returns (s: State)
    ensures Inv(s) && s.clock == 0 && s.lastId == 1 && s.cells.Keys == {1} && Over(s.runs, "r", true)
    ensures s.cells[1].row == Some(ClaimedRow(NewRow("r", "p", "n", {CompletedEvent}, true, false, 0), Terminal, 0))
    ensures s.cells[1].hold == Claimed(Terminal, s.cells[1].row.value, true)
  {
    var row := NewRow("r", "p", "n", {CompletedEvent}, true, false, 0);
    var e1, e2 := SetRuntime("r", Runtime(true, true, false, "")), Register(row);
    var e3 := At(1, Claim(Terminal, -LEASE, true));
    InvInitially();
    var s1 := Step(EMPTY, e1);
    StepKeepsInv(EMPTY, e1);
    var s2 := Step(s1, e2);
    StepKeepsInv(s1, e2);
    s := Step(s2, e3);
    StepKeepsInv(s2, e3);
  }

  /** Its first attempt is refused and not yet recorded. */
  lemma RefusedAttempt() returns (s: State)
    ensures Inv(s) && s.clock == 0 && s.lastId == 1 && s.cells.Keys == {1} && Over(s.runs, "r", true)
    ensures s.cells[1].row == Some(ClaimedRow(NewRow("r", "p", "n", {CompletedEvent}, true, false, 0), Terminal, 0))
    ensures s.cells[1].hold == Attempted(Terminal, s.cells[1].row.value, true, "done", false)
  {
    var s3 := ClaimedAttempt();
    PlainText("done");
    s := Step(s3, At(1, Send("done", false)));
    StepKeepsInv(s3, At(1, Send("done", false)));
  }

  /** The row and the duties of the attempt, while the clock stands still. */
  predicate Refused(s: State, row: Delivery) {
    s.cells.Keys == {1} && s.clock == 0 && Over(s.runs, "r", true)
    && s.cells[1].row == Some(row) && s.cells[1].hold.Attempted? && s.cells[1].hold.leg.Terminal? && !s.cells[1].hold.ok
    && s.cells[1].hold.copy == ClaimedRow(NewRow("r", "p", "n", {CompletedEvent}, true, false, 0), Terminal, 0)
  }

  /** A leg that can be claimed at once. */
  predicate OpenAgain(s: State) {
    s.cells.Keys == {1} && s.clock == 0 && Over(s.runs, "r", true)
    && s.cells[1].hold.Free? && s.cells[1].row.Some? && s.cells[1].row.value.terminal.Pending?
    && s.cells[1].row.value.run == "r" && s.cells[1].row.value.wants == {CompletedEvent}
  }

  lemma SkipInFlight(s: State, row: Delivery)
    requires Refused(s, row) && !row.terminal.Sent?
    ensures var e := At(1, MarkSkipped(None));
      && Legal(s, e) && Refused(Step(s, e), SkippedRow(row, None, 0))
      && Step(s, e).cells[1].tally.terminal.sends == s.cells[1].tally.terminal.sends
  {}

  /** The write-back makes the skipped leg pending again. */
  lemma SkipIsOverwritten(s: State, row: Delivery)
    requires Refused(s, row)
    ensures var s' := Step(s, At(1, Record));
      && Legal(s, At(1, Record)) && OpenAgain(s')
      && s'.cells[1].tally.terminal.sends == s.cells[1].tally.terminal.sends
  {}

  lemma SendOnceMore(s: State)
    requires OpenAgain(s)
    ensures var es := [At(1, Claim(Terminal, -LEASE, true)), At(1, Send("done", true))];
      && LegalRun(s, es) && 1 in Run(s, es).cells
      && Run(s, es).cells[1].tally.terminal.sends == s.cells[1].tally.terminal.sends + 1
  {
    var es := [At(1, Claim(Terminal, -LEASE, true)), At(1, Send("done", true))];
    var s1 := Step(s, es[0]);
    PlainText("done");
    assert es[1..] == [es[1]] && es[1..][1..] == [];
    assert Run(s1, [es[1]]) == Step(s1, es[1]) && LegalRun(s1, [es[1]]);
  }

  /** A legal run in which the skip comes while a send is in flight: the write-back undoes it and the
      message is handed over once more. */
  lemma SkippedIsSentAgain() returns (before: State, skipped: State)
    ensures Inv(before) && 1 in before.cells && before.cells[1].row.Some? && before.cells[1].hold.Attempted?
    ensures Legal(before, At(1, MarkSkipped(None))) && skipped == Step(before, At(1, MarkSkipped(None)))
    ensures 1 in skipped.cells && skipped.cells[1].row.Some? && skipped.cells[1].row.value.terminal.Skipped?
    ensures var es := [At(1, Record), At(1, Claim(Terminal, -LEASE, true)), At(1, Send("done", true))];
      && LegalRun(skipped, es) && 1 in Run(skipped, es).cells
      && Run(skipped, es).cells[1].tally.terminal.sends == before.cells[1].tally.terminal.sends + 1
  {
    before := RefusedAttempt();
    skipped := Step(before, At(1, MarkSkipped(None)));
    var es := [At(1, Record), At(1, Claim(Terminal, -LEASE, true)), At(1, Send("done", true))];
    SkipInFlight(before, before.cells[1].row.value);
    SkipIsOverwritten(skipped, skipped.cells[1].row.value);
    SendOnceMore(Step(skipped, es[0]));
    assert es[1..] == [At(1, Claim(Terminal, -LEASE, true)), At(1, Send("done", true))];
  }
}
