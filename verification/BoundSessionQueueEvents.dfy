/**
  What each operation of the queue service does to the state, as a sequence of events of the
  machine, and where those events lead: that they are legal and what the table, the runs and
  the clock are afterwards.  What the outside world answers is a parameter.
  */
module BoundSessionQueueEvents {
  import opened Options
  import opened BoundSessionQueue
  import Theorems = BoundSessionQueueTheorems

  // ---------- What the outside world answers ----------

  /** Starting a run: it started; it was refused with a RuntimeError, and the failure message
      may go out or not; any other exception, before or after the run was created, ends the pass. */
  datatype StartOutcome =
    Ran(run: string, elapsed: nat) | Refused(elapsed: nat, sent: bool) | Broke | BrokeAfter(run: string)

  predicate MakesRun(o: StartOutcome) {
    o.Ran? || o.BrokeAfter?
  }

  datatype ResumeOutcome = Resumed | ResumeRefused | ResumeBroke

  /** A call to `resume_run_async`, the time it took, and whether a message can be sent. */
  datatype Answer = Answer(resume: ResumeOutcome, elapsed: nat, sent: bool)

  predicate ReceiptDue(r: Item) {
    r.receipt.Some? && r.receipt.value != "" && !r.cleanup.Skipped?
  }

  function SkipEvents(id: nat, r: Item, at: int): seq<Event> {
    if ReceiptDue(r) then [SkipReceipt(id, at)] else []
  }

  function WithoutReceipt(r: Item, at: int): Item {
    if ReceiptDue(r) then r.(cleanup := Skipped, updatedAt := at) else r
  }

  predicate GivesUp(r: Item) {
    r.startAttempts + 1 >= START_MAX_ATTEMPTS
  }

  // ---------- The events of each operation ----------

  /** Claim, start, record; or claim, be refused, and back off or give up. */
  function StartEvents(s: State, id: nat, now: int, o: StartOutcome): seq<Event>
    requires id in s.rows
  {
    match o
    case Broke => [Claim(id, now), Crash]
    case BrokeAfter(run) => [Claim(id, now), CreateRun(run), Crash]
    case Ran(run, elapsed) =>
      var at := s.clock + elapsed;
      [Claim(id, now), CreateRun(run), Tick(at), RecordStart(at)] + SkipEvents(id, s.rows[id], at)
    case Refused(elapsed, sent) =>
      var at := s.clock + elapsed;
      [Claim(id, now), Tick(at), RecordStartFailure(at)]
      + (if GivesUp(s.rows[id]) && sent then SkipEvents(id, s.rows[id], at) else [])
  }

  predicate StartAborts(s: State, id: nat, o: StartOutcome)
    requires id in s.rows
  {
    o.Broke? || o.BrokeAfter? || (o.Refused? && !o.sent && GivesUp(s.rows[id]))
  }

  /** A failed run that is still awaiting recovery is put back to paused when it is read. */
  function RepairEvents(s: State, run: string): seq<Event> {
    if run in s.runs && NeedsRepair(s.runs[run]) then [SetRuntime(run, Repaired(s.runs[run], s.clock))] else []
  }

  /** The most recently updated active run of the session, or none. */
  ghost predicate MostRecentActive(runs: map<string, Runtime>, session: string, active: Option<string>) {
    && IsActiveRun(runs, session, active)
    && (active.Some? ==> forall r :: r in runs && runs[r].session == session && IsActive(runs[r]) ==>
          runs[r].updatedAt <= runs[active.value].updatedAt)
  }

  /** One listed row of the starting loop, and whether an exception ends the loop there. */
  ghost predicate StartChunk(s: State, id: nat, now: int, o: StartOutcome, es: seq<Event>, aborted: bool) {
    if id !in s.rows || !s.rows[id].status.Queued? || AheadOf(s, id) != {} then es == [] && !aborted
    else if IsActiveRun(s.runs, s.rows[id].session, None)
    then es == StartEvents(s, id, now, o) && aborted == StartAborts(s, id, o)
    else exists a :: MostRecentActive(s.runs, s.rows[id].session, Some(a)) && es == RepairEvents(s, a) && !aborted
  }

  /** The recoverable branch of finalisation: arm, wait, give up, or resume. */
  function RecoverEvents(s: State, id: nat, a: Answer): seq<Event>
    requires id in s.rows
  {
    var r, now := s.rows[id], s.clock;
    if !Armed(r) then [Arm(id, now)]
    else if r.resumeNextAt > now then []
    else if r.resumeAttempts >= RESUME_MAX_ATTEMPTS then
      [FinishExhausted(id, now)] + (if a.sent then SkipEvents(id, r, now) else [])
    else match a.resume
      case ResumeBroke => [CallResume(id, now), Crash]
      case Resumed => [CallResume(id, now), Tick(now + a.elapsed), RecordResume(true)]
      case ResumeRefused =>
        [CallResume(id, now), Tick(now + a.elapsed), RecordResume(false)]
        + (if r.resumeAttempts + 1 >= RESUME_MAX_ATTEMPTS && a.sent then SkipEvents(id, r, now + a.elapsed) else [])
  }

  /** Whether an exception leaves the recoverable branch. */
  predicate RecoverRaises(r: Item, now: int, a: Answer) {
    Armed(r) && r.resumeNextAt <= now &&
    if r.resumeAttempts >= RESUME_MAX_ATTEMPTS then !a.sent
    else a.resume.ResumeBroke? || (a.resume.ResumeRefused? && r.resumeAttempts + 1 >= RESUME_MAX_ATTEMPTS && !a.sent)
  }

  /** One listed row of the finalising loop. */
  function FinalizeEvents(s: State, id: nat, now: int, a: Answer): seq<Event>
    requires id in s.rows
  {
    if s.rows[id].run.None? then [FinishMissingRun(id, now)]
    else if s.rows[id].run.value !in s.runs then []
    else
      var run, rt := s.rows[id].run.value, s.runs[s.rows[id].run.value];
      if rt.status.RunCompleted? then [FinishCompleted(id, now)]
      else if AutoResumes(rt) then RepairEvents(s, run) + RecoverEvents(s, id, a)
      else if rt.status.RunFailed?
      then [FinishFailed(id, now)] + (if a.sent then SkipEvents(id, s.rows[id], s.clock) else [])
      else []
  }

  predicate FinalizeAborts(s: State, id: nat, a: Answer)
    requires id in s.rows
  {
    s.rows[id].run.Some? && s.rows[id].run.value in s.runs &&
    var rt := s.runs[s.rows[id].run.value];
    if AutoResumes(rt) then RecoverRaises(s.rows[id], s.clock, a) else rt.status.RunFailed? && !a.sent
  }

  // ---------- The events are legal and lead where the code goes ----------

  /** The row after a start: what the code writes, one update after the other. */
  function StartResult(r: Item, clock: int, o: StartOutcome): Item {
    var claimed := ClaimedRow(r, clock);
    match o
    case Broke => claimed
    case BrokeAfter(_) => claimed
    case Ran(run, elapsed) => WithoutReceipt(StartedRow(claimed, run, clock + elapsed), clock + elapsed)
    case Refused(elapsed, sent) =>
      var failed := StartFailedRow(claimed, clock + elapsed);
      if GivesUp(r) && sent then WithoutReceipt(failed, clock + elapsed) else failed
  }

  /** A legal run to a state with these rows, runs, clock and worker, where the invariant holds. */
  ghost predicate Leads(s: State, es: seq<Event>, rows: map<nat, Item>, runs: map<string, Runtime>, clock: int,
                        worker: Worker)
  {
    LegalRun(s, es) && At(Run(s, es), rows, runs, clock, worker, s.lastId)
  }

  ghost predicate At(s: State, rows: map<nat, Item>, runs: map<string, Runtime>, clock: int, worker: Worker,
                     lastId: nat)
  {
    s.rows == rows && s.runs == runs && s.clock == clock && s.lastId == lastId && s.worker == worker && Inv(s)
  }

  ghost predicate Reaches(s: State, es: seq<Event>, rows: map<nat, Item>, runs: map<string, Runtime>, clock: int) {
    Leads(s, es, rows, runs, clock, Idle)
  }

  lemma OneStep(s: State, e: Event)
    requires Inv(s) && Legal(s, e)
    ensures LegalRun(s, [e]) && Run(s, [e]) == Step(s, e) && Inv(Step(s, e))
  {
    assert [e][1..] == [];
    StepKeepsInv(s, e);
  }

  lemma ThenStep(s: State, es: seq<Event>, e: Event)
    requires Inv(s) && LegalRun(s, es) && Legal(Run(s, es), e)
    ensures LegalRun(s, es + [e]) && Run(s, es + [e]) == Step(Run(s, es), e) && Inv(Run(s, es)) && Inv(Run(s, es + [e]))
  {
    Theorems.RunKeepsInv(s, es);
    OneStep(Run(s, es), e);
    RunAppends(s, es, [e]);
  }

  lemma TickStep(s: State, to: int)
    requires s.clock <= to
    ensures Legal(s, Tick(to)) && Step(s, Tick(to)) == s.(clock := to)
  {}

  lemma ThenTick(s: State, es: seq<Event>, rows: map<nat, Item>, runs: map<string, Runtime>, clock: int, w: Worker,
                 to: int)
    requires Inv(s) && Leads(s, es, rows, runs, clock, w) && clock <= to
    ensures Leads(s, es + [Tick(to)], rows, runs, to, w)
  {
    TickStep(Run(s, es), to);
    ThenStep(s, es, Tick(to));
  }

  /** Scheduling the cleanup of a receipt after something else has been done to the row. */
  lemma ThenSkip(s: State, es: seq<Event>, id: nat, r: Item, at: int, rows: map<nat, Item>, runs: map<string, Runtime>,
                 clock: int)
    requires Inv(s) && Reaches(s, es, rows, runs, clock) && id in rows
    requires rows[id].receipt == r.receipt && rows[id].cleanup == r.cleanup && rows[id].updatedAt <= at <= clock
    ensures Reaches(s, es + SkipEvents(id, r, at), rows[id := WithoutReceipt(rows[id], at)], runs, clock)
  {
    if ReceiptDue(r) {
      ThenStep(s, es, SkipReceipt(id, at));
    } else {
      assert es + SkipEvents(id, r, at) == es;
      assert rows[id := rows[id]] == rows;
    }
  }

  lemma ClaimLeads(s: State, id: nat, now: int)
    requires Inv(s) && Legal(s, Claim(id, now))
    ensures Leads(s, [Claim(id, now)], s.rows[id := ClaimedRow(s.rows[id], s.clock)], s.runs, s.clock,
                  Claimed(id, s.rows[id].session))
  {
    OneStep(s, Claim(id, now));
  }

  lemma ThenCreateRun(s: State, es: seq<Event>, rows: map<nat, Item>, runs: map<string, Runtime>, clock: int, id: nat,
                      session: string, run: string)
    requires Inv(s) && Leads(s, es, rows, runs, clock, Claimed(id, session))
    requires forall i :: i in rows ==> rows[i].run != Some(run)
    ensures Leads(s, es + [CreateRun(run)], rows, runs[run := Runtime(session, RunQueued, false, clock)], clock,
                  Created(id, run))
  {
    ThenStep(s, es, CreateRun(run));
  }

  lemma ThenRecordStart(s: State, es: seq<Event>, rows: map<nat, Item>, runs: map<string, Runtime>, clock: int, id: nat,
                        run: string)
    requires Inv(s) && Leads(s, es, rows, runs, clock, Created(id, run)) && id in rows
    ensures Leads(s, es + [RecordStart(clock)], rows[id := StartedRow(rows[id], run, clock)], runs, clock, Idle)
  {
    assert ItemOk(Run(s, es), id);
    ThenStep(s, es, RecordStart(clock));
  }

  lemma ThenRecordStartFailure(s: State, es: seq<Event>, rows: map<nat, Item>, runs: map<string, Runtime>, clock: int,
                               id: nat, session: string)
    requires Inv(s) && Leads(s, es, rows, runs, clock, Claimed(id, session)) && id in rows
    ensures Leads(s, es + [RecordStartFailure(clock)], rows[id := StartFailedRow(rows[id], clock)], runs, clock, Idle)
  {
    assert ItemOk(Run(s, es), id);
    ThenStep(s, es, RecordStartFailure(clock));
  }

  lemma RanLeads(s: State, id: nat, now: int, run: string, at: int)
    requires Inv(s) && Legal(s, Claim(id, now)) && FreshRun(s, run) && s.clock <= at
    ensures Leads(s, [Claim(id, now), CreateRun(run), Tick(at)], s.rows[id := ClaimedRow(s.rows[id], s.clock)],
                  s.runs[run := Runtime(s.rows[id].session, RunQueued, false, s.clock)], at, Created(id, run))
  {
    var r := s.rows[id];
    var rows := s.rows[id := ClaimedRow(r, s.clock)];
    var runs := s.runs[run := Runtime(r.session, RunQueued, false, s.clock)];
    var c, d := [Claim(id, now)], [Claim(id, now), CreateRun(run)];
    ClaimLeads(s, id, now);
    ThenCreateRun(s, c, rows, s.runs, s.clock, id, r.session, run);
    assert c + [CreateRun(run)] == d;
    ThenTick(s, d, rows, runs, s.clock, Created(id, run), at);
    assert d + [Tick(at)] == [Claim(id, now), CreateRun(run), Tick(at)];
  }

  lemma RanReaches(s: State, id: nat, now: int, run: string, elapsed: nat)
    requires Inv(s) && Legal(s, Claim(id, now)) && FreshRun(s, run)
    ensures var r, at := s.rows[id], s.clock + elapsed;
      Reaches(s, [Claim(id, now), CreateRun(run), Tick(at), RecordStart(at)],
              s.rows[id := StartedRow(ClaimedRow(r, s.clock), run, at)],
              s.runs[run := Runtime(r.session, RunQueued, false, s.clock)], at)
  {
    var at, r := s.clock + elapsed, s.rows[id];
    var rows := s.rows[id := ClaimedRow(r, s.clock)];
    var runs := s.runs[run := Runtime(r.session, RunQueued, false, s.clock)];
    var e := [Claim(id, now), CreateRun(run), Tick(at)];
    RanLeads(s, id, now, run, at);
    ThenRecordStart(s, e, rows, runs, at, id, run);
    assert e + [RecordStart(at)] == [Claim(id, now), CreateRun(run), Tick(at), RecordStart(at)];
    assert rows[id := StartedRow(rows[id], run, at)] == s.rows[id := StartedRow(ClaimedRow(r, s.clock), run, at)];
  }

  lemma RefusedReaches(s: State, id: nat, now: int, elapsed: nat)
    requires Inv(s) && Legal(s, Claim(id, now))
    ensures var r, at := s.rows[id], s.clock + elapsed;
      Reaches(s, [Claim(id, now), Tick(at), RecordStartFailure(at)],
              s.rows[id := StartFailedRow(ClaimedRow(r, s.clock), at)], s.runs, at)
  {
    var at, r := s.clock + elapsed, s.rows[id];
    var rows := s.rows[id := ClaimedRow(r, s.clock)];
    var c, d := [Claim(id, now)], [Claim(id, now), Tick(at)];
    ClaimLeads(s, id, now);
    ThenTick(s, c, rows, s.runs, s.clock, Claimed(id, r.session), at);
    assert c + [Tick(at)] == d;
    ThenRecordStartFailure(s, d, rows, s.runs, at, id, r.session);
    assert d + [RecordStartFailure(at)] == [Claim(id, now), Tick(at), RecordStartFailure(at)];
    assert rows[id := StartFailedRow(rows[id], at)] == s.rows[id := StartFailedRow(ClaimedRow(r, s.clock), at)];
  }

  lemma BrokeReaches(s: State, id: nat, now: int)
    requires Inv(s) && Legal(s, Claim(id, now))
    ensures Reaches(s, [Claim(id, now), Crash], s.rows[id := ClaimedRow(s.rows[id], s.clock)], s.runs, s.clock)
  {
    ClaimLeads(s, id, now);
    ThenStep(s, [Claim(id, now)], Crash);
    assert [Claim(id, now)] + [Crash] == [Claim(id, now), Crash];
  }

  lemma BrokeAfterReaches(s: State, id: nat, now: int, run: string)
    requires Inv(s) && Legal(s, Claim(id, now)) && FreshRun(s, run)
    ensures Reaches(s, [Claim(id, now), CreateRun(run), Crash], s.rows[id := ClaimedRow(s.rows[id], s.clock)],
                    s.runs[run := Runtime(s.rows[id].session, RunQueued, false, s.clock)], s.clock)
  {
    var c, d := [Claim(id, now)], [Claim(id, now), CreateRun(run)];
    ClaimLeads(s, id, now);
    ThenCreateRun(s, c, s.rows[id := ClaimedRow(s.rows[id], s.clock)], s.runs, s.clock, id, s.rows[id].session, run);
    assert c + [CreateRun(run)] == d;
    ThenStep(s, d, Crash);
    assert d + [Crash] == [Claim(id, now), CreateRun(run), Crash];
  }

  function RunsAfter(s: State, id: nat, o: StartOutcome): map<string, Runtime>
    requires id in s.rows
  {
    if MakesRun(o) then s.runs[o.run := Runtime(s.rows[id].session, RunQueued, false, s.clock)] else s.runs
  }

  function Elapsed(o: StartOutcome): nat {
    if o.Broke? || o.BrokeAfter? then 0 else o.elapsed
  }

  /** The events and the row of a start that went well, in one piece and then the cleanup. */
  lemma RanSplits(s: State, id: nat, now: int, run: string, elapsed: nat)
    requires id in s.rows
    ensures var r, at := s.rows[id], s.clock + elapsed;
      && StartEvents(s, id, now, Ran(run, elapsed))
           == [Claim(id, now), CreateRun(run), Tick(at), RecordStart(at)] + SkipEvents(id, r, at)
      && StartResult(r, s.clock, Ran(run, elapsed)) == WithoutReceipt(StartedRow(ClaimedRow(r, s.clock), run, at), at)
      && RunsAfter(s, id, Ran(run, elapsed)) == s.runs[run := Runtime(r.session, RunQueued, false, s.clock)]
  {}

  lemma RanThenSkip(s: State, id: nat, now: int, run: string, elapsed: nat)
    requires Inv(s) && Legal(s, Claim(id, now)) && FreshRun(s, run)
    ensures var o := Ran(run, elapsed);
      Reaches(s, StartEvents(s, id, now, o), s.rows[id := StartResult(s.rows[id], s.clock, o)], RunsAfter(s, id, o),
              s.clock + elapsed)
  {
    var r, at := s.rows[id], s.clock + elapsed;
    RanReaches(s, id, now, run, elapsed);
    RanSplits(s, id, now, run, elapsed);
    ThenSkip(s, [Claim(id, now), CreateRun(run), Tick(at), RecordStart(at)], id, r, at,
             s.rows[id := StartedRow(ClaimedRow(r, s.clock), run, at)],
             s.runs[run := Runtime(r.session, RunQueued, false, s.clock)], at);
  }

  lemma StartReaches(s: State, id: nat, now: int, o: StartOutcome)
    requires Inv(s) && Legal(s, Claim(id, now)) && (MakesRun(o) ==> FreshRun(s, o.run))
    ensures Reaches(s, StartEvents(s, id, now, o), s.rows[id := StartResult(s.rows[id], s.clock, o)],
                    RunsAfter(s, id, o), s.clock + Elapsed(o))
  {
    var r := s.rows[id];
    match o
    case Broke => BrokeReaches(s, id, now);
    case BrokeAfter(run) => BrokeAfterReaches(s, id, now, run);
    case Ran(run, elapsed) =>
      RanThenSkip(s, id, now, run, elapsed);
    case Refused(elapsed, sent) =>
      RefusedReaches(s, id, now, elapsed);
      var at := s.clock + elapsed;
      var es := [Claim(id, now), Tick(at), RecordStartFailure(at)];
      if GivesUp(r) && sent {
        ThenSkip(s, es, id, r, at, s.rows[id := StartFailedRow(ClaimedRow(r, s.clock), at)], s.runs, at);
      } else {
        assert StartEvents(s, id, now, o) == es;
      }
  }

  // Recovering and finishing

  function RecoverResult(r: Item, now: int, a: Answer): Item {
    if !Armed(r) then ArmedRow(r, now)
    else if r.resumeNextAt > now then r
    else if r.resumeAttempts >= RESUME_MAX_ATTEMPTS then
      var failed := r.(status := Failed, updatedAt := now);
      if a.sent then WithoutReceipt(failed, now) else failed
    else match a.resume
      case ResumeBroke => r
      case Resumed => ResumedRow(r, now, true)
      case ResumeRefused =>
        var refused := ResumedRow(r, now, false);
        if r.resumeAttempts + 1 >= RESUME_MAX_ATTEMPTS && a.sent
        then WithoutReceipt(refused, now + a.elapsed)
        else refused
  }

  predicate CallsNow(r: Item, now: int) {
    Armed(r) && r.resumeNextAt <= now && r.resumeAttempts < RESUME_MAX_ATTEMPTS
  }

  function RecoverTime(r: Item, now: int, a: Answer): nat {
    if CallsNow(r, now) && !a.resume.ResumeBroke? then a.elapsed else 0
  }

  lemma CallLeads(s: State, id: nat)
    requires Inv(s) && Legal(s, CallResume(id, s.clock))
    ensures Leads(s, [CallResume(id, s.clock)], s.rows, s.runs, s.clock, Resuming(id, s.clock))
  {
    OneStep(s, CallResume(id, s.clock));
  }

  lemma ThenRecordResume(s: State, es: seq<Event>, rows: map<nat, Item>, runs: map<string, Runtime>, clock: int,
                         id: nat, now: int, ok: bool)
    requires Inv(s) && Leads(s, es, rows, runs, clock, Resuming(id, now)) && id in rows
    ensures Leads(s, es + [RecordResume(ok)], rows[id := ResumedRow(rows[id], now, ok)], runs, clock, Idle)
  {
    ThenStep(s, es, RecordResume(ok));
  }

  lemma CallReaches(s: State, id: nat, elapsed: nat, ok: bool)
    requires Inv(s) && Legal(s, CallResume(id, s.clock))
    ensures Reaches(s, [CallResume(id, s.clock), Tick(s.clock + elapsed), RecordResume(ok)],
                    s.rows[id := ResumedRow(s.rows[id], s.clock, ok)], s.runs, s.clock + elapsed)
  {
    var now, at := s.clock, s.clock + elapsed;
    var c, d := [CallResume(id, now)], [CallResume(id, now), Tick(at)];
    CallLeads(s, id);
    ThenTick(s, c, s.rows, s.runs, now, Resuming(id, now), at);
    assert c + [Tick(at)] == d;
    ThenRecordResume(s, d, s.rows, s.runs, at, id, now, ok);
    assert d + [RecordResume(ok)] == [CallResume(id, now), Tick(at), RecordResume(ok)];
  }

  lemma CallBrokeReaches(s: State, id: nat)
    requires Inv(s) && Legal(s, CallResume(id, s.clock))
    ensures Reaches(s, [CallResume(id, s.clock), Crash], s.rows, s.runs, s.clock)
  {
    CallLeads(s, id);
    ThenStep(s, [CallResume(id, s.clock)], Crash);
    assert [CallResume(id, s.clock)] + [Crash] == [CallResume(id, s.clock), Crash];
  }

  lemma FinishReaches(s: State, id: nat, now: int, e: Event)
    requires Inv(s) && Legal(s, e)
    requires e in {FinishMissingRun(id, now), FinishCompleted(id, now), FinishFailed(id, now), FinishExhausted(id, now)}
    ensures var status := if e.FinishCompleted? then Completed else Failed;
      Reaches(s, [e], s.rows[id := s.rows[id].(status := status, updatedAt := now)],
                    s.runs, s.clock)
  {
    OneStep(s, e);
  }

  lemma RecoverReaches(s: State, id: nat, a: Answer)
    requires Inv(s) && Recoverable(s, id, s.clock)
    ensures Reaches(s, RecoverEvents(s, id, a), s.rows[id := RecoverResult(s.rows[id], s.clock, a)],
                    s.runs, s.clock + RecoverTime(s.rows[id], s.clock, a))
  {
    var r, now := s.rows[id], s.clock;
    assert ItemOk(s, id);
    if !Armed(r) {
      OneStep(s, Arm(id, now));
    } else if r.resumeNextAt > now {
      assert s.rows[id := r] == s.rows;
    } else if r.resumeAttempts >= RESUME_MAX_ATTEMPTS {
      GiveUpReaches(s, id, a);
    } else {
      AttemptReaches(s, id, a);
    }
  }

  lemma GiveUpReaches(s: State, id: nat, a: Answer)
    requires Inv(s) && Legal(s, FinishExhausted(id, s.clock)) && s.rows[id].updatedAt <= s.clock
    ensures Reaches(s, RecoverEvents(s, id, a), s.rows[id := RecoverResult(s.rows[id], s.clock, a)], s.runs, s.clock)
  {
    var r, now := s.rows[id], s.clock;
    FinishReaches(s, id, now, FinishExhausted(id, now));
    if a.sent {
      ThenSkip(s, [FinishExhausted(id, now)], id, r, now,
               s.rows[id := r.(status := Failed, updatedAt := now)], s.runs, now);
    } else {
      assert RecoverEvents(s, id, a) == [FinishExhausted(id, now)];
    }
  }

  lemma AttemptReaches(s: State, id: nat, a: Answer)
    requires Inv(s) && Legal(s, CallResume(id, s.clock))
    ensures Reaches(s, RecoverEvents(s, id, a), s.rows[id := RecoverResult(s.rows[id], s.clock, a)],
                    s.runs, s.clock + RecoverTime(s.rows[id], s.clock, a))
  {
    var r, now := s.rows[id], s.clock;
    if a.resume.ResumeBroke? {
      CallBrokeReaches(s, id);
      assert s.rows[id := r] == s.rows;
    } else {
      CallReaches(s, id, a.elapsed, a.resume.Resumed?);
      var es := [CallResume(id, now), Tick(now + a.elapsed), RecordResume(false)];
      if a.resume.ResumeRefused? && r.resumeAttempts + 1 >= RESUME_MAX_ATTEMPTS && a.sent {
        ThenSkip(s, es, id, r, now + a.elapsed, s.rows[id := ResumedRow(r, now, false)], s.runs, now + a.elapsed);
      } else if a.resume.ResumeRefused? {
        assert RecoverEvents(s, id, a) == es;
      }
    }
  }

  lemma RepairReaches(s: State, run: string)
    requires Inv(s) && s.worker.Idle? && run in s.runs
    ensures Reaches(s, RepairEvents(s, run), s.rows,
                    if NeedsRepair(s.runs[run]) then s.runs[run := Repaired(s.runs[run], s.clock)] else s.runs, s.clock)
  {
    if NeedsRepair(s.runs[run]) {
      OneStep(s, SetRuntime(run, Repaired(s.runs[run], s.clock)));
    }
  }

  function FinalizeResult(s: State, id: nat, now: int, a: Answer): Item
    requires id in s.rows
  {
    var r := s.rows[id];
    if r.run.None? then r.(status := Failed, updatedAt := now)
    else if r.run.value !in s.runs then r
    else
      var rt := s.runs[r.run.value];
      if rt.status.RunCompleted? then r.(status := Completed, updatedAt := now)
      else if AutoResumes(rt) then RecoverResult(r, s.clock, a)
      else if rt.status.RunFailed? then
        var failed := r.(status := Failed, updatedAt := now);
        if a.sent then WithoutReceipt(failed, s.clock) else failed
      else r
  }

  predicate FinalizeRecovers(s: State, id: nat)
    requires id in s.rows
  {
    s.rows[id].run.Some? && s.rows[id].run.value in s.runs && AutoResumes(s.runs[s.rows[id].run.value])
  }

  function FinalizeRuns(s: State, id: nat): map<string, Runtime>
    requires id in s.rows
  {
    if FinalizeRecovers(s, id) && NeedsRepair(s.runs[s.rows[id].run.value])
    then s.runs[s.rows[id].run.value := Repaired(s.runs[s.rows[id].run.value], s.clock)]
    else s.runs
  }

  lemma FinalizeReaches(s: State, id: nat, now: int, a: Answer)
    requires Inv(s) && InHand(s, id, now)
    ensures Reaches(s, FinalizeEvents(s, id, now, a), s.rows[id := FinalizeResult(s, id, now, a)], FinalizeRuns(s, id),
                    s.clock + (if FinalizeRecovers(s, id) then RecoverTime(s.rows[id], s.clock, a) else 0))
  {
    var r := s.rows[id];
    assert ItemOk(s, id);
    if FinalizeRecovers(s, id) {
      RepairThenRecover(s, id, a);
    } else if FinalizeEvents(s, id, now, a) == [] {
      assert s.rows[id := r] == s.rows;
    } else {
      var e := FinalizeEvents(s, id, now, a)[0];
      FinishReaches(s, id, now, e);
      if e.FinishFailed? && a.sent {
        ThenSkip(s, [e], id, r, s.clock, s.rows[id := r.(status := Failed, updatedAt := now)], s.runs, s.clock);
      } else {
        assert FinalizeEvents(s, id, now, a) == [e];
      }
    }
  }

  lemma RepairThenRecover(s: State, id: nat, a: Answer)
    requires Inv(s) && Recoverable(s, id, s.clock)
    ensures Reaches(s, RepairEvents(s, s.rows[id].run.value) + RecoverEvents(s, id, a),
                    s.rows[id := RecoverResult(s.rows[id], s.clock, a)], FinalizeRuns(s, id),
                    s.clock + RecoverTime(s.rows[id], s.clock, a))
  {
    var fix := RepairEvents(s, s.rows[id].run.value);
    RepairReaches(s, s.rows[id].run.value);
    var s' := Run(s, fix);
    RecoverReaches(s', id, a);
    RunAppends(s, fix, RecoverEvents(s, id, a));
  }

  // ---------- Progress ----------

  lemma {:induction false} ProgressAppends(s: State, a: seq<Event>, b: seq<Event>)
    ensures Theorems.ProgressSteps(s, a + b) == Theorems.ProgressSteps(s, a) + Theorems.ProgressSteps(Run(s, a), b)
    decreases |a|
  {
    if a == [] {
      assert a + b == b;
    } else {
      assert (a + b)[1..] == a[1..] + b;
      ProgressAppends(Step(s, a[0]), a[1..], b);
    }
  }
}
