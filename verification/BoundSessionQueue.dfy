/**
  The durable per-session queue of automation runs, as a state machine.

  A state is the queue table, the run-runtime table, the clock and what the one worker is in
  the middle of.  Every event is one SQL statement, one call to the run service, a crash, or
  a change made by somebody else.  The environment may do anything to the runtime table, the
  clock only moves forward, and a crash may come between any two statements of the worker.
  Times are microseconds.
  */
module BoundSessionQueue {
  import opened Options

  datatype Status = Queued | Starting | WaitingResult | Completed | Failed

  datatype Cleanup = CleanupPending | Cleaning | Cleaned | Skipped | CleanupFailed

  datatype Item = Item(
    session: string, project: string, run: Option<string>, status: Status,
    startAttempts: nat, nextAttemptAt: int,
    resumeAttempts: nat, resumeNextAt: int,
    receipt: Option<string>, cleanup: Cleanup, updatedAt: int)

  datatype RunStatus = RunQueued | Running | Stopping | Paused | Stopped | RunCompleted | RunFailed

  datatype Runtime = Runtime(session: string, status: RunStatus, awaitingRecovery: bool, updatedAt: int)

  const SECOND := 1_000_000
  const START_MAX_ATTEMPTS := 5
  const RESUME_MAX_ATTEMPTS := 5

  /** What the worker holds between two statements. */
  datatype Worker =
    Idle | Claimed(id: nat, session: string) | Created(id: nat, run: string) | Resuming(id: nat, now: int)

  /** A call to `resume_run`: when, with how many earlier calls on record, and when the item
      had last been armed. */
  datatype Call = Call(at: int, recorded: nat, armedAt: int)

  /** History of one item; never read by the queue. */
  datatype Tally = Tally(claims: nat, starts: nat, calls: seq<Call>, lost: nat, armedAt: Option<int>, announced: nat)

  const NO_HISTORY := Tally(0, 0, [], 0, None, 0)

  datatype State = State(
    rows: map<nat, Item>, lastId: nat, runs: map<string, Runtime>, clock: int,
    worker: Worker,
    drafts: map<nat, Item>,         // rows whose creator will still write the receipt id back
    tally: map<nat, Tally>,
    startLog: seq<(string, nat)>)   // session and id of every item started, in order

  const EMPTY := State(map[], 0, map[], 0, Idle, map[], map[], [])

  datatype Event =
    // other tasks
    | Tick(to: int)
    | SetRuntime(run: string, runtime: Runtime)
    | Enqueue(session: string, project: string, active: Option<string>)
    | StoreReceipt(id: nat, receipt: string)
    | DirectStart(session: string, project: string, active: Option<string>, run: string)
    | DeleteProject(project: string)
    // the worker
    | Claim(id: nat, now: int)
    | CreateRun(run: string)
    | RecordStart(at: int)
    | RecordStartFailure(now: int)
    | Crash
    | FinishMissingRun(id: nat, now: int)
    | FinishCompleted(id: nat, now: int)
    | FinishFailed(id: nat, now: int)
    | Arm(id: nat, now: int)
    | CallResume(id: nat, now: int)
    | RecordResume(ok: bool)
    | FinishExhausted(id: nat, now: int)
    | SkipReceipt(id: nat, now: int)

  /** Events of other tasks. */
  predicate ByOthers(e: Event) {
    e.Tick? || e.SetRuntime? || e.Enqueue? || e.StoreReceipt? || e.DirectStart? || e.DeleteProject?
  }

  predicate Starts(e: Event) {
    e.Claim? || e.CreateRun? || e.RecordStart? || e.RecordStartFailure?
  }

  predicate Resumption(e: Event) {
    e.Arm? || e.CallResume? || e.RecordResume? || e.Crash?
  }

  predicate Finishes(e: Event) {
    e.FinishMissingRun? || e.FinishCompleted? || e.FinishFailed? || e.FinishExhausted? || e.SkipReceipt?
  }

  // ---------- Conditions the code tests ----------

  predicate NonTerminal(r: Item) {
    r.status.Queued? || r.status.Starting? || r.status.WaitingResult?
  }

  predicate NeedsRepair(rt: Runtime) {
    rt.awaitingRecovery && rt.status.RunFailed?
  }

  function Repaired(rt: Runtime, now: int): Runtime {
    rt.(status := Paused, updatedAt := now)
  }

  /** `_should_auto_resume`, on a runtime that has been repaired if it needed to be. */
  predicate AutoResumes(rt: Runtime) {
    rt.awaitingRecovery && (rt.status.Paused? || rt.status.Stopped? || rt.status.RunFailed?)
  }

  predicate IsActive(rt: Runtime) {
    rt.status.RunQueued? || rt.status.Running? || rt.status.Paused? || rt.status.Stopped? || AutoResumes(rt)
  }

  /** `active` is an active run of the session, or says that there is none. */
  ghost predicate IsActiveRun(runs: map<string, Runtime>, session: string, active: Option<string>) {
    match active
    case None => forall r :: r in runs && runs[r].session == session ==> !IsActive(runs[r])
    case Some(a) => a in runs && runs[a].session == session && IsActive(runs[a])
  }

  /** The rows that `count_non_terminal_ahead` counts. */
  function AheadOf(s: State, id: nat): set<nat>
    requires id in s.rows
  {
    set i | i in s.rows && i < id && s.rows[i].session == s.rows[id].session && NonTerminal(s.rows[i])
  }

  function Waiting(s: State, session: string): set<nat> {
    set i | i in s.rows && s.rows[i].session == session && NonTerminal(s.rows[i])
  }

  predicate Represented(s: State, run: string) {
    exists i :: i in s.rows && s.rows[i].run == Some(run) && NonTerminal(s.rows[i])
  }

  /** The position that is announced when an item is queued. */
  function AheadCount(s: State, session: string, active: Option<string>): nat {
    |Waiting(s, session)| + (if active.Some? && !Represented(s, active.value) then 1 else 0)
  }

  predicate Armed(r: Item) {
    !(r.resumeAttempts == 0 && r.resumeNextAt <= r.updatedAt)
  }

  // ---------- Rows as the code writes them ----------

  function Backoff(attempt: nat): int {
    if attempt <= 1 then 1 * SECOND
    else if attempt == 2 then 5 * SECOND
    else if attempt == 3 then 15 * SECOND
    else 60 * SECOND
  }

  function Pow2(n: nat): nat {
    if n == 0 then 1 else 2 * Pow2(n - 1)
  }

  function ResumeBackoff(attempt: nat): int {
    10 * SECOND * Pow2(if attempt <= 1 then 0 else attempt - 1)
  }

  function NewItem(session: string, project: string, now: int): Item {
    Item(session, project, None, Queued, 0, now, 0, now, None, Skipped, now)
  }

  function ClaimedRow(r: Item, now: int): Item {
    r.(status := Starting, updatedAt := now)
  }

  function StartedRow(r: Item, run: string, at: int): Item {
    r.(run := Some(run), status := WaitingResult, startAttempts := r.startAttempts + 1,
       nextAttemptAt := at, resumeNextAt := at, updatedAt := at)
  }

  function StartFailedRow(r: Item, now: int): Item {
    var attempts := r.startAttempts + 1;
    if attempts >= START_MAX_ATTEMPTS
    then r.(status := Failed, startAttempts := attempts, updatedAt := now)
    else r.(status := Queued, startAttempts := attempts, nextAttemptAt := now + Backoff(attempts), updatedAt := now)
  }

  function ArmedRow(r: Item, now: int): Item {
    r.(resumeNextAt := now + ResumeBackoff(1), updatedAt := now)
  }

  function ResumedRow(r: Item, now: int, ok: bool): Item {
    var attempts := r.resumeAttempts + 1;
    if !ok && attempts >= RESUME_MAX_ATTEMPTS
    then r.(status := Failed, resumeAttempts := attempts, updatedAt := now)
    else r.(resumeAttempts := attempts, resumeNextAt := now + ResumeBackoff(attempts + 1), updatedAt := now)
  }

  // ---------- One event ----------

  function SetRow(s: State, id: nat, r: Item): State {
    if id in s.rows then s.(rows := s.rows[id := r]) else s
  }

  function History(s: State, id: nat): Tally {
    if id in s.tally then s.tally[id] else NO_HISTORY
  }

  function SetHistory(s: State, id: nat, t: Tally): State {
    s.(tally := s.tally[id := t])
  }

  function Step(s: State, e: Event): State {
    if ByOthers(e) then StepOthers(s, e)
    else if Starts(e) then StepStart(s, e)
    else if Resumption(e) then StepResume(s, e)
    else StepFinish(s, e)
  }

  function StepOthers(s: State, e: Event): State
    requires ByOthers(e)
  {
    match e
    case Tick(to) => s.(clock := to)
    case SetRuntime(run, rt) => s.(runs := s.runs[run := rt])
    case Enqueue(session, project, active) =>
      var id, row := s.lastId + 1, NewItem(session, project, s.clock);
      s.(rows := s.rows[id := row], lastId := id, drafts := s.drafts[id := row],
         tally := s.tally[id := NO_HISTORY.(announced := AheadCount(s, session, active))])
    case StoreReceipt(id, receipt) =>
      if id in s.drafts
      then SetRow(s, id, s.drafts[id].(receipt := Some(receipt), updatedAt := s.clock)).(drafts := s.drafts - {id})
      else s
    case DirectStart(session, project, _, run) =>
      var id := s.lastId + 1;
      s.(rows := s.rows[id := NewItem(session, project, s.clock).(run := Some(run), status := WaitingResult)],
         lastId := id,
         runs := s.runs[run := Runtime(session, RunQueued, false, s.clock)],
         tally := s.tally[id := NO_HISTORY.(starts := 1)], startLog := s.startLog + [(session, id)])
    case DeleteProject(project) =>
      s.(rows := map i | i in s.rows && s.rows[i].project != project :: s.rows[i])
  }

  function StepStart(s: State, e: Event): State
    requires Starts(e)
  {
    match e
    case Claim(id, now) =>
      if id in s.rows then
        var t := History(s, id);
        SetHistory(SetRow(s, id, ClaimedRow(s.rows[id], s.clock)), id, t.(claims := t.claims + 1))
          .(worker := Claimed(id, s.rows[id].session))
      else s
    case CreateRun(run) =>
      if s.worker.Claimed? then
        var id, session := s.worker.id, s.worker.session;
        var t := History(s, id);
        SetHistory(s, id, t.(starts := t.starts + 1))
          .(worker := Created(id, run), runs := s.runs[run := Runtime(session, RunQueued, false, s.clock)],
            startLog := if id in s.rows then s.startLog + [(session, id)] else s.startLog)
      else s
    case RecordStart(at) =>
      if s.worker.Created? && s.worker.id in s.rows
      then SetRow(s, s.worker.id, StartedRow(s.rows[s.worker.id], s.worker.run, at)).(worker := Idle)
      else s.(worker := Idle)
    case RecordStartFailure(now) =>
      if s.worker.Claimed? && s.worker.id in s.rows
      then SetRow(s, s.worker.id, StartFailedRow(s.rows[s.worker.id], now)).(worker := Idle)
      else s.(worker := Idle)
  }

  function StepResume(s: State, e: Event): State
    requires Resumption(e)
  {
    match e
    case Arm(id, now) =>
      if id in s.rows then
        SetHistory(SetRow(s, id, ArmedRow(s.rows[id], now)), id, History(s, id).(armedAt := Some(now)))
      else s
    case CallResume(id, now) =>
      if id in s.rows then
        var t := History(s, id);
        SetHistory(s, id, t.(calls := t.calls + [Call(s.clock, s.rows[id].resumeAttempts, t.armedAt.GetOr(0))]))
          .(worker := Resuming(id, now))
      else s
    case RecordResume(ok) =>
      if s.worker.Resuming? && s.worker.id in s.rows
      then SetRow(s, s.worker.id, ResumedRow(s.rows[s.worker.id], s.worker.now, ok)).(worker := Idle)
      else if s.worker.Resuming? then
        var t := History(s, s.worker.id);
        SetHistory(s, s.worker.id, t.(lost := t.lost + 1)).(worker := Idle)
      else s
    case Crash =>
      if s.worker.Resuming? then
        var t := History(s, s.worker.id);
        SetHistory(s, s.worker.id, t.(lost := t.lost + 1)).(worker := Idle)
      else s.(worker := Idle)
  }

  function StepFinish(s: State, e: Event): State
    requires Finishes(e)
  {
    match e
    case FinishMissingRun(id, now) => Finish(s, id, Failed, now)
    case FinishCompleted(id, now) => Finish(s, id, Completed, now)
    case FinishFailed(id, now) => Finish(s, id, Failed, now)
    case FinishExhausted(id, now) => Finish(s, id, Failed, now)
    case SkipReceipt(id, now) =>
      if id in s.rows then SetRow(s, id, s.rows[id].(cleanup := Skipped, updatedAt := now)) else s
  }

  function Finish(s: State, id: nat, status: Status, now: int): State {
    if id in s.rows then SetRow(s, id, s.rows[id].(status := status, updatedAt := now)) else s
  }

  /** When the code, or the environment, can take this step. */
  ghost predicate Legal(s: State, e: Event) {
    if ByOthers(e) then LegalOthers(s, e)
    else if Starts(e) then LegalStart(s, e)
    else if Resumption(e) then LegalResume(s, e)
    else LegalFinish(s, e)
  }

  ghost predicate LegalOthers(s: State, e: Event)
    requires ByOthers(e)
  {
    match e
    case Tick(to) => s.clock <= to
    case SetRuntime(_, _) => true
    case Enqueue(session, _, active) =>
      IsActiveRun(s.runs, session, active) && AheadCount(s, session, active) > 0
    case StoreReceipt(id, _) => id in s.drafts && (id in s.rows ==> Untouched(s.rows[id]))
    case DirectStart(session, _, active, run) =>
      && IsActiveRun(s.runs, session, active) && AheadCount(s, session, active) == 0
      && FreshRun(s, run)
    case DeleteProject(_) => true
  }

  ghost predicate LegalStart(s: State, e: Event)
    requires Starts(e)
  {
    match e
    case Claim(id, now) => s.worker.Idle? && now <= s.clock && Startable(s, id, now)
    case CreateRun(run) => s.worker.Claimed? && FreshRun(s, run)
    case RecordStart(at) => s.worker.Created? && Fresh(s, s.worker.id, at)
    case RecordStartFailure(now) => s.worker.Claimed? && Fresh(s, s.worker.id, now)
  }

  ghost predicate LegalResume(s: State, e: Event)
    requires Resumption(e)
  {
    match e
    case Arm(id, now) => Recoverable(s, id, now) && !Armed(s.rows[id]) && Fresh(s, id, now)
    case CallResume(id, now) =>
      && Recoverable(s, id, now) && Armed(s.rows[id])
      && s.rows[id].resumeNextAt <= now && s.rows[id].resumeAttempts < RESUME_MAX_ATTEMPTS
    case RecordResume(_) => s.worker.Resuming?
    case Crash => true
  }

  ghost predicate LegalFinish(s: State, e: Event)
    requires Finishes(e)
  {
    match e
    case FinishMissingRun(id, now) => InHand(s, id, now) && s.rows[id].run.None?
    case FinishCompleted(id, now) => HasRuntime(s, id, now) && RuntimeOf(s, id).status.RunCompleted?
    case FinishFailed(id, now) =>
      HasRuntime(s, id, now) && RuntimeOf(s, id).status.RunFailed? && !AutoResumes(RuntimeOf(s, id))
    case FinishExhausted(id, now) =>
      && Recoverable(s, id, now) && Armed(s.rows[id])
      && s.rows[id].resumeNextAt <= now && s.rows[id].resumeAttempts >= RESUME_MAX_ATTEMPTS
    case SkipReceipt(id, now) => s.worker.Idle? && id in s.rows && Fresh(s, id, now) && !s.rows[id].cleanup.Skipped?
  }

  /** A clock reading taken after the row was last written. */
  predicate Fresh(s: State, id: nat, now: int) {
    now <= s.clock && (id in s.rows ==> s.rows[id].updatedAt <= now)
  }

  /** `run_id` is unique in the queue table. */
  ghost predicate FreshRun(s: State, run: string) {
    forall i :: i in s.rows ==> s.rows[i].run != Some(run)
  }

  /** Listed by `list_ready_to_start`, with nothing ahead. */
  ghost predicate Startable(s: State, id: nat, now: int) {
    id in s.rows && s.rows[id].status.Queued? && s.rows[id].nextAttemptAt <= now && AheadOf(s, id) == {}
  }

  /** The row is still as its creator left it, as far as the queue's progress goes. */
  predicate Untouched(r: Item) {
    r.status.Queued? && r.startAttempts == 0
  }

  predicate InHand(s: State, id: nat, now: int) {
    s.worker.Idle? && id in s.rows && s.rows[id].status.WaitingResult? && now <= s.clock
  }

  predicate HasRuntime(s: State, id: nat, now: int) {
    InHand(s, id, now) && s.rows[id].run.Some? && s.rows[id].run.value in s.runs
  }

  function RuntimeOf(s: State, id: nat): Runtime
    requires id in s.rows && s.rows[id].run.Some? && s.rows[id].run.value in s.runs
  {
    s.runs[s.rows[id].run.value]
  }

  predicate Recoverable(s: State, id: nat, now: int) {
    HasRuntime(s, id, now) && AutoResumes(RuntimeOf(s, id))
  }

  function Run(s: State, es: seq<Event>): State
    decreases |es|
  {
    if es == [] then s else Run(Step(s, es[0]), es[1..])
  }

  ghost predicate LegalRun(s: State, es: seq<Event>)
    decreases |es|
  {
    es == [] || (Legal(s, es[0]) && LegalRun(Step(s, es[0]), es[1..]))
  }

  lemma {:induction false} RunAppends(s: State, a: seq<Event>, b: seq<Event>)
    ensures Run(s, a + b) == Run(Run(s, a), b)
    ensures LegalRun(s, a + b) <==> LegalRun(s, a) && LegalRun(Run(s, a), b)
    decreases |a|
  {
    if a == [] {
      assert a + b == b;
    } else {
      assert (a + b)[1..] == a[1..] + b;
      RunAppends(Step(s, a[0]), a[1..], b);
    }
  }

  /** A state that some legal run leads to. */
  ghost predicate Reachable(s: State) {
    exists es :: LegalRun(EMPTY, es) && Run(EMPTY, es) == s
  }

  // ---------- The invariant: one item ----------

  /** What the worker holds of one item. */
  datatype Hold = Free | HoldsClaim(session: string) | HoldsRun | HoldsCall(now: int)

  /** Everything in the state that belongs to one item. */
  datatype View = View(row: Option<Item>, known: bool, tally: Tally, draft: Option<Item>, hold: Hold)

  function HoldOf(s: State, i: nat): Hold {
    match s.worker
    case Idle => Free
    case Claimed(id, session) => if id == i then HoldsClaim(session) else Free
    case Created(id, _) => if id == i then HoldsRun else Free
    case Resuming(id, now) => if id == i then HoldsCall(now) else Free
  }

  function ViewOf(s: State, i: nat): View {
    View(if i in s.rows then Some(s.rows[i]) else None, i in s.tally, History(s, i),
         if i in s.drafts then Some(s.drafts[i]) else None, HoldOf(s, i))
  }

  /** Claims, attempts and starts of one item agree. */
  predicate Accounted(r: Item, t: Tally) {
    && t.claims == r.startAttempts + (if r.status.Starting? then 1 else 0)
    && r.startAttempts <= START_MAX_ATTEMPTS
    && (r.status.Queued? || r.status.Starting? ==> r.startAttempts < START_MAX_ATTEMPTS)
    && (r.status.Queued? ==> t.starts == 0)
  }

  /** Ten seconds doubled and added up: when the call after `recorded` earlier ones is due. */
  function Due(recorded: nat): int {
    10 * SECOND * (Pow2(recorded + 1) - 1)
  }

  predicate Punctual(c: Call) {
    c.at >= c.armedAt + Due(c.recorded) && c.recorded < RESUME_MAX_ATTEMPTS
  }

  predicate Schedule(r: Item, t: Tally) {
    && r.resumeAttempts <= RESUME_MAX_ATTEMPTS
    && (r.status.Queued? || r.status.Starting? ==> t.armedAt.None?)
    && (t.armedAt.None? ==> r.resumeAttempts == 0 && (NonTerminal(r) ==> r.resumeNextAt <= r.updatedAt))
    && (t.armedAt.Some? && NonTerminal(r) ==> r.resumeNextAt >= t.armedAt.value + Due(r.resumeAttempts))
  }

  /** Every call was on time; and as long as no call was lost, they were numbered 0, 1, 2, ...
      since one arming. */
  predicate Calls(t: Tally) {
    && |t.calls| <= RESUME_MAX_ATTEMPTS + t.lost
    && (forall k :: 0 <= k < |t.calls| ==> Punctual(t.calls[k]))
    && (t.lost == 0 ==> forall k :: 0 <= k < |t.calls| ==>
          t.calls[k].recorded == k && t.armedAt == Some(t.calls[k].armedAt))
  }

  predicate Held(r: Item, t: Tally, h: Hold, clock: int) {
    match h
    case Free => true
    case HoldsClaim(session) => r.status.Starting? && r.session == session && t.starts == 0
    case HoldsRun => r.status.Starting?
    case HoldsCall(now) =>
      && r.status.WaitingResult? && t.armedAt.Some? && r.resumeAttempts < RESUME_MAX_ATTEMPTS
      && r.resumeNextAt <= now <= clock
  }

  predicate FreshDraft(d: Item, clock: int) {
    d.status.Queued? && d.startAttempts == 0 && d.resumeAttempts == 0 && d.resumeNextAt <= clock && d.cleanup.Skipped?
  }

  predicate GoodRow(r: Item, v: View, clock: int) {
    && r.updatedAt <= clock
    && Accounted(r, v.tally) && Schedule(r, v.tally) && Held(r, v.tally, v.hold, clock)
    && |v.tally.calls| == r.resumeAttempts + v.tally.lost + (if v.hold.HoldsCall? then 1 else 0)
    && (v.draft.Some? ==>
          r.session == v.draft.value.session && r.project == v.draft.value.project
          && ((r.status.Queued? && r.nextAttemptAt == v.draft.value.nextAttemptAt) || v.tally.claims > 0))
  }

  predicate Good(v: View, clock: int) {
    && (v.row.Some? ==> v.known && GoodRow(v.row.value, v, clock))
    && v.tally.starts <= 1 && Calls(v.tally)
    && (v.hold.HoldsClaim? ==> v.tally.starts == 0)
    && (v.draft.Some? ==> FreshDraft(v.draft.value, clock))
  }

  const BLANK := View(None, false, NO_HISTORY, None, Free)

  ghost predicate ItemOk(s: State, i: nat) {
    && Good(ViewOf(s, i), s.clock)
    && (i == 0 || i > s.lastId ==> ViewOf(s, i) == BLANK)
  }

  // ---------- The invariant: items of one session ----------

  /** Of two unfinished items of a session, the later one is still queued. */
  predicate PairOk(s: State, i: nat, j: nat) {
    (i in s.rows && j in s.rows && i < j && s.rows[i].session == s.rows[j].session
     && NonTerminal(s.rows[i]) && NonTerminal(s.rows[j]))
    ==> s.rows[j].status.Queued?
  }

  /** Not started yet, but it may be. */
  predicate Startless(r: Item, t: Tally) {
    (r.status.Queued? || r.status.Starting?) && t.starts == 0
  }

  /** What is still to start comes after what has been started. */
  predicate AfterLog(s: State, k: nat, i: nat) {
    (k < |s.startLog| && i in s.rows && s.rows[i].session == s.startLog[k].0 && Startless(s.rows[i], History(s, i)))
    ==> s.startLog[k].1 < i
  }

  /** Within a session, starts go up in id. */
  ghost predicate LogOrdered(s: State) {
    && (forall k, l :: 0 <= k < l < |s.startLog| && s.startLog[k].0 == s.startLog[l].0 ==>
          s.startLog[k].1 < s.startLog[l].1)
    && (forall k :: 0 <= k < |s.startLog| ==> s.startLog[k].1 <= s.lastId)
  }

  ghost predicate Inv(s: State) {
    && (forall i :: ItemOk(s, i))
    && (forall i, j :: PairOk(s, i, j))
    && (forall k, i :: AfterLog(s, k, i))
    && LogOrdered(s)
  }

  lemma InvInitially()
    ensures Inv(EMPTY)
  {
    forall i
      ensures ItemOk(EMPTY, i)
    {
      assert ViewOf(EMPTY, i) == BLANK;
    }
  }

  // ---------- One step keeps it ----------

  /** The item an event is about; 0 when there is none. */
  function Subject(s: State, e: Event): nat {
    match e
    case Tick(_) => 0
    case SetRuntime(_, _) => 0
    case DeleteProject(_) => 0
    case Enqueue(_, _, _) => s.lastId + 1
    case DirectStart(_, _, _, _) => s.lastId + 1
    case StoreReceipt(id, _) => id
    case Claim(id, _) => id
    case FinishMissingRun(id, _) => id
    case FinishCompleted(id, _) => id
    case FinishFailed(id, _) => id
    case Arm(id, _) => id
    case CallResume(id, _) => id
    case FinishExhausted(id, _) => id
    case SkipReceipt(id, _) => id
    case _ => if s.worker.Idle? then 0 else s.worker.id
  }

  predicate SameView(s: State, s': State, i: nat) {
    ViewOf(s', i) == ViewOf(s, i) && s.clock <= s'.clock && s.lastId <= s'.lastId
  }

  lemma OthersKeepOutside(s: State, e: Event, i: nat)
    requires ByOthers(e) && Legal(s, e) && i != Subject(s, e) && !e.DeleteProject?
    ensures SameView(s, Step(s, e), i)
  {}

  lemma OthersKeepStart(s: State, e: Event, i: nat)
    requires Starts(e) && (e.Claim? || e.CallResume? ==> s.worker.Idle?) && i != Subject(s, e)
    ensures SameView(s, Step(s, e), i)
  {}

  lemma OthersKeepResume(s: State, e: Event, i: nat)
    requires Resumption(e) && (e.Claim? || e.CallResume? ==> s.worker.Idle?) && i != Subject(s, e)
    ensures SameView(s, Step(s, e), i)
  {
    match e
    case Arm(_, _) =>
    case CallResume(_, _) =>
    case RecordResume(_) =>
    case Crash =>
  }

  lemma OthersKeepFinish(s: State, e: Event, i: nat)
    requires Finishes(e) && (e.Claim? || e.CallResume? ==> s.worker.Idle?) && i != Subject(s, e)
    ensures SameView(s, Step(s, e), i)
  {}

  /** Another item keeps its view, or its row is deleted with its project. */
  lemma OthersKeep(s: State, e: Event, i: nat)
    requires Legal(s, e) && i != Subject(s, e)
    ensures ViewOf(Step(s, e), i) == ViewOf(s, i)
      || (e.DeleteProject? && ViewOf(Step(s, e), i) == ViewOf(s, i).(row := None))
    ensures s.clock <= Step(s, e).clock && s.lastId <= Step(s, e).lastId
  {
    if Starts(e) {
      OthersKeepStart(s, e, i);
    } else if Resumption(e) {
      OthersKeepResume(s, e, i);
    } else if Finishes(e) {
      OthersKeepFinish(s, e, i);
    } else if !e.DeleteProject? {
      OthersKeepOutside(s, e, i);
    }
  }

  lemma NewItemKeeps(s: State, e: Event)
    requires e.Enqueue? || e.DirectStart? || e.StoreReceipt?
    requires Legal(s, e) && ItemOk(s, Subject(s, e)) && Subject(s, e) > 0
    ensures ItemOk(Step(s, e), Subject(s, e))
  {}

  lemma StartKeeps(s: State, e: Event)
    requires Starts(e)
    requires Legal(s, e) && ItemOk(s, Subject(s, e)) && Subject(s, e) > 0
    ensures ItemOk(Step(s, e), Subject(s, e))
  {}

  lemma FinishKeeps(s: State, e: Event)
    requires Finishes(e)
    requires Legal(s, e) && ItemOk(s, Subject(s, e)) && Subject(s, e) > 0
    ensures ItemOk(Step(s, e), Subject(s, e))
  {}

  lemma DueGrows(r: nat)
    ensures Due(0) == ResumeBackoff(1) && Due(r + 1) == Due(r) + ResumeBackoff(r + 2)
  {}

  lemma ArmGood(v: View, clock: int, now: int)
    requires Good(v, clock) && v.row.Some? && v.row.value.status.WaitingResult? && !Armed(v.row.value) && v.hold.Free?
    requires now <= clock
    ensures Good(v.(row := Some(ArmedRow(v.row.value, now)), tally := v.tally.(armedAt := Some(now))), clock)
  {
    DueGrows(0);
  }

  lemma CallGood(v: View, clock: int, now: int)
    requires Good(v, clock) && v.row.Some? && v.row.value.status.WaitingResult? && Armed(v.row.value) && v.hold.Free?
    requires v.row.value.resumeNextAt <= now <= clock && v.row.value.resumeAttempts < RESUME_MAX_ATTEMPTS
    ensures var t := v.tally;
      var call := Call(clock, v.row.value.resumeAttempts, t.armedAt.GetOr(0));
      Good(v.(tally := t.(calls := t.calls + [call]), hold := HoldsCall(now)), clock)
  {}

  lemma RecordGood(v: View, clock: int, now: int, ok: bool)
    requires Good(v, clock) && v.row.Some? && v.hold == HoldsCall(now)
    ensures Good(v.(row := Some(ResumedRow(v.row.value, now, ok)), hold := Free), clock)
  {
    DueGrows(v.row.value.resumeAttempts);
  }

  lemma LostGood(v: View, clock: int)
    requires Good(v, clock) && v.hold.HoldsCall?
    ensures Good(v.(tally := v.tally.(lost := v.tally.lost + 1), hold := Free), clock)
  {}

  lemma ArmKeeps(s: State, id: nat, now: int)
    requires Legal(s, Arm(id, now)) && ItemOk(s, id)
    ensures ItemOk(Step(s, Arm(id, now)), id)
  {
    ArmGood(ViewOf(s, id), s.clock, now);
  }

  lemma CallKeeps(s: State, id: nat, now: int)
    requires Legal(s, CallResume(id, now)) && ItemOk(s, id)
    ensures ItemOk(Step(s, CallResume(id, now)), id)
  {
    CallGood(ViewOf(s, id), s.clock, now);
  }

  lemma RecordKeeps(s: State, ok: bool)
    requires Legal(s, RecordResume(ok)) && ItemOk(s, s.worker.id)
    ensures ItemOk(Step(s, RecordResume(ok)), s.worker.id)
  {
    var v := ViewOf(s, s.worker.id);
    if s.worker.id in s.rows {
      RecordGood(v, s.clock, s.worker.now, ok);
    } else {
      LostGood(v, s.clock);
    }
  }

  lemma CrashKeeps(s: State)
    requires !s.worker.Idle? && ItemOk(s, s.worker.id)
    ensures ItemOk(Step(s, Crash), s.worker.id)
  {
    if s.worker.Resuming? {
      LostGood(ViewOf(s, s.worker.id), s.clock);
    }
  }

  lemma ResumeKeeps(s: State, e: Event)
    requires Resumption(e)
    requires Legal(s, e) && ItemOk(s, Subject(s, e)) && Subject(s, e) > 0
    ensures ItemOk(Step(s, e), Subject(s, e))
  {
    match e
    case Arm(id, now) => ArmKeeps(s, id, now);
    case CallResume(id, now) => CallKeeps(s, id, now);
    case RecordResume(ok) => RecordKeeps(s, ok);
    case Crash => CrashKeeps(s);
  }

  lemma SubjectKeeps(s: State, e: Event)
    requires Legal(s, e) && ItemOk(s, Subject(s, e)) && Subject(s, e) > 0
    ensures ItemOk(Step(s, e), Subject(s, e))
  {
    if Starts(e) {
      StartKeeps(s, e);
    } else if Resumption(e) {
      ResumeKeeps(s, e);
    } else if Finishes(e) {
      FinishKeeps(s, e);
    } else {
      NewItemKeeps(s, e);
    }
  }

  /** A row keeps its session; if it is unfinished after the step it was so before, and if it
      was queued it still is, unless it is claimed; if it is still to start, it was before. */
  predicate RowFollows(r: Item, t: Tally, r': Item, t': Tally, claimed: bool) {
    && r'.session == r.session
    && (NonTerminal(r') ==> NonTerminal(r))
    && (r.status.Queued? && NonTerminal(r') && !claimed ==> r'.status.Queued?)
    && (Startless(r', t') ==> Startless(r, t))
  }

  lemma SubjectFollows(s: State, e: Event)
    requires Legal(s, e) && ItemOk(s, Subject(s, e)) && !e.Enqueue? && !e.DirectStart?
    requires Subject(s, e) in s.rows && Subject(s, e) in Step(s, e).rows
    ensures var i, s' := Subject(s, e), Step(s, e);
      RowFollows(s.rows[i], History(s, i), s'.rows[i], History(s', i), e.Claim?)
  {
    if Starts(e) {
      StartFollows(s, e);
    } else if Resumption(e) {
      ResumeFollows(s, e);
    }
  }

  lemma StartFollows(s: State, e: Event)
    requires Starts(e) && Legal(s, e) && ItemOk(s, Subject(s, e)) && Subject(s, e) in s.rows
    ensures var i, s' := Subject(s, e), Step(s, e);
      i in s'.rows && RowFollows(s.rows[i], History(s, i), s'.rows[i], History(s', i), e.Claim?)
  {}

  lemma ResumeFollows(s: State, e: Event)
    requires Resumption(e) && Legal(s, e) && ItemOk(s, Subject(s, e)) && Subject(s, e) in s.rows
    ensures var i, s' := Subject(s, e), Step(s, e);
      i in s'.rows && RowFollows(s.rows[i], History(s, i), s'.rows[i], History(s', i), false)
  {}

  lemma RowKeeps(s: State, e: Event, i: nat)
    requires Legal(s, e) && ItemOk(s, i) && i in Step(s, e).rows && i != s.lastId + 1
    ensures i in s.rows
    ensures var s' := Step(s, e);
      RowFollows(s.rows[i], History(s, i), s'.rows[i], History(s', i), e.Claim? && e.id == i)
    ensures e.CreateRun? && s.worker.id == i ==> !Startless(Step(s, e).rows[i], History(Step(s, e), i))
  {
    assert ViewOf(s, i).row.Some? <==> i in s.rows;
    assert ViewOf(Step(s, e), i).row == Some(Step(s, e).rows[i]);
    if i == Subject(s, e) {
      SubjectFollows(s, e);
    } else {
      OthersKeep(s, e, i);
    }
  }

  lemma OldPairKeeps(s: State, e: Event, i: nat, j: nat)
    requires Legal(s, e) && ItemOk(s, i) && ItemOk(s, j) && PairOk(s, i, j)
    requires i in Step(s, e).rows && j in Step(s, e).rows && i < j <= s.lastId
    ensures PairOk(Step(s, e), i, j)
  {
    RowKeeps(s, e, i);
    RowKeeps(s, e, j);
    if e.Claim? && e.id == j {
      assert i !in AheadOf(s, j);
    }
  }

  lemma NewPairKeeps(s: State, e: Event, i: nat)
    requires Legal(s, e) && ItemOk(s, i) && ItemOk(s, s.lastId + 1)
    requires i in Step(s, e).rows && s.lastId + 1 in Step(s, e).rows && i <= s.lastId
    ensures PairOk(Step(s, e), i, s.lastId + 1)
  {
    RowKeeps(s, e, i);
    NewRow(s, e);
    if e.DirectStart? {
      assert i !in Waiting(s, e.session);
    }
  }

  lemma PairKeeps(s: State, e: Event, i: nat, j: nat)
    requires Legal(s, e) && ItemOk(s, i) && ItemOk(s, j) && PairOk(s, i, j)
    ensures PairOk(Step(s, e), i, j)
  {
    var s' := Step(s, e);
    if i in s'.rows && j in s'.rows && i < j {
      if j <= s.lastId {
        OldPairKeeps(s, e, i, j);
      } else if j == s.lastId + 1 {
        NewPairKeeps(s, e, i);
      } else {
        NoRowBeyond(s, e, j);
      }
    }
  }

  lemma NoRowBeyond(s: State, e: Event, j: nat)
    requires Legal(s, e) && ItemOk(s, j) && j > s.lastId + 1
    ensures j !in Step(s, e).rows
  {
    assert ViewOf(s, j) == BLANK;
    if j != Subject(s, e) {
      OthersKeep(s, e, j);
    }
  }

  /** Only a direct start makes a row that is not queued. */
  lemma NewRow(s: State, e: Event)
    requires Legal(s, e) && ItemOk(s, s.lastId + 1) && s.lastId + 1 in Step(s, e).rows
    ensures e.Enqueue? || e.DirectStart?
    ensures Step(s, e).rows[s.lastId + 1].session == e.session
    ensures Step(s, e).rows[s.lastId + 1].status.Queued? || e.DirectStart?
  {
    if !e.Enqueue? && !e.DirectStart? {
      var i := s.lastId + 1;
      assert ViewOf(s, i).row.None? && ViewOf(Step(s, e), i).row.Some?;
      if i != Subject(s, e) {
        OthersKeep(s, e, i);
      }
    }
  }

  /** What an event adds to the log of starts. */
  function Logged(s: State, e: Event): seq<(string, nat)> {
    if e.DirectStart? then [(e.session, s.lastId + 1)]
    else if e.CreateRun? && s.worker.Claimed? && s.worker.id in s.rows then [(s.worker.session, s.worker.id)]
    else []
  }

  /** An item being started comes after everything its session has started, and before
      everything it has still to start. */
  lemma LoggedFits(s: State, e: Event, k: nat, i: nat)
    requires Legal(s, e) && Inv(s) && Logged(s, e) != []
    ensures k < |s.startLog| && s.startLog[k].0 == Logged(s, e)[0].0 ==> s.startLog[k].1 < Logged(s, e)[0].1
    ensures (i in Step(s, e).rows && Step(s, e).rows[i].session == Logged(s, e)[0].0
             && Startless(Step(s, e).rows[i], History(Step(s, e), i)))
      ==> Logged(s, e)[0].1 < i
    ensures Logged(s, e)[0].1 <= Step(s, e).lastId
  {
    var id := Logged(s, e)[0].1;
    assert ItemOk(s, id) && ItemOk(s, i) && AfterLog(s, k, id) && PairOk(s, i, id);
    if i in Step(s, e).rows && i != s.lastId + 1 && Startless(Step(s, e).rows[i], History(Step(s, e), i)) {
      RowKeeps(s, e, i);
      if e.DirectStart? {
        assert i !in Waiting(s, e.session);
      }
    }
  }

  lemma LogGrows(s: State, e: Event)
    requires Legal(s, e)
    ensures Step(s, e).startLog == s.startLog + Logged(s, e)
  {
    if Starts(e) {
      StartsGrowLog(s, e);
    } else if Resumption(e) || Finishes(e) {
      assert Step(s, e).startLog == s.startLog;
    }
  }

  lemma StartsGrowLog(s: State, e: Event)
    requires Starts(e)
    ensures Step(s, e).startLog == s.startLog + Logged(s, e)
  {}

  lemma AfterLogKeeps(s: State, e: Event, k: nat, i: nat)
    requires Legal(s, e) && Inv(s)
    ensures AfterLog(Step(s, e), k, i)
  {
    var s' := Step(s, e);
    assert ItemOk(s, i) && AfterLog(s, k, i);
    LogGrows(s, e);
    if k < |s'.startLog| && i in s'.rows && Startless(s'.rows[i], History(s', i)) {
      if k < |s.startLog| {
        if i != s.lastId + 1 {
          RowKeeps(s, e, i);
        }
      } else {
        LoggedFits(s, e, k, i);
      }
    }
  }

  lemma LogOrderKeeps(s: State, e: Event)
    requires Legal(s, e) && Inv(s)
    ensures LogOrdered(Step(s, e))
  {
    LogGrows(s, e);
    OthersKeep(s, e, Subject(s, e) + 1);
    if Logged(s, e) != [] {
      forall k: nat
        ensures k < |s.startLog| && s.startLog[k].0 == Logged(s, e)[0].0 ==> s.startLog[k].1 < Logged(s, e)[0].1
      {
        LoggedFits(s, e, k, 0);
      }
      LoggedFits(s, e, 0, 0);
    }
  }

  lemma ItemKeeps(s: State, e: Event, i: nat)
    requires Legal(s, e) && ItemOk(s, i)
    ensures ItemOk(Step(s, e), i)
  {
    if i == Subject(s, e) && i > 0 {
      SubjectKeeps(s, e);
    } else if i != Subject(s, e) {
      OthersKeep(s, e, i);
    }
  }

  /** Every step of every actor keeps the invariant. */
  lemma StepKeepsInv(s: State, e: Event)
    requires Legal(s, e) && Inv(s)
    ensures Inv(Step(s, e))
  {
    var s' := Step(s, e);
    forall i
      ensures ItemOk(s', i)
    {
      assert ItemOk(s, i);
      ItemKeeps(s, e, i);
    }
    forall i, j
      ensures PairOk(s', i, j)
    {
      assert ItemOk(s, i) && ItemOk(s, j) && PairOk(s, i, j);
      PairKeeps(s, e, i, j);
    }
    forall k, i
      ensures AfterLog(s', k, i)
    {
      AfterLogKeeps(s, e, k, i);
    }
    LogOrderKeeps(s, e);
  }
}
