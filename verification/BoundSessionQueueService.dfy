/**
  The queue service as an object.

  The service keeps the state of the machine of BoundSessionQueue as a ghost field; `Valid`
  says that its real fields are that state and that the state satisfies the invariant.  Every
  method says exactly which events take the old state to the new one and that they are a
  legal run, so what is proved about runs holds of the object.
  */
module BoundSessionQueueService {
  import opened Options
  import opened Ordering
  import opened Passes
  import opened BoundSessionQueue
  import opened BoundSessionQueueRepository
  import opened BoundSessionQueueEvents
  import Theorems = BoundSessionQueueTheorems

  /** The events are a legal run from one state to the other. */
  ghost predicate Went(s: State, es: seq<Event>, s': State) {
    LegalRun(s, es) && s' == Run(s, es)
  }

  // ---------- Passes ----------

  type QueuePass = Pass<State, Event>
  type QueueTurn = Turn<State, Event>

  const STALE := 60 * SECOND

  predicate Progress(s: State, es: seq<Event>) {
    Theorems.ProgressSteps(s, es) > 0
  }

  /** Some row made progress. */
  ghost predicate AnyProgress(p: QueuePass) {
    AnyTurn(p, Progress)
  }

  ghost predicate IsStartPass(p: QueuePass, s: State, s': State, limit: int, o: nat -> StartOutcome) {
    && p.ids == Limited(Listed(s.rows, s.lastId, (r: Item) => ReadyToStart(r, s.clock)), limit)
    && PassRuns(p, s, s', StartTurn(s.clock, o))
  }

  ghost function StartTurn(now: int, o: nat -> StartOutcome): QueueTurn {
    (s: State, id: nat, es: seq<Event>, aborted: bool, s': State) =>
      StartChunk(s, id, now, o(id), es, aborted) && Went(s, es, s')
  }

  ghost predicate IsFinalizePass(p: QueuePass, s: State, s': State, limit: int, a: nat -> Answer) {
    && p.ids == Limited(Listed(s.rows, s.lastId, (r: Item) => r.status.WaitingResult?), limit)
    && PassRuns(p, s, s', FinalizeTurn(s.clock, a))
  }

  ghost function FinalizeTurn(now: int, a: nat -> Answer): QueueTurn {
    (s: State, id: nat, es: seq<Event>, aborted: bool, s': State) =>
      && id in s.rows && es == FinalizeEvents(s, id, now, a(id))
      && aborted == FinalizeAborts(s, id, a(id)) && Went(s, es, s')
  }

  ghost predicate IsCleanupPass(p: QueuePass, s: State, s': State, limit: int) {
    && Oldest(DueTimes(s.rows, s.clock - STALE), SafeLimit(limit), p.ids)
    && PassRuns(p, s, s', CleanupTurn())
  }

  ghost function CleanupTurn(): QueueTurn {
    (s: State, id: nat, es: seq<Event>, aborted: bool, s': State) =>
      es == [SkipReceipt(id, s.clock)] && !aborted && Went(s, es, s')
  }

  const NOTHING: QueuePass := Pass([], [EMPTY], [], false)

  function Last(p: QueuePass): State {
    if p.states == [] then EMPTY else p.states[|p.states| - 1]
  }

  ghost predicate Chained(p: QueuePass) {
    && |p.states| == |p.chunks| + 1 && |p.chunks| <= |p.ids|
    && forall k :: 0 <= k < |p.chunks| ==> Went(p.states[k], p.chunks[k], p.states[k + 1])
  }

  /** A pass is one legal run; it makes progress exactly when some row does. */
  lemma {:induction false} PassIsRun(p: QueuePass)
    requires Chained(p)
    ensures Went(p.states[0], Flat(p.chunks), p.states[|p.chunks|])
    ensures AnyProgress(p) <==> Progress(p.states[0], Flat(p.chunks))
    decreases |p.chunks|
  {
    if p.chunks != [] {
      var q := Rest(p);
      assert forall k :: 0 <= k < |q.chunks| ==> q.states[k] == p.states[k + 1] && q.chunks[k] == p.chunks[k + 1];
      PassIsRun(q);
      RunAppends(p.states[0], p.chunks[0], Flat(q.chunks));
      ProgressAppends(p.states[0], p.chunks[0], Flat(q.chunks));
      FirstOrRest(p, Progress);
    }
  }

  // ---------- Progress of each operation ----------

  lemma StartProgress(s: State, id: nat, now: int, o: StartOutcome)
    requires id in s.rows
    ensures Progress(s, StartEvents(s, id, now, o))
  {
    assert StartEvents(s, id, now, o)[0] == Claim(id, now);
  }

  lemma RepairProgress(s: State, run: string)
    ensures !Progress(s, RepairEvents(s, run))
  {
    var es := RepairEvents(s, run);
    if es != [] {
      assert es[1..] == [] && !Theorems.IsProgress(s, es[0]);
      assert Theorems.ProgressSteps(Step(s, es[0]), es[1..]) == 0;
    }
  }

  lemma RecoverProgress(s: State, id: nat, a: Answer)
    requires id in s.rows && !RecoverRaises(s.rows[id], s.clock, a)
    ensures Progress(s, RecoverEvents(s, id, a)) <==> RecoverEvents(s, id, a) != []
  {
    var es := RecoverEvents(s, id, a);
    if es != [] && es[0].CallResume? {
      var s1 := Step(s, es[0]);
      var s2 := Step(s1, es[1]);
      assert Theorems.IsProgress(s2, es[2]);
      assert es[1..][1..][0] == es[2];
      assert Progress(s1, es[1..]) by {
        assert Theorems.ProgressSteps(s2, es[1..][1..]) > 0;
      }
    }
  }

  /** The row changes: anything but a missing runtime, a run still going, or a call not yet due. */
  predicate FinalizeChanges(s: State, id: nat)
    requires id in s.rows
  {
    var r := s.rows[id];
    r.run.None? || (r.run.value in s.runs &&
      if FinalizeRecovers(s, id) then !(Armed(r) && r.resumeNextAt > s.clock)
      else s.runs[r.run.value].status.RunCompleted? || s.runs[r.run.value].status.RunFailed?)
  }

  lemma RecoveryProgress(s: State, id: nat, a: Answer)
    requires id in s.rows && FinalizeRecovers(s, id) && !RecoverRaises(s.rows[id], s.clock, a)
    ensures Progress(s, RepairEvents(s, s.rows[id].run.value) + RecoverEvents(s, id, a))
      <==> !(Armed(s.rows[id]) && s.rows[id].resumeNextAt > s.clock)
  {
    var run := s.rows[id].run.value;
    var fix, rec := RepairEvents(s, run), RecoverEvents(s, id, a);
    ProgressAppends(s, fix, rec);
    RepairProgress(s, run);
    var s' := Run(s, fix);
    assert fix != [] ==> fix[1..] == [];
    assert s'.rows == s.rows && s'.clock == s.clock;
    assert RecoverEvents(s', id, a) == rec;
    RecoverProgress(s', id, a);
  }

  lemma FinalizeProgress(s: State, id: nat, now: int, a: Answer)
    requires id in s.rows && !FinalizeAborts(s, id, a)
    ensures Progress(s, FinalizeEvents(s, id, now, a)) <==> FinalizeChanges(s, id)
  {
    var es := FinalizeEvents(s, id, now, a);
    if FinalizeRecovers(s, id) {
      RecoveryProgress(s, id, a);
    } else if es != [] {
      assert es[0] in es && Theorems.IsProgress(s, es[0]);
    }
  }

  /** Where one turn of the finalising loop ends. */
  lemma FinalizeTo(s: State, id: nat, now: int, a: Answer) returns (u: State)
    requires Inv(s) && InHand(s, id, now)
    ensures Went(s, FinalizeEvents(s, id, now, a), u) && Inv(u) && u.worker.Idle? && u.lastId == s.lastId
    ensures u.rows == s.rows[id := FinalizeResult(s, id, now, a)] && u.runs == FinalizeRuns(s, id)
    ensures u.clock == s.clock + (if FinalizeRecovers(s, id) then RecoverTime(s.rows[id], s.clock, a) else 0)
    ensures FinalizeResult(s, id, now, a).run == s.rows[id].run
    ensures !FinalizeAborts(s, id, a) ==> (Progress(s, FinalizeEvents(s, id, now, a)) <==> FinalizeChanges(s, id))
  {
    FinalizeReaches(s, id, now, a);
    u := Run(s, FinalizeEvents(s, id, now, a));
    if !FinalizeAborts(s, id, a) {
      FinalizeProgress(s, id, now, a);
    }
  }

  /** Where a start from the queue ends. */
  lemma StartTo(s: State, id: nat, now: int, o: StartOutcome) returns (u: State)
    requires Inv(s) && Legal(s, Claim(id, now)) && BringsFreshRun(s, o)
    ensures Went(s, StartEvents(s, id, now, o), u) && Inv(u) && u.worker.Idle? && u.lastId == s.lastId
    ensures u.rows == s.rows[id := StartResult(s.rows[id], s.clock, o)] && u.runs == RunsAfter(s, id, o)
    ensures u.clock == s.clock + Elapsed(o)
    ensures Progress(s, StartEvents(s, id, now, o))
    ensures StartResult(s.rows[id], s.clock, o).run == if o.Ran? then Some(o.run) else s.rows[id].run
    ensures IsActiveRun(s.runs, s.rows[id].session, None) ==>
      StartChunk(s, id, now, o, StartEvents(s, id, now, o), StartAborts(s, id, o))
  {
    StartReaches(s, id, now, o);
    StartProgress(s, id, now, o);
    u := Run(s, StartEvents(s, id, now, o));
  }

  /** The turn of a row with others ahead. */
  lemma WaitingTurn(s: State, id: nat, now: int, o: StartOutcome)
    requires id in s.rows
    requires |set i | i in s.rows && i < id && WaitsIn(s.rows[id].session)(s.rows[i])| > 0
    ensures StartChunk(s, id, now, o, [], false) && !Progress(s, []) && Went(s, [], s)
  {
    AheadCounted(s, id);
  }

  /** The turn of a row whose session is busy: at most the active run is put back to paused. */
  lemma BusyTurn(s: State, id: nat, now: int, o: StartOutcome, run: string)
    requires id in s.rows && MostRecentActive(s.runs, s.rows[id].session, Some(run))
    requires s.rows[id].status.Queued? && AheadOf(s, id) == {}
    ensures StartChunk(s, id, now, o, RepairEvents(s, run), false) && !Progress(s, RepairEvents(s, run))
  {
    RepairProgress(s, run);
  }

  // ---------- The service ----------

  /** What `materialize_execution` did: queued behind others, started, or the start was refused. */
  datatype Materialized =
    QueuedAt(id: nat, ahead: nat) | StartedAt(id: nat) | NotStarted | NotBound | Rejected(why: Target)

  /** What the lookups of the binding, the runtime configuration and the session found. */
  datatype Target = NoBinding | NoSessionId | NoRuntimeConfig | UnknownSession | Bound(session: string)

  /** Queued exactly when something is ahead, under the last id given out. */
  ghost predicate MaterializedAs(s: State, session: string, active: Option<string>, start: Option<string>, lastId: nat,
                                 outcome: Materialized)
  {
    match outcome
    case QueuedAt(id, ahead) => ahead == AheadCount(s, session, active) > 0 && id == lastId == s.lastId + 1
    case StartedAt(id) => AheadCount(s, session, active) == 0 && start.Some? && id == lastId == s.lastId + 1
    case NotStarted => AheadCount(s, session, active) == 0 && start.None? && lastId == s.lastId
    case _ => false
  }

  function MaterializeEvents(s: State, session: string, project: string, active: Option<string>, start: Option<string>)
    : seq<Event>
  {
    (if active.Some? then RepairEvents(s, active.value) else []) +
    if AheadCount(s, session, active) > 0 then [Enqueue(session, project, active)]
    else if start.Some? then [DirectStart(session, project, active, start.value)]
    else []
  }

  /** Putting the active run back to paused leaves it active and every count as it was. */
  lemma RepairKeepsActive(s: State, session: string, active: Option<string>)
    requires IsActiveRun(s.runs, session, active)
    ensures var s' := Run(s, if active.Some? then RepairEvents(s, active.value) else []);
      IsActiveRun(s'.runs, session, active) && AheadCount(s', session, active) == AheadCount(s, session, active)
  {
    if active.Some? && NeedsRepair(s.runs[active.value]) {
      var es := RepairEvents(s, active.value);
      assert es[1..] == [];
      assert Run(s, es) == Step(s, es[0]);
    }
  }

  /** The run of one materialisation: to `t` while the active run is looked for, then to `u`. */
  lemma MaterializeReaches(s: State, session: string, project: string, active: Option<string>, start: Option<string>)
    returns (t: State, u: State)
    requires Inv(s) && s.worker.Idle? && IsActiveRun(s.runs, session, active)
    requires start.Some? ==> FreshRun(s, start.value)
    ensures t == Run(s, if active.Some? then RepairEvents(s, active.value) else [])
    ensures AheadCount(t, session, active) == AheadCount(s, session, active) && t.lastId == s.lastId
    ensures Went(s, MaterializeEvents(s, session, project, active, start), u) && Inv(u) && u.worker.Idle?
    ensures QueuedOrStarted(t, u, session, project, AheadCount(s, session, active), start)
  {
    var fix := if active.Some? then RepairEvents(s, active.value) else [];
    t := Run(s, fix);
    u := Run(s, MaterializeEvents(s, session, project, active, start));
    RepairKeepsActive(s, session, active);
    if active.Some? {
      RepairReaches(s, active.value);
    }
    if AheadCount(s, session, active) > 0 {
      ThenStep(s, fix, Enqueue(session, project, active));
    } else if start.Some? {
      ThenStep(s, fix, DirectStart(session, project, active, start.value));
    } else {
      assert MaterializeEvents(s, session, project, active, start) == fix;
    }
  }

  /** What queueing or starting does to the table and the runs. */
  ghost predicate QueuedOrStarted(t: State, u: State, session: string, project: string, ahead: nat,
                                  start: Option<string>)
  {
    && u.clock == t.clock
    && u.lastId == t.lastId + (if ahead > 0 || start.Some? then 1 else 0)
    && u.rows == (if ahead > 0 then t.rows[u.lastId := NewItem(session, project, t.clock)]
                  else if start.Some?
                  then t.rows[u.lastId := NewItem(session, project, t.clock).(run := start, status := WaitingResult)]
                  else t.rows)
    && u.runs == if ahead == 0 && start.Some?
                 then t.runs[start.value := Runtime(session, RunQueued, false, t.clock)]
                 else t.runs
  }

  lemma AheadCounted(s: State, id: nat)
    requires id in s.rows
    ensures AheadOf(s, id) == set i | i in s.rows && i < id && WaitsIn(s.rows[id].session)(s.rows[i])
  {}

  /** A start outcome brings a run that no row has. */
  ghost predicate BringsFreshRun(s: State, o: StartOutcome) {
    MakesRun(o) ==> FreshRun(s, o.run)
  }

  /** The runs that may be started are new, and different for different rows. */
  ghost predicate BringFreshRuns(s: State, o: nat -> StartOutcome) {
    && (forall i :: BringsFreshRun(s, o(i)))
    && (forall i, j :: i != j && MakesRun(o(i)) && MakesRun(o(j)) ==> o(i).run != o(j).run)
  }

  /** The row's run is the one it had, or one started for it when its turn came. */
  predicate RunFrom(r: Item, was: Item, o: nat -> StartOutcome, turns: seq<nat>, id: nat) {
    r.run == was.run || (id in turns && o(id).Ran? && r.run == Some(o(id).run))
  }

  ghost predicate RunsFrom(listed: map<nat, Item>, rows: map<nat, Item>, o: nat -> StartOutcome, turns: seq<nat>) {
    forall j :: j in rows ==> j in listed && RunFrom(rows[j], listed[j], o, turns, j)
  }

  lemma StillFresh(s: State, s': State, o: nat -> StartOutcome, turns: seq<nat>, id: nat)
    requires BringFreshRuns(s, o) && id !in turns && RunsFrom(s.rows, s'.rows, o, turns)
    ensures BringsFreshRun(s', o(id))
  {
    assert BringsFreshRun(s, o(id));
  }

  lemma RunsFromNext(listed: map<nat, Item>, before: map<nat, Item>, after: map<nat, Item>, o: nat -> StartOutcome,
                     ids: seq<nat>, i: nat)
    requires i < |ids| && OnlyRow(before, after, ids[i]) && ids[i] in before && RunsFrom(listed, before, o, ids[..i])
    requires after[ids[i]].run == before[ids[i]].run || (o(ids[i]).Ran? && after[ids[i]].run == Some(o(ids[i]).run))
    ensures RunsFrom(listed, after, o, ids[..i + 1])
  {
    assert ids[..i + 1] == ids[..i] + [ids[i]];
  }

  /** The listed rows from `i` on are as they were listed. */
  predicate Pending(listed: map<nat, Item>, rows: map<nat, Item>, ids: seq<nat>, i: nat) {
    forall k :: i <= k < |ids| ==> ids[k] in listed && ids[k] in rows && rows[ids[k]] == listed[ids[k]]
  }

  lemma PendingNext(listed: map<nat, Item>, before: map<nat, Item>, after: map<nat, Item>, ids: seq<nat>, i: nat)
    requires i < |ids| && Pending(listed, before, ids, i) && OnlyRow(before, after, ids[i])
    requires forall k, l :: 0 <= k < l < |ids| ==> ids[k] != ids[l]
    ensures Pending(listed, after, ids, i + 1)
  {}

  /** The pass has come to row `i` of its listing. */
  ghost predicate StartsLeft(s: State, rows: map<nat, Item>, o: nat -> StartOutcome, ids: seq<nat>, i: nat) {
    i <= |ids| && Pending(s.rows, rows, ids, i) && RunsFrom(s.rows, rows, o, ids[..i])
  }

  lemma StartsBegin(s: State, o: nat -> StartOutcome, ids: seq<nat>)
    requires forall i :: i in ids ==> i in s.rows
    ensures StartsLeft(s, s.rows, o, ids, 0)
  {}

  lemma TurnComes(s: State, s': State, o: nat -> StartOutcome, ids: seq<nat>, i: nat)
    requires StartsLeft(s, s'.rows, o, ids, i) && i < |ids| && Ascends(ids) && BringFreshRuns(s, o)
    ensures ids[i] in ids && ids[i] in s.rows && ids[i] in s'.rows && s'.rows[ids[i]] == s.rows[ids[i]]
    ensures BringsFreshRun(s', o(ids[i]))
  {
    assert ids[i] !in ids[..i];
    StillFresh(s, s', o, ids[..i], ids[i]);
  }

  lemma TurnGoes(s: State, before: map<nat, Item>, after: map<nat, Item>, o: nat -> StartOutcome, ids: seq<nat>, i: nat)
    requires StartsLeft(s, before, o, ids, i) && i < |ids| && Ascends(ids) && OnlyRow(before, after, ids[i])
    requires ids[i] in before
    requires after[ids[i]].run == before[ids[i]].run || (o(ids[i]).Ran? && after[ids[i]].run == Some(o(ids[i]).run))
    ensures StartsLeft(s, after, o, ids, i + 1)
  {
    RunsFromNext(s.rows, before, after, o, ids, i);
    PendingNext(s.rows, before, after, ids, i);
  }

  predicate SameRuns(before: map<nat, Item>, after: map<nat, Item>) {
    forall j :: j in after ==> j in before && after[j].run == before[j].run
  }

  lemma SameRunsNext(listed: map<nat, Item>, before: map<nat, Item>, after: map<nat, Item>, id: nat)
    requires SameRuns(listed, before) && OnlyRow(before, after, id) && id in before && after[id].run == before[id].run
    ensures SameRuns(listed, after)
  {}

  /** The finalising pass has come to row `i` of its listing. */
  ghost predicate FinalizesLeft(listed: map<nat, Item>, rows: map<nat, Item>, ids: seq<nat>, i: nat) {
    && i <= |ids| && Ascends(ids) && Pending(listed, rows, ids, i) && SameRuns(listed, rows)
    && forall k :: 0 <= k < |ids| ==> ids[k] in listed && listed[ids[k]].status.WaitingResult?
  }

  lemma FinalizesBegin(listed: map<nat, Item>, n: nat, p: Item -> bool, limit: int)
    requires forall r :: p(r) ==> r.status.WaitingResult?
    ensures FinalizesLeft(listed, listed, Limited(Listed(listed, n, p), limit), 0)
  {
    LimitedIsSelection(listed, n, p, limit);
  }

  lemma FinalizeComes(listed: map<nat, Item>, rows: map<nat, Item>, ids: seq<nat>, i: nat)
    requires FinalizesLeft(listed, rows, ids, i) && i < |ids|
    ensures ids[i] in listed && ids[i] in rows && rows[ids[i]] == listed[ids[i]] && rows[ids[i]].status.WaitingResult?
  {}

  lemma FinalizeGoes(listed: map<nat, Item>, before: map<nat, Item>, after: map<nat, Item>, ids: seq<nat>, i: nat)
    requires FinalizesLeft(listed, before, ids, i) && i < |ids| && OnlyRow(before, after, ids[i])
    requires ids[i] in before && ids[i] in after && after[ids[i]].run == before[ids[i]].run
    ensures FinalizesLeft(listed, after, ids, i + 1) && SameRuns(listed, after)
  {
    PendingNext(listed, before, after, ids, i);
    SameRunsNext(listed, before, after, ids[i]);
  }

  /** The cleanup pass has come to row `i` of its listing. */
  ghost predicate CleanupsLeft(listed: map<nat, Item>, rows: map<nat, Item>, ids: seq<nat>, i: nat) {
    && (forall k, l :: 0 <= k < l < |ids| ==> ids[k] != ids[l])
    && forall k :: i <= k < |ids| ==>
         ids[k] in listed && !listed[ids[k]].cleanup.Skipped? && ids[k] in rows && rows[ids[k]] == listed[ids[k]]
  }

  lemma CleanupsBegin(listed: map<nat, Item>, staleBefore: int, limit: int, ids: seq<nat>)
    requires Oldest(DueTimes(listed, staleBefore), SafeLimit(limit), ids)
    ensures CleanupsLeft(listed, listed, ids, 0)
  {
    assert forall k :: 0 <= k < |ids| ==> ids[k] in ids;
  }

  lemma CleanupGoes(listed: map<nat, Item>, before: map<nat, Item>, after: map<nat, Item>, ids: seq<nat>, i: nat)
    requires CleanupsLeft(listed, before, ids, i) && i < |ids| && OnlyRow(before, after, ids[i])
    ensures CleanupsLeft(listed, after, ids, i + 1)
  {}

  lemma StaysFresh(s: State, s': State, o: nat -> StartOutcome)
    requires BringFreshRuns(s, o) && SameRuns(s.rows, s'.rows)
    ensures BringFreshRuns(s', o)
  {
    forall i
      ensures BringsFreshRun(s', o(i))
    {
      assert BringsFreshRun(s, o(i));
    }
  }

  /** Only the row of `id` is different. */
  ghost predicate OnlyRow(before: map<nat, Item>, after: map<nat, Item>, id: nat) {
    id in after && after == before[id := after[id]]
  }

  class AutomationBoundSessionQueueService {
    const repository: QueueRepository
    var runs: map<string, Runtime>
    var clock: int
    ghost var state: State

    /** The fields are those of the state, whatever the worker is in the middle of. */
    ghost predicate Tied()
      reads this, repository
    {
      && repository.rows == state.rows && repository.lastId == state.lastId
      && runs == state.runs && clock == state.clock
    }

    ghost predicate Valid()
      reads this, repository
    {
      Tied() && state.worker.Idle? && Inv(state)
    }

    constructor ()
      ensures Valid() && fresh(repository) && state == EMPTY
    {
      repository := new QueueRepository();
      runs, clock, state := map[], 0, EMPTY;
      new;
      InvInitially();
    }

    // Reading the runs

    method NormalizeRecoveryRuntime(run: string) returns (runtime: Runtime)
      requires Valid() && run in runs
      modifies `runs, `state
      ensures Valid() && run in runs && runtime == runs[run] && !NeedsRepair(runtime)
      ensures Went(old(state), RepairEvents(old(state), run), state)
      ensures AutoResumes(runtime) == old(AutoResumes(runs[run])) && IsActive(runtime) == old(IsActive(runs[run]))
      ensures runs ==
        if old(NeedsRepair(runs[run])) then old(runs)[run := Repaired(old(runs)[run], clock)] else old(runs)
    {
      runtime := runs[run];
      RepairReaches(state, run);
      state := Run(state, RepairEvents(state, run));
      if runtime.awaitingRecovery && runtime.status.RunFailed? {
        runtime := runtime.(status := Paused, updatedAt := clock);
        runs := runs[run := runtime];
      }
    }

    /** The most recently updated run of the session that is active or can be resumed. */
    method ActiveRecoverableRunId(session: string) returns (active: Option<string>)
      requires Valid()
      modifies `runs, `state
      ensures Valid()
      ensures MostRecentActive(old(runs), session, active)
      ensures Went(old(state), if active.Some? then RepairEvents(old(state), active.value) else [], state)
    {
      var times := map r | r in runs && runs[r].session == session :: -runs[r].updatedAt;
      var listed := SortByTime(times);
      assert forall k :: 0 <= k < |listed| ==> listed[k] in listed;
      for i := 0 to |listed|
        invariant Valid() && runs == old(runs) && state == old(state)
        invariant forall k :: 0 <= k < |listed| ==> listed[k] in runs && runs[listed[k]].session == session
        invariant forall k :: 0 <= k < i ==> !IsActive(runs[listed[k]])
      {
        var runtime := NormalizeRecoveryRuntime(listed[i]);
        if runtime.status.RunQueued? || runtime.status.Running? || runtime.status.Paused? || runtime.status.Stopped?
           || AutoResumes(runtime) {
          active := Some(listed[i]);
          forall r | r in times && IsActive(old(runs)[r])
            ensures times[listed[i]] <= times[r]
          {
            assert r in listed;
          }
          return;
        }
      }
      active := None;
      forall r | r in runs && runs[r].session == session
        ensures !IsActive(runs[r])
      {
        assert r in times && r in listed;
      }
    }

    // Enqueueing

    /** Unfinished items of the session, and the active run if no item stands for it. */
    method CountAhead(session: string, active: Option<string>) returns (ahead: nat)
      requires repository.rows == state.rows
      ensures ahead == AheadCount(state, session, active)
    {
      var queued := repository.CountNonTerminalBySession(session);
      var represented := false;
      if active.Some? {
        represented := repository.HasNonTerminalItemForRun(active.value);
      }
      assert Waiting(state, session) == set i | i in repository.rows && WaitsIn(session)(repository.rows[i]);
      ahead := queued + (if active.Some? && !represented then 1 else 0);
    }

    /** Queues behind whatever the session is busy with, and otherwise starts at once; a project
        without a usable binding is turned away before anything is read. */
    method MaterializeExecution(target: Target, project: string, start: Option<string>)
      returns (outcome: Materialized, ghost active: Option<string>)
      requires Valid() && (start.Some? ==> FreshRun(state, start.value))
      modifies this, repository
      ensures Valid()
      ensures !target.Bound? ==>
        outcome == (if target.NoBinding? then NotBound else Rejected(target)) && state == old(state)
      ensures target.Bound? ==> MostRecentActive(old(runs), target.session, active)
      ensures target.Bound? ==>
        Went(old(state), MaterializeEvents(old(state), target.session, project, active, start), state)
      ensures target.Bound? ==> MaterializedAs(old(state), target.session, active, start, repository.lastId, outcome)
    {
      active := None;
      match target
      case NoBinding => return NotBound, None;
      case NoSessionId => return Rejected(target), None;
      case NoRuntimeConfig => return Rejected(target), None;
      case UnknownSession => return Rejected(target), None;
      case Bound(session) =>
        var found := ActiveRecoverableRunId(session);
        active := found;
        ghost var t, u := MaterializeReaches(old(state), session, project, found, start);
        var ahead := CountAhead(session, found);
        outcome := QueueOrStart(session, project, ahead, start);
        state := u;
    }

    method QueueOrStart(session: string, project: string, ahead: nat, start: Option<string>)
      returns (outcome: Materialized)
      modifies `runs, repository
      ensures outcome ==
        if ahead > 0 then QueuedAt(repository.lastId, ahead)
        else if start.Some? then StartedAt(repository.lastId)
        else NotStarted
      ensures repository.lastId == old(repository.lastId) + (if outcome.NotStarted? then 0 else 1)
      ensures repository.rows == match outcome
        case QueuedAt(id, _) => old(repository.rows)[id := NewItem(session, project, clock)]
        case StartedAt(id) =>
          old(repository.rows)[id := NewItem(session, project, clock).(run := start, status := WaitingResult)]
        case NotStarted => old(repository.rows)
      ensures runs ==
        if outcome.StartedAt? then old(runs)[start.value := Runtime(session, RunQueued, false, clock)] else old(runs)
    {
      if ahead > 0 {
        var id := repository.Create(NewItem(session, project, clock));
        outcome := QueuedAt(id, ahead);
      } else if start.Some? {
        runs := runs[start.value := Runtime(session, RunQueued, false, clock)];
        var id := repository.Create(NewItem(session, project, clock).(run := start, status := WaitingResult));
        outcome := StartedAt(id);
      } else {
        outcome := NotStarted;
      }
    }

    /** The second half of enqueueing: once the message is out, the creator writes its whole
        copy of the row back, now with the message id, whatever has become of the row. */
    method StoreQueueReceipt(id: nat, record: Item, receipt: string) returns (ok: bool)
      requires Tied() && Inv(state) && id in state.drafts && record == state.drafts[id]
      modifies repository`rows, `state
      ensures Tied() && state == Step(old(state), StoreReceipt(id, receipt)) && state.worker == old(state.worker)
      ensures ok == (id in old(repository.rows))
      ensures Inv(state) <==> (ok ==> Untouched(old(repository.rows)[id]))
    {
      var e := StoreReceipt(id, receipt);
      if id in state.rows {
        Theorems.WriteBackSafeIff(state, id, receipt);
      } else {
        OneStep(state, e);
      }
      state := Step(state, e);
      ok := repository.Update(id, record.(receipt := Some(receipt), updatedAt := clock));
    }

    /** At any time, also in the middle of an attempt of the worker. */
    method DeleteProjectQueue(project: string)
      requires Tied() && Inv(state)
      modifies repository`rows, `state
      ensures Tied() && Inv(state) && Went(old(state), [DeleteProject(project)], state)
      ensures state.worker == old(state.worker)
      ensures forall i :: i in repository.rows <==>
        i in old(repository.rows) && old(repository.rows)[i].project != project
    {
      OneStep(state, DeleteProject(project));
      state := Step(state, DeleteProject(project));
      repository.DeleteByProject(project);
    }

    // Starting

    method ScheduleQueueCleanup(id: nat, record: Item, updatedAt: int)
      requires id in repository.rows && repository.rows[id] == record
      modifies repository`rows
      ensures repository.rows == old(repository.rows)[id := WithoutReceipt(record, updatedAt)]
    {
      if record.receipt == None || record.receipt == Some("") || record.cleanup.Skipped? {
        return;
      }
      var _ := repository.Update(id, record.(cleanup := Skipped, updatedAt := updatedAt));
    }

    /** Back off, or give up, say so and drop the receipt; an undeliverable message is an exception. */
    method HandleStartFailure(id: nat, record: Item, sent: bool) returns (aborted: bool)
      requires id in repository.rows
      modifies repository`rows
      ensures repository.rows == old(repository.rows)[id :=
        if GivesUp(record) && sent
        then WithoutReceipt(StartFailedRow(record, clock), clock)
        else StartFailedRow(record, clock)]
      ensures aborted == (GivesUp(record) && !sent)
    {
      var attempts := record.startAttempts + 1;
      if attempts >= START_MAX_ATTEMPTS {
        var failed := record.(status := Failed, startAttempts := attempts, updatedAt := clock);
        var _ := repository.Update(id, failed);
        if !sent {
          return true;
        }
        ScheduleQueueCleanup(id, failed, clock);
        return false;
      }
      var _ := repository.Update(id,
        record.(status := Queued, startAttempts := attempts, nextAttemptAt := clock + Backoff(attempts),
                updatedAt := clock));
      return false;
    }

    /** One listed row: claim it if nothing is ahead and the session is idle, and start its run. */
    method StartQueuedRun(id: nat, now: int, o: StartOutcome)
      returns (progress: bool, aborted: bool, ghost es: seq<Event>)
      requires Valid() && id in repository.rows && ReadyToStart(repository.rows[id], now) && now <= clock
      requires BringsFreshRun(state, o)
      modifies this, repository`rows
      ensures Valid() && clock >= old(clock)
      ensures StartChunk(old(state), id, now, o, es, aborted) && Went(old(state), es, state)
      ensures progress == Progress(old(state), es)
      ensures OnlyRow(old(repository.rows), repository.rows, id)
      ensures repository.rows[id].run == old(repository.rows)[id].run
        || (o.Ran? && repository.rows[id].run == Some(o.run))
    {
      es := [];
      var ahead := repository.CountNonTerminalAhead(id);
      if ahead > 0 {
        WaitingTurn(state, id, now, o);
        return false, false, [];
      }
      AheadCounted(state, id);
      var active := ActiveRecoverableRunId(repository.rows[id].session);
      if active.Some? {
        BusyTurn(old(state), id, now, o, active.value);
        return false, false, RepairEvents(old(state), active.value);
      }
      es := StartEvents(state, id, now, o);
      ghost var u := StartTo(state, id, now, o);
      progress := true;
      aborted := StartClaimed(id, now, o);
      state := u;
    }

    /** Claims the row and makes the call; the row, the runs and the clock end up as recorded. */
    method StartClaimed(id: nat, now: int, o: StartOutcome) returns (aborted: bool)
      requires id in repository.rows && repository.rows[id].status.Queued?
      modifies repository`rows, `runs, `clock
      ensures repository.rows == old(repository.rows)[id := StartResult(old(repository.rows)[id], old(clock), o)]
      ensures var session := old(repository.rows)[id].session;
        runs == if MakesRun(o) then old(runs)[o.run := Runtime(session, RunQueued, false, old(clock))] else old(runs)
      ensures clock == old(clock) + Elapsed(o)
      ensures aborted == (o.Broke? || o.BrokeAfter? || (o.Refused? && !o.sent && GivesUp(old(repository.rows)[id])))
    {
      var claim := repository.ClaimStarting(id, now - STALE, clock);
      var claimed := claim.value;
      match o
      case Broke =>
        aborted := true;
      case BrokeAfter(run) =>
        runs := runs[run := Runtime(claimed.session, RunQueued, false, clock)];
        aborted := true;
      case Ran(run, elapsed) =>
        runs := runs[run := Runtime(claimed.session, RunQueued, false, clock)];
        clock := clock + elapsed;
        var started := claimed.(run := Some(run), status := WaitingResult, startAttempts := claimed.startAttempts + 1,
                                nextAttemptAt := clock, resumeNextAt := clock, updatedAt := clock);
        var _ := repository.Update(id, started);
        ScheduleQueueCleanup(id, started, clock);
        aborted := false;
      case Refused(elapsed, sent) =>
        clock := clock + elapsed;
        aborted := HandleStartFailure(id, claimed, sent);
    }

    // Finalising

    /** A run that waits for recovery: arm the schedule, wait, give up, or call `resume_run`. */
    method HandleRecoverableRuntime(id: nat, record: Item, a: Answer) returns (changed: bool, aborted: bool)
      requires id in repository.rows && repository.rows[id] == record
      modifies repository`rows, `clock
      ensures repository.rows == old(repository.rows)[id := RecoverResult(record, old(clock), a)]
      ensures clock == old(clock) + RecoverTime(record, old(clock), a)
      ensures aborted == RecoverRaises(record, old(clock), a)
      ensures !aborted ==> (changed <==> !(Armed(record) && record.resumeNextAt > old(clock)))
    {
      var now := clock;
      if record.resumeAttempts == 0 && record.resumeNextAt <= record.updatedAt {
        var _ := repository.Update(id, record.(resumeNextAt := now + ResumeBackoff(1), updatedAt := now));
        return true, false;
      }
      if record.resumeNextAt > now {
        return false, false;
      }
      if record.resumeAttempts >= RESUME_MAX_ATTEMPTS {
        aborted := FailRecord(id, record.(status := Failed, updatedAt := now), a.sent);
        return true, aborted;
      }
      var attempts := record.resumeAttempts + 1;
      if a.resume.ResumeBroke? {
        return false, true;
      }
      clock := clock + a.elapsed;
      if a.resume.ResumeRefused? && attempts >= RESUME_MAX_ATTEMPTS {
        aborted := FailRecord(id, record.(status := Failed, resumeAttempts := attempts, updatedAt := now), a.sent);
        return true, aborted;
      }
      var _ := repository.Update(id,
        record.(resumeAttempts := attempts, resumeNextAt := now + ResumeBackoff(attempts + 1), updatedAt := now));
      return true, false;
    }

    /** Writes the failed row, sends the message, then drops the receipt. */
    method FailRecord(id: nat, failed: Item, sent: bool) returns (aborted: bool)
      requires id in repository.rows
      modifies repository`rows
      ensures repository.rows == old(repository.rows)[id := if sent then WithoutReceipt(failed, clock) else failed]
      ensures aborted == !sent
    {
      var _ := repository.Update(id, failed);
      if !sent {
        return true;
      }
      ScheduleQueueCleanup(id, failed, clock);
      return false;
    }

    /** One listed row that waits for its run. */
    method FinalizeRecord(id: nat, record: Item, now: int, a: Answer)
      returns (progress: bool, aborted: bool, ghost es: seq<Event>)
      requires Valid() && id in repository.rows && repository.rows[id] == record && record.status.WaitingResult?
      requires now <= clock
      modifies this, repository`rows
      ensures Valid() && clock >= old(clock)
      ensures es == FinalizeEvents(old(state), id, now, a) && Went(old(state), es, state)
      ensures aborted == FinalizeAborts(old(state), id, a)
      ensures !aborted ==> progress == Progress(old(state), es)
      ensures OnlyRow(old(repository.rows), repository.rows, id) && repository.rows[id].run == record.run
    {
      es := FinalizeEvents(state, id, now, a);
      ghost var u := FinalizeTo(state, id, now, a);
      if record.run.None? {
        var _ := repository.Update(id, record.(status := Failed, updatedAt := now));
        state := u;
        return true, false, es;
      }
      if record.run.value !in runs {
        return false, false, es;
      }
      var runtime := NormalizeRecoveryRuntime(record.run.value);
      if runtime.status.RunCompleted? {
        var _ := repository.Update(id, record.(status := Completed, updatedAt := now));
        state := u;
        return true, false, es;
      }
      if AutoResumes(runtime) {
        progress, aborted := HandleRecoverableRuntime(id, record, a);
        state := u;
        return progress, aborted, es;
      }
      if runtime.status.RunFailed? {
        aborted := FailRecord(id, record.(status := Failed, updatedAt := now), a.sent);
        state := u;
        return true, aborted, es;
      }
      return false, false, es;
    }

    // Passes

    /** Finalises the rows that were waiting when the pass began, in order of id. */
    method FinalizeWaitingResults(limit: int, a: nat -> Answer)
      returns (progress: bool, raised: bool, ghost pass: QueuePass)
      requires Valid()
      modifies this, repository`rows
      ensures Valid() && IsFinalizePass(pass, old(state), state, limit, a) && raised == pass.aborted
      ensures !raised ==> progress == AnyProgress(pass)
      ensures SameRuns(old(repository.rows), repository.rows)
    {
      progress, raised := false, false;
      var now := clock;
      var ids := repository.ListWhere((r: Item) => r.status.WaitingResult?, limit);
      var listed := repository.rows;
      ghost var turn := FinalizeTurn(now, a);
      FinalizesBegin(listed, repository.lastId, (r: Item) => r.status.WaitingResult?, limit);
      pass := Begun(ids, state);
      for i := 0 to |ids|
        invariant Valid() && now <= clock && pass.ids == ids && |pass.chunks| == i
        invariant PassSoFar(pass, old(state), state, turn)
        invariant FinalizesLeft(listed, repository.rows, ids, i)
        invariant progress == AnyProgress(pass)
      {
        ghost var before, rows := state, repository.rows;
        FinalizeComes(listed, rows, ids, i);
        var changed, aborted, es := FinalizeRecord(ids[i], listed[ids[i]], now, a(ids[i]));
        pass := TakeTurn(pass, old(state), before, state, turn, Progress, es, aborted);
        if aborted {
          raised := true;
          return;
        }
        progress := changed || progress;
        FinalizeGoes(listed, rows, repository.rows, ids, i);
      }
    }

    /** Starts what was ready when the pass began, in order of id. */
    method StartQueuedRuns(limit: int, o: nat -> StartOutcome)
      returns (progress: bool, raised: bool, ghost pass: QueuePass)
      requires Valid() && BringFreshRuns(state, o)
      modifies this, repository`rows
      ensures Valid() && IsStartPass(pass, old(state), state, limit, o) && raised == pass.aborted
      ensures !raised ==> progress == AnyProgress(pass)
    {
      progress, raised := false, false;
      var now := clock;
      var ids := repository.ListWhere((r: Item) => ReadyToStart(r, now), limit);
      LimitedIsSelection(repository.rows, repository.lastId, (r: Item) => ReadyToStart(r, now), limit);
      StartsBegin(state, o, ids);
      ghost var turn := StartTurn(now, o);
      pass := Begun(ids, state);
      for i := 0 to |ids|
        invariant Valid() && now <= clock && pass.ids == ids && |pass.chunks| == i
        invariant PassSoFar(pass, old(state), state, turn)
        invariant StartsLeft(old(state), repository.rows, o, ids, i)
        invariant progress == AnyProgress(pass)
      {
        TurnComes(old(state), state, o, ids, i);
        ghost var before, rows := state, repository.rows;
        var changed, aborted, es := StartQueuedRun(ids[i], now, o(ids[i]));
        pass := TakeTurn(pass, old(state), before, state, turn, Progress, es, aborted);
        if aborted {
          raised := true;
          return;
        }
        progress := changed || progress;
        TurnGoes(old(state), rows, repository.rows, o, ids, i);
      }
    }

    /** Drops every receipt that is due, oldest first. */
    method CleanupQueueReceipts(limit: int) returns (progress: bool, ghost pass: QueuePass)
      requires Valid()
      modifies repository`rows, `state
      ensures Valid() && IsCleanupPass(pass, old(state), state, limit) && !pass.aborted
      ensures progress == AnyProgress(pass)
    {
      progress := false;
      var ids := repository.ListPendingQueueCleanup(limit, clock - STALE);
      var listed := repository.rows;
      CleanupsBegin(listed, clock - STALE, limit, ids);
      ghost var turn := CleanupTurn();
      pass := Begun(ids, state);
      for i := 0 to |ids|
        invariant Valid() && pass.ids == ids && |pass.chunks| == i && PassSoFar(pass, old(state), state, turn)
        invariant repository.lastId == old(repository.lastId)
        invariant CleanupsLeft(listed, repository.rows, ids, i)
        invariant progress == AnyProgress(pass)
      {
        ghost var before, rows := state, repository.rows;
        ghost var es := DropReceipt(ids[i], listed[ids[i]]);
        pass := TakeTurn(pass, old(state), before, state, turn, Progress, es, false);
        CleanupGoes(listed, rows, repository.rows, ids, i);
        progress := true;
      }
    }

    method DropReceipt(id: nat, record: Item) returns (ghost es: seq<Event>)
      requires Valid() && id in repository.rows && repository.rows[id] == record && !record.cleanup.Skipped?
      modifies repository`rows, `state
      ensures Valid() && es == [SkipReceipt(id, clock)] && Went(old(state), es, state) && Progress(old(state), es)
      ensures OnlyRow(old(repository.rows), repository.rows, id)
    {
      es := [SkipReceipt(id, clock)];
      assert ItemOk(state, id);
      OneStep(state, es[0]);
      state := Step(state, es[0]);
      var _ := repository.Update(id, record.(cleanup := Skipped, updatedAt := clock));
    }

    /** Finalise, start, clean up; true exactly when some step of it was progress. */
    method ProcessPending(limit: int, a: nat -> Answer, o: nat -> StartOutcome)
      returns (progress: bool, raised: bool,
               ghost finalized: QueuePass, ghost started: QueuePass, ghost cleaned: QueuePass)
      requires Valid() && BringFreshRuns(state, o)
      modifies this, repository`rows
      ensures Valid() && raised == (finalized.aborted || started.aborted)
      ensures IsFinalizePass(finalized, old(state), Last(finalized), limit, a)
      ensures finalized.aborted ==> state == Last(finalized)
      ensures !finalized.aborted ==> IsStartPass(started, Last(finalized), Last(started), limit, o)
      ensures !finalized.aborted && started.aborted ==> state == Last(started)
      ensures !finalized.aborted && !started.aborted ==>
        && IsCleanupPass(cleaned, Last(started), state, limit)
        && progress == (AnyProgress(finalized) || AnyProgress(started)
                        || AnyProgress(cleaned))
    {
      started, cleaned := NOTHING, NOTHING;
      var changed;
      progress, raised, finalized := FinalizeWaitingResults(limit, a);
      if raised {
        return;
      }
      StaysFresh(old(state), state, o);
      changed, raised, started := StartQueuedRuns(limit, o);
      progress := changed || progress;
      if raised {
        return;
      }
      changed, cleaned := CleanupQueueReceipts(limit);
      progress := changed || progress;
    }
  }
}
