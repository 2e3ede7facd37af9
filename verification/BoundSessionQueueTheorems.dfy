/**
  What holds over every run of the bound-session queue, from any state that satisfies the
  invariant (the empty table does), with any interleaving of other tasks and any crashes.
  */
module BoundSessionQueueTheorems {
  import opened Options
  import opened BoundSessionQueue
  import Sums

  lemma {:induction false} RunKeepsInv(s: State, es: seq<Event>)
    requires Inv(s) && LegalRun(s, es)
    ensures Inv(Run(s, es))
    decreases |es|
  {
    if es != [] {
      StepKeepsInv(s, es[0]);
      RunKeepsInv(Step(s, es[0]), es[1..]);
    }
  }

  predicate InFlight(r: Item) {
    r.status.Starting? || r.status.WaitingResult?
  }

  // ---------- Head of line ----------

  /** An item in flight has nothing unfinished before it in its session, so at most one item
      of a session is in flight, even while an earlier one is backing off. */
  lemma HeadOfLine(s: State, es: seq<Event>, i: nat, j: nat)
    requires Inv(s) && LegalRun(s, es)
    requires i in Run(s, es).rows && InFlight(Run(s, es).rows[i])
    ensures AheadOf(Run(s, es), i) == {}
    ensures (j in Run(s, es).rows && InFlight(Run(s, es).rows[j])
             && Run(s, es).rows[i].session == Run(s, es).rows[j].session) ==> i == j
  {
    RunKeepsInv(s, es);
    var e := Run(s, es);
    forall k | k in e.rows && k < i
      ensures k !in AheadOf(e, i)
    {
      assert PairOk(e, k, i);
    }
    assert AheadOf(e, i) == {};
    assert PairOk(e, i, j) && PairOk(e, j, i);
  }

  /** Items of a session are started in the order in which they were queued, each at most once. */
  lemma StartsInOrder(s: State, es: seq<Event>, k: nat, l: nat)
    requires Inv(s) && LegalRun(s, es)
    requires k < l < |Run(s, es).startLog| && Run(s, es).startLog[k].0 == Run(s, es).startLog[l].0
    ensures Run(s, es).startLog[k].1 < Run(s, es).startLog[l].1
  {
    RunKeepsInv(s, es);
  }

  // ---------- Attempts ----------

  /** Claims are the recorded start attempts, and one more while starting; a queued item has
      attempts left; a run is started at most once for an item. */
  lemma AttemptsAgree(s: State, es: seq<Event>, i: nat)
    requires Inv(s) && LegalRun(s, es) && i in Run(s, es).rows
    ensures var r, t := Run(s, es).rows[i], History(Run(s, es), i);
      && t.claims == r.startAttempts + (if r.status.Starting? then 1 else 0)
      && t.claims <= START_MAX_ATTEMPTS
      && (r.status.Queued? ==> r.startAttempts < START_MAX_ATTEMPTS && t.starts == 0)
      && t.starts <= 1
  {
    RunKeepsInv(s, es);
    assert ItemOk(Run(s, es), i);
  }

  /** A finished item stays as it finished until its project is deleted. */
  lemma {:induction false} FinishedStays(s: State, es: seq<Event>, i: nat)
    requires Inv(s) && LegalRun(s, es) && i in s.rows && !NonTerminal(s.rows[i])
    ensures i in Run(s, es).rows ==> Run(s, es).rows[i].status == s.rows[i].status
    decreases |es|
  {
    if es != [] {
      var s' := Step(s, es[0]);
      assert ItemOk(s, i);
      StepKeepsInv(s, es[0]);
      if i in s'.rows {
        FinishedStep(s, es[0], i);
        FinishedStays(s', es[1..], i);
      } else {
        GoneStays(s', es[1..], i);
      }
    }
  }

  lemma FinishedStep(s: State, e: Event, i: nat)
    requires Legal(s, e) && ItemOk(s, i) && i in s.rows && !NonTerminal(s.rows[i]) && i in Step(s, e).rows
    ensures Step(s, e).rows[i].status == s.rows[i].status
  {
    if i != Subject(s, e) {
      OthersKeep(s, e, i);
      assert ViewOf(Step(s, e), i).row == Some(Step(s, e).rows[i]) && ViewOf(s, i).row == Some(s.rows[i]);
    } else if Starts(e) || Resumption(e) {
      HeldIsUnfinished(s, e, i);
    }
  }

  /** What the worker starts or resumes, or loses in a crash, is not finished. */
  lemma HeldIsUnfinished(s: State, e: Event, i: nat)
    requires (Starts(e) || Resumption(e)) && Legal(s, e) && ItemOk(s, i) && i == Subject(s, e) && i in s.rows
    ensures NonTerminal(s.rows[i])
  {
    assert Held(s.rows[i], History(s, i), HoldOf(s, i), s.clock);
  }

  lemma GoneStep(s: State, e: Event, i: nat)
    requires Inv(s) && Legal(s, e) && i <= s.lastId && i !in s.rows
    ensures i !in Step(s, e).rows && i <= Step(s, e).lastId
  {
    OthersKeep(s, e, Subject(s, e) + 1);
  }

  /** Ids are never reused: a deleted row does not come back. */
  lemma {:induction false} GoneStays(s: State, es: seq<Event>, i: nat)
    requires Inv(s) && LegalRun(s, es) && i <= s.lastId && i !in s.rows
    ensures i !in Run(s, es).rows
    decreases |es|
  {
    if es != [] {
      StepKeepsInv(s, es[0]);
      GoneStep(s, es[0], i);
      GoneStays(Step(s, es[0]), es[1..], i);
    }
  }

  // ---------- Resuming ----------

  /** At most five resume calls, not counting calls whose outcome was never recorded; the n-th
      one no sooner than 10 * (2^n - 1) seconds after the item was last armed. */
  lemma ResumeSchedule(s: State, es: seq<Event>, i: nat, n: nat)
    requires Inv(s) && LegalRun(s, es) && i in Run(s, es).tally
    requires 1 <= n <= |Run(s, es).tally[i].calls|
    ensures var t := Run(s, es).tally[i];
      && |t.calls| <= RESUME_MAX_ATTEMPTS + t.lost
      && t.calls[n - 1].at >= t.calls[n - 1].armedAt + Due(t.calls[n - 1].recorded)
      && (t.lost == 0 ==> t.armedAt.Some? && t.calls[n - 1].at >= t.armedAt.value + 10 * SECOND * (Pow2(n) - 1))
  {
    RunKeepsInv(s, es);
    CallOnTime(Run(s, es), i, n);
  }

  lemma CallOnTime(s: State, i: nat, n: nat)
    requires ItemOk(s, i) && i in s.tally && 1 <= n <= |s.tally[i].calls|
    ensures var t := s.tally[i];
      && |t.calls| <= RESUME_MAX_ATTEMPTS + t.lost
      && t.calls[n - 1].at >= t.calls[n - 1].armedAt + Due(t.calls[n - 1].recorded)
      && (t.lost == 0 ==> t.armedAt.Some? && t.calls[n - 1].at >= t.armedAt.value + 10 * SECOND * (Pow2(n) - 1))
  {
    var t := s.tally[i];
    assert History(s, i) == t && Calls(t);
    assert Punctual(t.calls[n - 1]);
    assert Due(n - 1) == 10 * SECOND * (Pow2(n) - 1);
  }

  /** The calls of an item are its recorded resume attempts, the lost ones and the one under way. */
  lemma CallsAgree(s: State, es: seq<Event>, i: nat)
    requires Inv(s) && LegalRun(s, es) && i in Run(s, es).rows
    ensures var u, t := Run(s, es), History(Run(s, es), i);
      |t.calls| == u.rows[i].resumeAttempts + t.lost + (if HoldOf(u, i).HoldsCall? then 1 else 0)
  {
    RunKeepsInv(s, es);
    assert ItemOk(Run(s, es), i);
  }

  function LostCalls(id: nat, now: int, n: nat): seq<Event> {
    if n == 0 then [] else [CallResume(id, now), Crash] + LostCalls(id, now, n - 1)
  }

  /** Lost calls have no bound: a call that does not come back leaves the row as it was, and the
      next pass calls again at once. */
  lemma {:induction false} LostCallsRepeat(s: State, id: nat, n: nat)
    requires Legal(s, CallResume(id, s.clock))
    ensures var u := Run(s, LostCalls(id, s.clock, n));
      && LegalRun(s, LostCalls(id, s.clock, n)) && u.rows == s.rows && u.clock == s.clock
      && |History(u, id).calls| == |History(s, id).calls| + n
    decreases n
  {
    if n > 0 {
      var s1 := Step(s, CallResume(id, s.clock));
      var s2 := Step(s1, Crash);
      var es, rest := LostCalls(id, s.clock, n), LostCalls(id, s.clock, n - 1);
      assert es[1..][0] == Crash && es[1..][1..] == rest;
      LostCallsRepeat(s2, id, n - 1);
      assert Run(s, es) == Run(s1, es[1..]) == Run(s2, rest);
    }
  }

  lemma StaysReachable(s: State, e: Event)
    requires Reachable(s) && Legal(s, e)
    ensures Reachable(Step(s, e)) && Inv(s) && Inv(Step(s, e))
  {
    var es :| LegalRun(EMPTY, es) && Run(EMPTY, es) == s;
    RunAppends(EMPTY, es, [e]);
    assert [e][1..] == [] && LegalRun(s, [e]) && Run(s, [e]) == Step(s, e);
    InvInitially();
    RunKeepsInv(EMPTY, es);
    StepKeepsInv(s, e);
  }

  lemma EmptyIsReachable()
    ensures Reachable(EMPTY)
  {
    assert LegalRun(EMPTY, []) && Run(EMPTY, []) == EMPTY;
  }

  /** An item whose run waits for recovery. */
  lemma PausedItem() returns (s: State)
    ensures Reachable(s) && s.clock == 0 && s.worker.Idle? && s.runs == map["b" := Runtime("s", Paused, true, 0)]
    ensures s.rows == map[1 := NewItem("s", "p", 0).(run := Some("b"), status := WaitingResult)]
    ensures History(s, 1).calls == []
  {
    var start, pause := DirectStart("s", "p", None, "b"), SetRuntime("b", Runtime("s", Paused, true, 0));
    EmptyIsReachable();
    assert Waiting(EMPTY, "s") == {};
    StaysReachable(EMPTY, start);
    StaysReachable(Step(EMPTY, start), pause);
    s := Step(Step(EMPTY, start), pause);
  }

  /** Six calls for one item within one instant. */
  lemma SixCalls() returns (s: State)
    ensures Reachable(s) && Legal(s, CallResume(1, s.clock)) && s.clock == 10 * SECOND
    ensures var u := Run(s, LostCalls(1, s.clock, 6));
      LegalRun(s, LostCalls(1, s.clock, 6)) && u.clock == s.clock && |History(u, 1).calls| == 6
  {
    var s0 := PausedItem();
    StaysReachable(s0, Arm(1, 0));
    var s1 := Step(s0, Arm(1, 0));
    StaysReachable(s1, Tick(10 * SECOND));
    s := Step(s1, Tick(10 * SECOND));
    LostCallsRepeat(s, 1, 6);
  }

  // ---------- Position ----------

  /** The position announced on enqueue counts the unfinished items ahead of the new row, and
      one more for an active run that no item stands for. */
  lemma AnnouncedPosition(s: State, session: string, project: string, active: Option<string>)
    requires Inv(s) && Legal(s, Enqueue(session, project, active))
    ensures var s', id := Step(s, Enqueue(session, project, active)), s.lastId + 1;
      && id in s'.rows && id in s'.tally
      && s'.tally[id].announced ==
           |AheadOf(s', id)| + (if active.Some? && !Represented(s, active.value) then 1 else 0)
      && s'.tally[id].announced > 0
  {
    var s', id := Step(s, Enqueue(session, project, active)), s.lastId + 1;
    forall i | i in s.rows
      ensures i < id
    {
      assert ItemOk(s, i);
    }
    assert AheadOf(s', id) == Waiting(s, session);
  }

  lemma AheadStep(s: State, e: Event, i: nat)
    requires Inv(s) && Legal(s, e) && i in s.rows && i in Step(s, e).rows
    ensures AheadOf(Step(s, e), i) <= AheadOf(s, i)
  {
    assert ItemOk(s, i);
    RowKeeps(s, e, i);
    forall k | k in AheadOf(Step(s, e), i)
      ensures k in AheadOf(s, i)
    {
      assert ItemOk(s, k);
      RowKeeps(s, e, k);
    }
  }

  /** What is ahead of an item only ever gets less. */
  lemma {:induction false} AheadNeverGrows(s: State, es: seq<Event>, i: nat)
    requires Inv(s) && LegalRun(s, es) && i in s.rows && i in Run(s, es).rows
    ensures AheadOf(Run(s, es), i) <= AheadOf(s, i)
    decreases |es|
  {
    if es != [] {
      var s' := Step(s, es[0]);
      StepKeepsInv(s, es[0]);
      assert ItemOk(s, i);
      if i !in s'.rows {
        OthersKeep(s, es[0], i);
        GoneStays(s', es[1..], i);
      } else {
        AheadStep(s, es[0], i);
        AheadNeverGrows(s', es[1..], i);
      }
    }
  }

  // ---------- Check, then claim ----------

  /** The worker lists and counts before it claims; nothing other tasks do in between can make
      the item unstartable again, short of deleting it. */
  lemma {:induction false} StartableStays(s: State, es: seq<Event>, i: nat, now: int)
    requires Inv(s) && LegalRun(s, es) && Startable(s, i, now) && now <= s.clock
    requires forall k :: 0 <= k < |es| ==> ByOthers(es[k])
    ensures i in Run(s, es).rows ==> Startable(Run(s, es), i, now)
    decreases |es|
  {
    if es != [] {
      var s', e := Step(s, es[0]), es[0];
      StepKeepsInv(s, e);
      assert ItemOk(s, i);
      if i !in s'.rows {
        GoneStays(s', es[1..], i);
      } else {
        AheadStep(s, e, i);
        StartableStays(s', es[1..], i, now);
      }
    }
  }

  // ---------- The worker cannot spin ----------

  /** How many more times the worker can make progress on a row. */
  function Weight(r: Item): nat {
    (if r.cleanup.Skipped? then 0 else 2) +
    match r.status
      case Queued => 7 + 2 * Left(START_MAX_ATTEMPTS, r.startAttempts)
      case Starting => 6 + 2 * Left(START_MAX_ATTEMPTS, r.startAttempts)
      case WaitingResult => 1 + Left(RESUME_MAX_ATTEMPTS, r.resumeAttempts) + (if Armed(r) then 0 else 1)
      case Completed => 0
      case Failed => 0
  }

  function Left(most: nat, used: nat): nat {
    if used < most then most - used else 0
  }

  const NEW_WEIGHT := 17

  function WeightAt(rows: map<nat, Item>, i: nat): nat {
    if i in rows then Weight(rows[i]) else 0
  }

  function Weights(rows: map<nat, Item>): nat -> nat {
    (i: nat) => WeightAt(rows, i)
  }

  function Total(rows: map<nat, Item>, n: nat): nat {
    Sums.Total(Weights(rows), n)
  }

  /** Steps for which a pass of the worker reports progress. */
  predicate IsProgress(s: State, e: Event) {
    || e.Claim? || e.Arm? || Finishes(e)
    || ((e.RecordStart? || e.RecordStartFailure? || e.RecordResume?) && !s.worker.Idle? && s.worker.id in s.rows)
  }

  function ProgressSteps(s: State, es: seq<Event>): nat
    decreases |es|
  {
    if es == [] then 0 else (if IsProgress(s, es[0]) then 1 else 0) + ProgressSteps(Step(s, es[0]), es[1..])
  }

  function Creations(es: seq<Event>): nat {
    if es == [] then 0 else (if es[0].Enqueue? || es[0].DirectStart? then 1 else 0) + Creations(es[1..])
  }

  lemma OthersWeigh(s: State, e: Event, i: nat)
    requires Legal(s, e) && i != Subject(s, e)
    ensures WeightAt(Step(s, e).rows, i) <= WeightAt(s.rows, i)
  {
    OthersKeep(s, e, i);
    assert ViewOf(s, i).row.Some? <==> i in s.rows;
    assert ViewOf(Step(s, e), i).row.Some? <==> i in Step(s, e).rows;
  }

  /** The item an event is about gets lighter when the event is progress, and never heavier. */
  ghost predicate Lightens(s: State, e: Event) {
    && WeightAt(Step(s, e).rows, Subject(s, e)) + (if IsProgress(s, e) then 1 else 0) <= WeightAt(s.rows, Subject(s, e))
    && (IsProgress(s, e) ==> Subject(s, e) > 0)
  }

  lemma StartLightens(s: State, e: Event)
    requires Starts(e) && Legal(s, e) && ItemOk(s, Subject(s, e))
    ensures Lightens(s, e)
  {}

  lemma ResumeLightens(s: State, e: Event)
    requires Resumption(e) && Legal(s, e) && ItemOk(s, Subject(s, e))
    ensures Lightens(s, e)
  {}

  lemma FinishLightens(s: State, e: Event)
    requires Finishes(e) && Legal(s, e) && ItemOk(s, Subject(s, e))
    ensures Lightens(s, e)
  {}

  lemma OthersLighten(s: State, e: Event)
    requires ByOthers(e) && !e.Enqueue? && !e.DirectStart? && Legal(s, e) && ItemOk(s, Subject(s, e))
    ensures Lightens(s, e)
  {}

  lemma SubjectWeighs(s: State, e: Event)
    requires Legal(s, e) && ItemOk(s, Subject(s, e)) && !e.Enqueue? && !e.DirectStart?
    ensures Lightens(s, e)
  {
    if Starts(e) {
      StartLightens(s, e);
    } else if Resumption(e) {
      ResumeLightens(s, e);
    } else if Finishes(e) {
      FinishLightens(s, e);
    } else {
      OthersLighten(s, e);
    }
  }

  lemma NewItemWeighs(s: State, e: Event)
    requires Legal(s, e) && (e.Enqueue? || e.DirectStart?)
    ensures Step(s, e).lastId == s.lastId + 1 && WeightAt(Step(s, e).rows, s.lastId + 1) <= NEW_WEIGHT
  {}

  lemma SameLastId(s: State, e: Event)
    requires Legal(s, e) && !e.Enqueue? && !e.DirectStart?
    ensures Step(s, e).lastId == s.lastId
  {}

  lemma OtherItemsWeigh(s: State, e: Event)
    requires Legal(s, e)
    ensures forall i: nat :: i != Subject(s, e) ==> Weights(Step(s, e).rows)(i) <= Weights(s.rows)(i)
  {
    forall i: nat | i != Subject(s, e)
      ensures Weights(Step(s, e).rows)(i) <= Weights(s.rows)(i)
    {
      OthersWeigh(s, e, i);
    }
  }

  lemma NewItemPays(s: State, e: Event)
    requires Legal(s, e) && (e.Enqueue? || e.DirectStart?)
    ensures Total(Step(s, e).rows, Step(s, e).lastId) <= Total(s.rows, s.lastId) + NEW_WEIGHT
  {
    NewItemWeighs(s, e);
    OtherItemsWeigh(s, e);
    Sums.TotalMoves(Weights(s.rows), Weights(Step(s, e).rows), s.lastId, s.lastId + 1, -NEW_WEIGHT);
  }

  /** One step pays for its progress out of the weight; only new items add to it. */
  lemma StepPays(s: State, e: Event)
    requires Legal(s, e) && Inv(s)
    ensures (if IsProgress(s, e) then 1 else 0) + Total(Step(s, e).rows, Step(s, e).lastId)
      <= Total(s.rows, s.lastId) + (if e.Enqueue? || e.DirectStart? then NEW_WEIGHT else 0)
  {
    if e.Enqueue? || e.DirectStart? {
      NewItemPays(s, e);
    } else {
      var id, paid := Subject(s, e), if IsProgress(s, e) then 1 else 0;
      assert ItemOk(s, id);
      SubjectWeighs(s, e);
      SameLastId(s, e);
      OutsideWeighsNothing(s, id);
      OtherItemsWeigh(s, e);
      Sums.TotalMoves(Weights(s.rows), Weights(Step(s, e).rows), s.lastId, id, paid);
    }
  }

  lemma OutsideWeighsNothing(s: State, i: nat)
    requires ItemOk(s, i)
    ensures i == 0 || i > s.lastId ==> WeightAt(s.rows, i) == 0
  {
    assert i in s.rows <==> ViewOf(s, i).row.Some?;
  }

  /** Over any run the worker makes at most seventeen progress steps per item ever created
      (and what the initial rows allow), whatever the clock and the runs do. */
  lemma {:induction false} ProgressIsBounded(s: State, es: seq<Event>)
    requires Inv(s) && LegalRun(s, es)
    ensures ProgressSteps(s, es) + Total(Run(s, es).rows, Run(s, es).lastId)
      <= Total(s.rows, s.lastId) + NEW_WEIGHT * Creations(es)
    decreases |es|
  {
    if es != [] {
      StepPays(s, es[0]);
      StepKeepsInv(s, es[0]);
      ProgressIsBounded(Step(s, es[0]), es[1..]);
    }
  }

  /** From the empty table the bound is seventeen per item. */
  lemma WorkerCannotSpin(es: seq<Event>)
    requires LegalRun(EMPTY, es)
    ensures ProgressSteps(EMPTY, es) <= NEW_WEIGHT * Creations(es)
  {
    InvInitially();
    ProgressIsBounded(EMPTY, es);
  }

  // ---------- The receipt write-back ----------

  /** The creator of a row sends a message and then writes its whole copy of the row back.  The
      invariant survives exactly when the row has not been claimed in between; the condition is
      one the UPDATE could carry: status queued and no start attempts. */
  lemma WriteBackSafeIff(s: State, id: nat, receipt: string)
    requires Inv(s) && id in s.drafts && id in s.rows
    ensures Inv(Step(s, StoreReceipt(id, receipt))) <==> Untouched(s.rows[id])
  {
    var e := StoreReceipt(id, receipt);
    assert ItemOk(s, id);
    if Untouched(s.rows[id]) {
      StepKeepsInv(s, e);
    }
    if Inv(Step(s, e)) {
      assert ItemOk(Step(s, e), id);
    }
  }

  /** An item that was enqueued behind a busy session and is now free to start. */
  lemma WaitingItem() returns (s: State)
    ensures Reachable(s) && Inv(s) && Startable(s, 1, 0) && s.worker.Idle? && s.clock == 0 && s.lastId == 1
    ensures s.rows == map[1 := NewItem("s", "p", 0)] && s.drafts == s.rows && History(s, 1).starts == 0
    ensures s.runs == map["a" := Runtime("s", RunCompleted, false, 0)]
  {
    var busy, done := Runtime("s", Running, false, 0), Runtime("s", RunCompleted, false, 0);
    var s1 := Step(EMPTY, SetRuntime("a", busy));
    var s2 := Step(s1, Enqueue("s", "p", Some("a")));
    s := Step(s2, SetRuntime("a", done));
    EmptyIsReachable();
    StaysReachable(EMPTY, SetRuntime("a", busy));
    StaysReachable(s1, Enqueue("s", "p", Some("a")));
    StaysReachable(s2, SetRuntime("a", done));
    assert AheadOf(s, 1) == {};
  }

  /** Claiming it and creating its run. */
  lemma StartIt(s: State, run: string) returns (s': State)
    requires s.worker.Idle? && s.clock == 0 && Startable(s, 1, 0) && s.rows.Keys == {1}
    requires s.rows[1].run != Some(run)
    ensures LegalRun(s, [Claim(1, 0), CreateRun(run)]) && s' == Run(s, [Claim(1, 0), CreateRun(run)])
    ensures s'.worker == Created(1, run) && s'.clock == 0 && s'.drafts == s.drafts && s'.lastId == s.lastId
    ensures s'.rows == map[1 := ClaimedRow(s.rows[1], 0)] && History(s', 1).starts == History(s, 1).starts + 1
    ensures s'.runs == s.runs[run := Runtime(s.rows[1].session, RunQueued, false, 0)]
  {
    var es := [Claim(1, 0), CreateRun(run)];
    var s1 := Step(s, es[0]);
    assert es[1..] == [CreateRun(run)] && es[1..][1..] == [];
    assert Legal(s1, es[1]);
    s' := Step(s1, es[1]);
    assert Run(s1, es[1..]) == s';
    assert LegalRun(s1, es[1..]);
  }

  /** The same item with its run created. */
  lemma CreatedItem() returns (s: State)
    ensures Reachable(s) && Inv(s) && s.worker == Created(1, "b") && s.clock == 0 && History(s, 1).starts == 1
    ensures s.lastId == 1
    ensures s.rows == map[1 := ClaimedRow(NewItem("s", "p", 0), 0)] && s.drafts == map[1 := NewItem("s", "p", 0)]
    ensures s.runs == map["a" := Runtime("s", RunCompleted, false, 0), "b" := Runtime("s", RunQueued, false, 0)]
  {
    var s0 := WaitingItem();
    s := StartIt(s0, "b");
    StaysReachable(s0, Claim(1, 0));
    StaysReachable(Step(s0, Claim(1, 0)), CreateRun("b"));
    TwoSteps(s0, Claim(1, 0), CreateRun("b"));
  }

  lemma TwoSteps(s: State, d: Event, e: Event)
    ensures Run(s, [d, e]) == Step(Step(s, d), e)
    ensures LegalRun(s, [d, e]) <==> Legal(s, d) && Legal(Step(s, d), e)
  {
    RunAppends(s, [d], [e]);
    assert [d] + [e] == [d, e] && [d][1..] == [] && [e][1..] == [];
    assert Run(s, [d]) == Step(s, d) && Run(Step(s, d), [e]) == Step(Step(s, d), e);
  }

  /** The same item once its run is recorded. */
  lemma RecordedItem() returns (s: State)
    ensures Reachable(s) && Inv(s) && s.worker.Idle? && s.clock == 0 && History(s, 1).starts == 1
    ensures s.lastId == 1
    ensures s.rows == map[1 := StartedRow(ClaimedRow(NewItem("s", "p", 0), 0), "b", 0)]
    ensures s.drafts == map[1 := NewItem("s", "p", 0)]
    ensures s.runs == map["a" := Runtime("s", RunCompleted, false, 0), "b" := Runtime("s", RunQueued, false, 0)]
  {
    var s1 := CreatedItem();
    s := Step(s1, RecordStart(0));
    StaysReachable(s1, RecordStart(0));
  }

  /** And once the run has completed, with the write-back still due. */
  lemma StartedItem() returns (s: State)
    ensures Reachable(s) && Inv(s) && s.worker.Idle? && s.clock == 0 && History(s, 1).starts == 1
    ensures s.lastId == 1
    ensures s.rows == map[1 := StartedRow(ClaimedRow(NewItem("s", "p", 0), 0), "b", 0)]
    ensures s.drafts == map[1 := NewItem("s", "p", 0)]
    ensures forall r :: r in s.runs ==> s.runs[r].status.RunCompleted? && !s.runs[r].awaitingRecovery
    ensures "b" in s.runs
  {
    var s2 := RecordedItem();
    var e := SetRuntime("b", Runtime("s", RunCompleted, false, 0));
    s := Step(s2, e);
    StaysReachable(s2, e);
  }

  /** An item is completed, and its creator's write-back puts it back into the queue. */
  lemma WriteBackReopens() returns (before: State)
    ensures Reachable(before) && 1 in before.drafts && before.rows.Keys == {1} && before.rows[1].status.Completed?
    ensures Step(before, StoreReceipt(1, "m")).rows[1].status.Queued?
    ensures Inv(before) && before.worker.Idle? && before.clock == 0 && before.lastId == 1
    ensures before.rows[1].session == "s" == before.drafts[1].session && before.drafts[1].status.Queued?
  {
    var s := StartedItem();
    before := Step(s, FinishCompleted(1, 0));
    StaysReachable(s, FinishCompleted(1, 0));
  }

  /** A second item is queued while the session is busy with a run that no item stands for. */
  lemma SecondItem(s: State) returns (u: State)
    requires Reachable(s) && s.rows.Keys == {1} && s.rows[1].session == "s" && s.rows[1].status.Completed?
    requires s.lastId == 1 && s.clock == 0 && s.worker.Idle?
    ensures Reachable(u) && u.rows == s.rows[2 := NewItem("s", "p", 0)] && u.worker.Idle? && u.clock == 0
    ensures u.drafts == s.drafts[2 := NewItem("s", "p", 0)] && Startable(u, 2, 0)
  {
    var busy := SetRuntime("c", Runtime("s", Running, false, 0));
    var s1 := Step(s, busy);
    var s2 := Step(s1, Enqueue("s", "p", Some("c")));
    StaysReachable(s, busy);
    assert Waiting(s1, "s") == {} && !Represented(s1, "c");
    StaysReachable(s1, Enqueue("s", "p", Some("c")));
    u := s2;
    assert AheadOf(u, 2) == {};
  }

  lemma FirstIsAhead(s: State)
    requires s.rows.Keys == {1, 2} && s.rows[1].session == s.rows[2].session && s.rows[1].status.Queued?
    ensures AheadOf(s, 2) == {1}
  {}

  /** The reopened item is ahead of a later one that was free to start, or has been claimed. */
  lemma WriteBackGetsAhead() returns (before: State)
    ensures Reachable(before) && Startable(before, 2, 0) && Legal(before, Claim(2, 0)) && 1 in before.drafts
    ensures AheadOf(before, 2) == {} && 2 in Step(before, StoreReceipt(1, "m")).rows
    ensures AheadOf(Step(before, StoreReceipt(1, "m")), 2) == {1}
    ensures var s := Step(Step(before, Claim(2, 0)), StoreReceipt(1, "m"));
      2 in s.rows && InFlight(s.rows[2]) && AheadOf(s, 2) == {1}
  {
    var s := WriteBackReopens();
    before := SecondItem(s);
    var free := Step(before, StoreReceipt(1, "m"));
    var claimed := Step(Step(before, Claim(2, 0)), StoreReceipt(1, "m"));
    FirstIsAhead(free);
    FirstIsAhead(claimed);
  }

  /** A run in which the write-back comes after the item was started: the item is queued again
      and a second run is started for it. */
  lemma LateWriteBackStartsTwice() returns (before: State, after: State)
    ensures Reachable(before) && 1 in before.drafts && 1 in before.rows && !Untouched(before.rows[1])
    ensures after == Step(before, StoreReceipt(1, "m"))
    ensures LegalRun(after, [Claim(1, 0), CreateRun("c")])
    ensures History(Run(after, [Claim(1, 0), CreateRun("c")]), 1).starts == 2
  {
    before := StartedItem();
    after := Step(before, StoreReceipt(1, "m"));
    assert AheadOf(after, 1) == {};
    var again := StartIt(after, "c");
  }
}
