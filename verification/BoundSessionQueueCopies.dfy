/**
  The queue with the copies that the worker holds, and with receipt write-backs at any time.

  The worker writes whole rows from copies that it read earlier: the waiting rows when a pass
  begins, the claimed row when it claims one, and what it wrote itself.  So a write-back that
  comes late is undone by the worker's next write of that row, and otherwise puts the row back
  into the queue.  The module proves what holds all the same, and that without late write-backs
  the runs are those of the machine of BoundSessionQueue.
  */
module BoundSessionQueueCopies {
  import opened Options
  import opened BoundSessionQueue
  import Theorems = BoundSessionQueueTheorems
  import Sums

  datatype Desk = Desk(base: State, hand: map<nat, Item>)

  const EMPTY_DESK := Desk(EMPTY, map[])

  datatype Act =
    | Read(ids: set<nat>)            // the waiting rows of a new pass
    | Do(e: Event)
    | Sweep(id: nat, now: int)       // the cleanup pass reads a row and writes it at once

  // ---------- One act ----------

  /** The table as the worker's copy of the row has it. */
  function Copied(d: Desk, id: nat): State {
    if id in d.base.rows && id in d.hand then d.base.(rows := d.base.rows[id := d.hand[id]]) else d.base
  }

  /** Events of the worker that work on its copy of a row. */
  predicate OnCopy(e: Event) {
    !ByOthers(e) && !e.Claim? && !e.Crash?
  }

  /** What the worker has of a row once it has written it; it does not go on with a queued one. */
  function Holding(hand: map<nat, Item>, rows: map<nat, Item>, id: nat): map<nat, Item> {
    if id in rows && !rows[id].status.Queued? then hand[id := rows[id]] else hand - {id}
  }

  function ActStep(d: Desk, a: Act): Desk {
    match a
    case Read(ids) =>
      Desk(d.base, map i | i in ids && i in d.base.rows && d.base.rows[i].status.WaitingResult? :: d.base.rows[i])
    case Sweep(id, now) => Desk(Step(d.base, SkipReceipt(id, now)), d.hand - {id})
    case Do(e) =>
      if OnCopy(e) then CopyStep(d, e)
      else
        var s := Step(d.base, e);
        Desk(s, if e.Claim? then Holding(d.hand, s.rows, e.id) else if e.Crash? then map[] else d.hand)
  }

  /** Creating a run and calling `resume_run` write nothing to the table. */
  function CopyStep(d: Desk, e: Event): Desk
    requires OnCopy(e)
  {
    var id := Subject(d.base, e);
    var s := Step(Copied(d, id), e);
    if e.CreateRun? || e.CallResume? then Desk(s.(rows := d.base.rows), d.hand)
    else Desk(s, Holding(d.hand, s.rows, id))
  }

  /** A receipt is written back at any time; the worker tests its copies. */
  ghost predicate ActLegal(d: Desk, a: Act) {
    match a
    case Read(_) => d.base.worker.Idle?
    case Sweep(id, now) => Legal(d.base, SkipReceipt(id, now))
    case Do(e) =>
      if e.StoreReceipt? then e.id in d.base.drafts
      else if !OnCopy(e) then Legal(d.base, e)
      else
        var id := Subject(d.base, e);
        (id in d.base.rows ==> id in d.hand) && Legal(Copied(d, id), e)
  }

  function ActRun(d: Desk, acts: seq<Act>): Desk
    decreases |acts|
  {
    if acts == [] then d else ActRun(ActStep(d, acts[0]), acts[1..])
  }

  ghost predicate ActLegalRun(d: Desk, acts: seq<Act>)
    decreases |acts|
  {
    acts == [] || (ActLegal(d, acts[0]) && ActLegalRun(ActStep(d, acts[0]), acts[1..]))
  }

  // ---------- The invariant ----------

  /** The copy is the row, unless the row has been put back into the queue since. */
  predicate CopyFits(copy: Item, row: Option<Item>) {
    && !copy.status.Queued? && (copy.status.Starting? ==> copy.startAttempts < START_MAX_ATTEMPTS)
    && (row.Some? ==>
          copy == row.value
          || (row.value.status.Queued? && row.value.startAttempts == 0 && copy.cleanup.Skipped?))
  }

  predicate HoldFits(copy: Option<Item>, hold: Hold) {
    match hold
    case Free => true
    case HoldsClaim(_) => copy.Some? && copy.value.status.Starting?
    case HoldsRun => copy.Some? && copy.value.status.Starting?
    case HoldsCall(_) =>
      && copy.Some? && copy.value.status.WaitingResult? && Armed(copy.value)
      && copy.value.resumeAttempts < RESUME_MAX_ATTEMPTS
  }

  function One(b: bool): nat {
    if b then 1 else 0
  }

  /** The starts an item has had and those it may still get: one for its place in the queue or for a
      claim, and one for the write-back that can put it there again. */
  function StartsAndChances(v: View): nat {
    v.tally.starts + One(v.draft.Some?) + One(v.row.Some? && v.row.value.status.Queued?) + One(v.hold.HoldsClaim?)
  }

  predicate Fits(v: View, copy: Option<Item>) {
    && (v.row.Some? && (v.row.value.status.Queued? || v.row.value.status.Starting?) ==>
          v.row.value.startAttempts < START_MAX_ATTEMPTS)
    && (v.draft.Some? ==>
          && v.draft.value.status.Queued? && v.draft.value.startAttempts == 0 && v.draft.value.cleanup.Skipped?
          && (v.row.Some? ==> v.row.value.cleanup.Skipped?))
    && (copy.Some? ==> CopyFits(copy.value, v.row))
    && (v.row.Some? ==> HoldFits(copy, v.hold))
    && StartsAndChances(v) <= 2
  }

  function CopyOf(d: Desk, i: nat): Option<Item> {
    if i in d.hand then Some(d.hand[i]) else None
  }

  ghost predicate ItemFits(d: Desk, i: nat) {
    && Fits(ViewOf(d.base, i), CopyOf(d, i))
    && (i == 0 || i > d.base.lastId ==> ViewOf(d.base, i) == BLANK && CopyOf(d, i) == None)
  }

  ghost predicate DeskInv(d: Desk) {
    forall i :: ItemFits(d, i)
  }

  lemma EmptyDeskIsInv()
    ensures DeskInv(EMPTY_DESK)
  {
    forall i
      ensures ItemFits(EMPTY_DESK, i)
    {
      assert ViewOf(EMPTY, i) == BLANK;
    }
  }

  // ---------- One act keeps it ----------

  /** The item an act is about. */
  function About(d: Desk, a: Act): nat {
    match a
    case Read(_) => 0
    case Sweep(id, _) => id
    case Do(e) => Subject(d.base, e)
  }

  /** Another item's view, as far as an act can change it. */
  predicate SameItem(d: Desk, d': Desk, i: nat) {
    && (ViewOf(d'.base, i) == ViewOf(d.base, i) || ViewOf(d'.base, i) == ViewOf(d.base, i).(row := None))
    && d.base.lastId <= d'.base.lastId
  }

  lemma OthersSame(d: Desk, e: Event, i: nat)
    requires ActLegal(d, Do(e)) && i != Subject(d.base, e)
    ensures SameItem(d, ActStep(d, Do(e)), i)
    ensures CopyOf(ActStep(d, Do(e)), i) == CopyOf(d, i)
      || (CopyOf(ActStep(d, Do(e)), i) == None && ViewOf(d.base, i).hold.Free?)
  {
    if e.StoreReceipt? {
      WriteBackElsewhere(d.base, e, i);
    } else if OnCopy(e) {
      var id := Subject(d.base, e);
      var s := Copied(d, id);
      assert ViewOf(s, i) == ViewOf(d.base, i) && s.lastId == d.base.lastId && Subject(s, e) == id;
      OthersKeep(s, e, i);
      WritesElsewhere(d, e, i);
    } else {
      OthersKeep(d.base, e, i);
    }
  }

  lemma WriteBackElsewhere(s: State, e: Event, i: nat)
    requires e.StoreReceipt? && i != e.id
    ensures ViewOf(Step(s, e), i) == ViewOf(s, i) && Step(s, e).lastId == s.lastId
  {}

  lemma WritesElsewhere(d: Desk, e: Event, i: nat)
    requires OnCopy(e) && i != Subject(d.base, e)
    requires var s := Step(Copied(d, Subject(d.base, e)), e);
      (ViewOf(s, i) == ViewOf(d.base, i)) && d.base.lastId <= s.lastId
    ensures SameItem(d, CopyStep(d, e), i) && CopyOf(CopyStep(d, e), i) == CopyOf(d, i)
  {}

  lemma OtherFits(d: Desk, a: Act, i: nat)
    requires ActLegal(d, a) && ItemFits(d, i) && i != About(d, a)
    ensures ItemFits(ActStep(d, a), i)
  {
    match a
    case Read(_) =>
    case Sweep(id, now) => OthersKeepFinish(d.base, SkipReceipt(id, now), i);
    case Do(e) => OthersSame(d, e, i);
  }

  lemma ReadFits(d: Desk, ids: set<nat>, i: nat)
    requires ActLegal(d, Read(ids)) && ItemFits(d, i)
    ensures ItemFits(ActStep(d, Read(ids)), i)
  {}

  lemma SweepFits(d: Desk, id: nat, now: int)
    requires ActLegal(d, Sweep(id, now)) && ItemFits(d, id)
    ensures ItemFits(ActStep(d, Sweep(id, now)), id)
  {}

  lemma NewItemFits(d: Desk, e: Event)
    requires (e.Enqueue? || e.DirectStart? || e.StoreReceipt?) && ActLegal(d, Do(e)) && ItemFits(d, Subject(d.base, e))
    ensures ItemFits(ActStep(d, Do(e)), Subject(d.base, e))
  {}

  lemma ClaimFits(d: Desk, id: nat, now: int)
    requires ActLegal(d, Do(Claim(id, now))) && ItemFits(d, id)
    ensures ItemFits(ActStep(d, Do(Claim(id, now))), id)
  {}

  lemma CrashFits(d: Desk, i: nat)
    requires ItemFits(d, i)
    ensures ItemFits(ActStep(d, Do(Crash)), i)
  {}

  lemma StartFits(d: Desk, e: Event)
    requires Starts(e) && OnCopy(e) && ActLegal(d, Do(e)) && ItemFits(d, Subject(d.base, e))
    ensures ItemFits(ActStep(d, Do(e)), Subject(d.base, e))
  {}

  lemma ResumeFits(d: Desk, e: Event)
    requires Resumption(e) && OnCopy(e) && ActLegal(d, Do(e)) && ItemFits(d, Subject(d.base, e))
    ensures ItemFits(ActStep(d, Do(e)), Subject(d.base, e))
  {}

  lemma FinishFits(d: Desk, e: Event)
    requires Finishes(e) && ActLegal(d, Do(e)) && ItemFits(d, Subject(d.base, e))
    ensures ItemFits(ActStep(d, Do(e)), Subject(d.base, e))
  {}

  lemma SubjectFits(d: Desk, e: Event)
    requires ActLegal(d, Do(e)) && ItemFits(d, Subject(d.base, e)) && Subject(d.base, e) > 0
    ensures ItemFits(ActStep(d, Do(e)), Subject(d.base, e))
  {
    if e.Crash? {
      CrashFits(d, Subject(d.base, e));
    } else if e.Claim? {
      ClaimFits(d, e.id, e.now);
    } else if Starts(e) {
      StartFits(d, e);
    } else if Resumption(e) {
      ResumeFits(d, e);
    } else if Finishes(e) {
      FinishFits(d, e);
    } else {
      NewItemFits(d, e);
    }
  }

  lemma ActKeepsInv(d: Desk, a: Act)
    requires DeskInv(d) && ActLegal(d, a)
    ensures DeskInv(ActStep(d, a))
  {
    forall i
      ensures ItemFits(ActStep(d, a), i)
    {
      assert ItemFits(d, i);
      if i != About(d, a) {
        OtherFits(d, a, i);
      } else {
        match a
        case Read(ids) => ReadFits(d, ids, i);
        case Sweep(id, now) => SweepFits(d, id, now);
        case Do(e) =>
          if i > 0 {
            SubjectFits(d, e);
          } else {
            NoSubjectFits(d, e);
          }
      }
    }
  }

  /** Nothing is about item zero. */
  lemma NoSubjectFits(d: Desk, e: Event)
    requires ActLegal(d, Do(e)) && ItemFits(d, 0) && Subject(d.base, e) == 0
    ensures ItemFits(ActStep(d, Do(e)), 0)
  {
    assert ViewOf(d.base, 0) == BLANK;
  }

  lemma {:induction false} ActRunKeepsInv(d: Desk, acts: seq<Act>)
    requires DeskInv(d) && ActLegalRun(d, acts)
    ensures DeskInv(ActRun(d, acts))
    decreases |acts|
  {
    if acts != [] {
      ActKeepsInv(d, acts[0]);
      ActRunKeepsInv(ActStep(d, acts[0]), acts[1..]);
    }
  }

  // ---------- What holds with late write-backs ----------

  /** An item is started at most twice, and at most once before its receipt is written back. */
  lemma StartedAtMostTwice(d: Desk, acts: seq<Act>, i: nat)
    requires DeskInv(d) && ActLegalRun(d, acts)
    ensures var s := ActRun(d, acts).base;
      History(s, i).starts <= if i in s.drafts then 1 else 2
  {
    ActRunKeepsInv(d, acts);
    assert ItemFits(ActRun(d, acts), i);
  }

  predicate WritesBack(a: Act, i: nat) {
    a.Do? && a.e.StoreReceipt? && a.e.id == i
  }

  lemma FinishedAct(d: Desk, a: Act, i: nat)
    requires ActLegal(d, a) && ItemFits(d, i) && !WritesBack(a, i)
    requires i in d.base.rows && !NonTerminal(d.base.rows[i]) && i in ActStep(d, a).base.rows
    ensures ActStep(d, a).base.rows[i].status == d.base.rows[i].status
  {
    var s, s' := d.base, ActStep(d, a).base;
    assert ViewOf(s, i).row == Some(s.rows[i]) && ViewOf(s', i).row == Some(s'.rows[i]);
    if i != About(d, a) {
      UnchangedElsewhere(d, a, i);
    } else if a.Do? && OnCopy(a.e) {
      FinishedWrite(d, a.e);
    }
  }

  lemma UnchangedElsewhere(d: Desk, a: Act, i: nat)
    requires ActLegal(d, a) && i != About(d, a)
    ensures SameItem(d, ActStep(d, a), i)
  {
    match a
    case Read(_) =>
    case Sweep(id, now) => OthersKeepFinish(d.base, SkipReceipt(id, now), i);
    case Do(e) => OthersSame(d, e, i);
  }

  /** The worker's copy of a finished row is that row, so at most its receipt is dropped. */
  lemma FinishedWrite(d: Desk, e: Event)
    requires OnCopy(e) && ActLegal(d, Do(e)) && ItemFits(d, Subject(d.base, e))
    requires Subject(d.base, e) in d.base.rows && !NonTerminal(d.base.rows[Subject(d.base, e)])
    ensures var id, s := Subject(d.base, e), CopyStep(d, e).base;
      id in s.rows && s.rows[id].status == d.base.rows[id].status
  {
    var id := Subject(d.base, e);
    assert d.hand[id] == d.base.rows[id] && d.base.rows[id := d.base.rows[id]] == d.base.rows;
    assert Copied(d, id) == d.base;
  }

  lemma GoneAct(d: Desk, a: Act, i: nat)
    requires ActLegal(d, a) && i !in d.base.rows && i <= d.base.lastId
    ensures i !in ActStep(d, a).base.rows && i <= ActStep(d, a).base.lastId
  {
    if i != About(d, a) {
      UnchangedElsewhere(d, a, i);
      assert ViewOf(ActStep(d, a).base, i).row.None?;
    } else if a.Do? {
      GoneRowStays(d.base, a.e, i);
      assert OnCopy(a.e) ==> Copied(d, i) == d.base;
    }
  }

  lemma GoneRowStays(s: State, e: Event, i: nat)
    requires i == Subject(s, e) && i !in s.rows && i <= s.lastId && (ByOthers(e) || Legal(s, e))
    ensures i !in Step(s, e).rows && i <= Step(s, e).lastId
  {}

  lemma {:induction false} StaysGone(d: Desk, acts: seq<Act>, i: nat)
    requires ActLegalRun(d, acts) && i !in d.base.rows && i <= d.base.lastId
    ensures i !in ActRun(d, acts).base.rows
    decreases |acts|
  {
    if acts != [] {
      GoneAct(d, acts[0], i);
      StaysGone(ActStep(d, acts[0]), acts[1..], i);
    }
  }

  /** COMPLETED and FAILED are left only by the item's own write-back. */
  lemma {:induction false} FinishedStaysUnless(d: Desk, acts: seq<Act>, i: nat)
    requires DeskInv(d) && ActLegalRun(d, acts) && i in d.base.rows && !NonTerminal(d.base.rows[i])
    requires forall k :: 0 <= k < |acts| ==> !WritesBack(acts[k], i)
    ensures i in ActRun(d, acts).base.rows ==> ActRun(d, acts).base.rows[i].status == d.base.rows[i].status
    decreases |acts|
  {
    if acts != [] {
      var d' := ActStep(d, acts[0]);
      assert ItemFits(d, i);
      ActKeepsInv(d, acts[0]);
      if i in d'.base.rows {
        FinishedAct(d, acts[0], i);
        FinishedStaysUnless(d', acts[1..], i);
      } else {
        assert ItemFits(d', i) && ViewOf(d.base, i).row.Some?;
        NoIdLost(d, acts[0]);
        StaysGone(d', acts[1..], i);
      }
    }
  }

  lemma NoIdLost(d: Desk, a: Act)
    requires ActLegal(d, a)
    ensures d.base.lastId <= ActStep(d, a).base.lastId
  {
    UnchangedElsewhere(d, a, About(d, a) + 1);
  }

  // ---------- The worker cannot spin ----------

  /** How many more progress steps an item allows: what its row allows, and a whole life more as long
      as its receipt can be written back. */
  function Worth(s: State, i: nat): nat {
    Theorems.WeightAt(s.rows, i) + if i in s.drafts then Theorems.NEW_WEIGHT else 0
  }

  function Worths(s: State): nat -> nat {
    (i: nat) => Worth(s, i)
  }

  function TotalWorth(d: Desk): nat {
    Sums.Total(Worths(d.base), d.base.lastId)
  }

  predicate Progresses(d: Desk, a: Act) {
    match a
    case Read(_) => false
    case Sweep(_, _) => true
    case Do(e) => Theorems.IsProgress(d.base, e)
  }

  function ProgressActs(d: Desk, acts: seq<Act>): nat
    decreases |acts|
  {
    if acts == [] then 0 else One(Progresses(d, acts[0])) + ProgressActs(ActStep(d, acts[0]), acts[1..])
  }

  predicate Creates(a: Act) {
    a.Do? && (a.e.Enqueue? || a.e.DirectStart?)
  }

  function CreatingActs(acts: seq<Act>): nat {
    if acts == [] then 0 else One(Creates(acts[0])) + CreatingActs(acts[1..])
  }

  lemma OtherWorth(d: Desk, a: Act, i: nat)
    requires ActLegal(d, a) && i != About(d, a)
    ensures Worth(ActStep(d, a).base, i) <= Worth(d.base, i)
  {
    UnchangedElsewhere(d, a, i);
    var v, v' := ViewOf(d.base, i), ViewOf(ActStep(d, a).base, i);
    assert (v.row.Some? <==> i in d.base.rows) && (v'.row.Some? <==> i in ActStep(d, a).base.rows);
    assert (v.draft.Some? <==> i in d.base.drafts) && (v'.draft.Some? <==> i in ActStep(d, a).base.drafts);
  }

  /** The item an act is about pays for the act. */
  ghost predicate Pays(d: Desk, a: Act) {
    && One(Progresses(d, a)) + Worth(ActStep(d, a).base, About(d, a)) <= Worth(d.base, About(d, a))
    && (Progresses(d, a) ==> About(d, a) > 0)
  }

  lemma SweepPays(d: Desk, id: nat, now: int)
    requires ActLegal(d, Sweep(id, now)) && ItemFits(d, id)
    ensures Pays(d, Sweep(id, now))
  {}

  lemma OthersPay(d: Desk, e: Event)
    requires ByOthers(e) && !e.Enqueue? && !e.DirectStart? && ActLegal(d, Do(e)) && ItemFits(d, Subject(d.base, e))
    ensures Pays(d, Do(e))
  {}

  lemma ClaimPays(d: Desk, id: nat, now: int)
    requires ActLegal(d, Do(Claim(id, now))) && ItemFits(d, id)
    ensures Pays(d, Do(Claim(id, now)))
  {}

  /** A write from a copy: the row is the copy, or heavier because it was put back. */
  lemma CopyIsLighter(d: Desk, id: nat)
    requires ItemFits(d, id) && id in d.base.rows && id in d.hand
    ensures Theorems.Weight(d.hand[id]) <= Theorems.Weight(d.base.rows[id])
  {}

  lemma StartPays(d: Desk, e: Event)
    requires Starts(e) && OnCopy(e) && ActLegal(d, Do(e)) && ItemFits(d, Subject(d.base, e))
    ensures Pays(d, Do(e))
  {
    if Subject(d.base, e) in d.base.rows {
      CopyIsLighter(d, Subject(d.base, e));
    }
  }

  lemma ArmPays(d: Desk, id: nat, now: int)
    requires ActLegal(d, Do(Arm(id, now))) && ItemFits(d, id)
    ensures Pays(d, Do(Arm(id, now)))
  {
    CopyIsLighter(d, id);
  }

  lemma ResumedIsLighter(copy: Item, now: int, ok: bool)
    requires copy.status.WaitingResult? && Armed(copy) && copy.resumeAttempts < RESUME_MAX_ATTEMPTS
    ensures Theorems.Weight(ResumedRow(copy, now, ok)) + 1 <= Theorems.Weight(copy)
  {}

  lemma RecordWrites(d: Desk, ok: bool)
    requires d.base.worker.Resuming? && (d.base.worker.id in d.base.rows ==> d.base.worker.id in d.hand)
    ensures var id, s := d.base.worker.id, CopyStep(d, RecordResume(ok)).base;
      && s.drafts == d.base.drafts
      && s.rows == if id in d.base.rows then d.base.rows[id := ResumedRow(d.hand[id], d.base.worker.now, ok)]
                   else d.base.rows
  {}

  lemma RecordPays(d: Desk, ok: bool)
    requires ActLegal(d, Do(RecordResume(ok))) && ItemFits(d, d.base.worker.id)
    ensures Pays(d, Do(RecordResume(ok)))
  {
    var id := d.base.worker.id;
    RecordWrites(d, ok);
    if id in d.base.rows {
      CopyIsLighter(d, id);
      ResumedIsLighter(d.hand[id], d.base.worker.now, ok);
    }
  }

  lemma ResumePays(d: Desk, e: Event)
    requires Resumption(e) && OnCopy(e) && ActLegal(d, Do(e)) && ItemFits(d, Subject(d.base, e))
    ensures Pays(d, Do(e))
  {
    match e
    case Arm(id, now) => ArmPays(d, id, now);
    case RecordResume(ok) => RecordPays(d, ok);
    case CallResume(_, _) =>
  }

  lemma FinishPays(d: Desk, e: Event)
    requires Finishes(e) && ActLegal(d, Do(e)) && ItemFits(d, Subject(d.base, e))
    ensures Pays(d, Do(e))
  {
    if Subject(d.base, e) in d.base.rows {
      CopyIsLighter(d, Subject(d.base, e));
    }
  }

  lemma CrashPays(d: Desk)
    ensures Pays(d, Do(Crash))
  {}

  lemma SubjectPays(d: Desk, a: Act)
    requires ActLegal(d, a) && ItemFits(d, About(d, a)) && !Creates(a)
    ensures Pays(d, a)
  {
    match a
    case Read(_) =>
    case Sweep(id, now) => SweepPays(d, id, now);
    case Do(e) =>
      if e.Crash? {
        CrashPays(d);
      } else if e.Claim? {
        ClaimPays(d, e.id, e.now);
      } else if Starts(e) {
        StartPays(d, e);
      } else if Resumption(e) {
        ResumePays(d, e);
      } else if Finishes(e) {
        FinishPays(d, e);
      } else {
        OthersPay(d, e);
      }
  }

  const LIFE := 2 * Theorems.NEW_WEIGHT

  lemma NewItemWorth(d: Desk, a: Act)
    requires ActLegal(d, a) && Creates(a)
    ensures ActStep(d, a).base.lastId == d.base.lastId + 1 && Worth(ActStep(d, a).base, d.base.lastId + 1) <= LIFE
    ensures About(d, a) == d.base.lastId + 1 && !Progresses(d, a)
  {}

  lemma SameLastId(d: Desk, a: Act)
    requires ActLegal(d, a) && !Creates(a)
    ensures ActStep(d, a).base.lastId == d.base.lastId
  {
    if a.Do? && OnCopy(a.e) {
      Theorems.SameLastId(Copied(d, Subject(d.base, a.e)), a.e);
    }
  }

  lemma OthersWorth(d: Desk, a: Act)
    requires ActLegal(d, a)
    ensures forall i: nat :: i != About(d, a) ==> Worths(ActStep(d, a).base)(i) <= Worths(d.base)(i)
  {
    forall i: nat | i != About(d, a)
      ensures Worths(ActStep(d, a).base)(i) <= Worths(d.base)(i)
    {
      OtherWorth(d, a, i);
    }
  }

  lemma OutsideIsWorthless(d: Desk, i: nat)
    requires ItemFits(d, i)
    ensures i == 0 || i > d.base.lastId ==> Worth(d.base, i) == 0
  {
    var v := ViewOf(d.base, i);
    assert (i in d.base.rows <==> v.row.Some?) && (i in d.base.drafts <==> v.draft.Some?);
  }

  lemma ActPays(d: Desk, a: Act)
    requires DeskInv(d) && ActLegal(d, a)
    ensures One(Progresses(d, a)) + TotalWorth(ActStep(d, a)) <= TotalWorth(d) + (if Creates(a) then LIFE else 0)
  {
    var id, s, s' := About(d, a), d.base, ActStep(d, a).base;
    assert ItemFits(d, id);
    OthersWorth(d, a);
    OutsideIsWorthless(d, id);
    if Creates(a) {
      NewItemWorth(d, a);
      Sums.TotalMoves(Worths(s), Worths(s'), s.lastId, id, -LIFE);
    } else {
      SubjectPays(d, a);
      SameLastId(d, a);
      Sums.TotalMoves(Worths(s), Worths(s'), s.lastId, id, One(Progresses(d, a)));
    }
  }

  /** Over any run, with receipts written back at any time, the worker makes at most thirty-four
      progress steps per item ever created, besides what the first rows and drafts allow. */
  lemma {:induction false} ProgressIsBounded(d: Desk, acts: seq<Act>)
    requires DeskInv(d) && ActLegalRun(d, acts)
    ensures ProgressActs(d, acts) + TotalWorth(ActRun(d, acts)) <= TotalWorth(d) + LIFE * CreatingActs(acts)
    decreases |acts|
  {
    if acts != [] {
      ActPays(d, acts[0]);
      ActKeepsInv(d, acts[0]);
      ProgressIsBounded(ActStep(d, acts[0]), acts[1..]);
      assert LIFE * (One(Creates(acts[0])) + CreatingActs(acts[1..]))
          == (if Creates(acts[0]) then LIFE else 0) + LIFE * CreatingActs(acts[1..]);
    }
  }

  /** From the empty table. */
  lemma WorkerCannotSpin(acts: seq<Act>)
    requires ActLegalRun(EMPTY_DESK, acts)
    ensures ProgressActs(EMPTY_DESK, acts) <= LIFE * CreatingActs(acts)
  {
    EmptyDeskIsInv();
    ProgressIsBounded(EMPTY_DESK, acts);
  }

  // ---------- Without late write-backs ----------

  /** The worker's copies are the rows. */
  ghost predicate Tidy(d: Desk) {
    forall i :: i in d.hand && i in d.base.rows ==> d.hand[i] == d.base.rows[i]
  }

  /** Not a write-back over a row that has been claimed. */
  predicate InTime(d: Desk, a: Act) {
    a.Do? && a.e.StoreReceipt? && a.e.id in d.base.rows ==> Untouched(d.base.rows[a.e.id])
  }

  ghost predicate AllInTime(d: Desk, acts: seq<Act>)
    decreases |acts|
  {
    acts == [] || (InTime(d, acts[0]) && AllInTime(ActStep(d, acts[0]), acts[1..]))
  }

  /** The events of the machine that the acts are. */
  function EventsOf(acts: seq<Act>): seq<Event> {
    if acts == [] then []
    else match acts[0]
      case Read(_) => EventsOf(acts[1..])
      case Sweep(id, now) => [SkipReceipt(id, now)] + EventsOf(acts[1..])
      case Do(e) => [e] + EventsOf(acts[1..])
  }

  lemma CopiedIsBase(d: Desk, id: nat)
    requires Tidy(d)
    ensures Copied(d, id) == d.base
  {
    if id in d.base.rows && id in d.hand {
      assert d.base.rows[id := d.hand[id]] == d.base.rows;
    }
  }

  lemma ActIsEvent(d: Desk, e: Event)
    requires Tidy(d) && ActLegal(d, Do(e)) && InTime(d, Do(e))
    ensures Legal(d.base, e) && ActStep(d, Do(e)).base == Step(d.base, e)
  {
    CopiedIsBase(d, Subject(d.base, e));
    if e.CreateRun? || e.CallResume? {
      assert Step(d.base, e).rows == d.base.rows;
    }
  }

  lemma StaysTidy(d: Desk, a: Act)
    requires Tidy(d) && DeskInv(d) && ActLegal(d, a) && InTime(d, a)
    ensures Tidy(ActStep(d, a))
  {
    var d' := ActStep(d, a);
    forall i | i in d'.hand && i in d'.base.rows
      ensures d'.hand[i] == d'.base.rows[i]
    {
      assert ItemFits(d, i);
      if i != About(d, a) {
        UnchangedElsewhere(d, a, i);
        assert ViewOf(d.base, i).row.Some? && ViewOf(d'.base, i).row == ViewOf(d.base, i).row;
      }
    }
  }

  /** Without late write-backs the acts are a legal run of the machine, so that everything proved of
      its runs holds of the worker with its copies. */
  lemma {:induction false} InTimeIsMachine(d: Desk, acts: seq<Act>)
    requires Tidy(d) && DeskInv(d) && ActLegalRun(d, acts) && AllInTime(d, acts)
    ensures LegalRun(d.base, EventsOf(acts)) && Run(d.base, EventsOf(acts)) == ActRun(d, acts).base
    decreases |acts|
  {
    if acts != [] {
      var a, d' := acts[0], ActStep(d, acts[0]);
      StaysTidy(d, a);
      ActKeepsInv(d, a);
      InTimeIsMachine(d', acts[1..]);
      match a
      case Read(_) =>
      case Sweep(id, now) => ConsRun(d.base, SkipReceipt(id, now), EventsOf(acts[1..]));
      case Do(e) =>
        ActIsEvent(d, e);
        ConsRun(d.base, e, EventsOf(acts[1..]));
    }
  }

  lemma ConsRun(s: State, e: Event, es: seq<Event>)
    ensures Run(s, [e] + es) == Run(Step(s, e), es)
    ensures LegalRun(s, [e] + es) <==> Legal(s, e) && LegalRun(Step(s, e), es)
  {
    assert ([e] + es)[1..] == es;
  }
}
