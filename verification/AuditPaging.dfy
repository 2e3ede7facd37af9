/**
  Reading the audit log page by page.

  The log only grows and ids are never reused.  A query is answered with at most `limit`
  rows after a cursor; one row more is fetched to learn whether there is a next page.
  The main results are about following `next_after_id` to the end, on a fixed table and on
  one that grows between the fetches.
  */
module AuditPaging {
  import opened Options
  import opened TextTime

  datatype Event = Event(
    auditEventId: string, eventType: string, traceId: string, runId: string, sessionId: string,
    taskId: Option<string>, roleId: Option<string>, occurredAt: Stamp)

  /** `occurredText` is the stored form of the event's time. */
  datatype Row = Row(id: nat, event: Event, occurredText: string)

  datatype Query = Query(
    eventType: Option<string>, traceId: Option<string>, runId: Option<string>, sessionId: Option<string>,
    taskId: Option<string>, roleId: Option<string>, afterId: nat,
    since: Option<Stamp>, until: Option<Stamp>, limit: nat)

  datatype Page = Page(items: seq<Row>, nextAfterId: Option<nat>)

  // ---------- What a query asks for ----------

  /** The meaning of the filters, with times compared as instants. */
  predicate Matches(r: Row, q: Query) {
    && (q.eventType.Some? ==> r.event.eventType == q.eventType.value)
    && (q.traceId.Some? ==> r.event.traceId == q.traceId.value)
    && (q.runId.Some? ==> r.event.runId == q.runId.value)
    && (q.sessionId.Some? ==> r.event.sessionId == q.sessionId.value)
    && (q.taskId.Some? ==> r.event.taskId == q.taskId)
    && (q.roleId.Some? ==> r.event.roleId == q.roleId)
    && (q.since.Some? ==> Micros(q.since.value) <= Micros(r.event.occurredAt))
    && (q.until.Some? ==> Micros(r.event.occurredAt) <= Micros(q.until.value))
  }

  /** The matching rows after `after`, in table order. */
  function Selected(rows: seq<Row>, q: Query, after: nat): seq<Row> {
    if rows == [] then []
    else
      var r := rows[|rows| - 1];
      Selected(rows[..|rows| - 1], q, after) + (if r.id > after && Matches(r, q) then [r] else [])
  }

  ghost predicate Increasing(rows: seq<Row>) {
    forall i, j :: 0 <= i < j < |rows| ==> rows[i].id < rows[j].id
  }

  ghost predicate GoodTable(rows: seq<Row>) {
    && Increasing(rows)
    && forall i :: 0 <= i < |rows| ==> Stored(rows[i])
  }

  predicate GoodQuery(q: Query) {
    && 1 <= q.limit <= 500
    && (q.since.Some? ==> q.since.value.Valid()) && (q.until.Some? ==> q.until.value.Valid())
  }

  function PageOf(rows: seq<Row>, q: Query): Page {
    var found := Selected(rows, q, q.afterId);
    if |found| > q.limit && q.limit > 0
    then Page(found[..q.limit], Some(found[q.limit - 1].id))
    else Page(found, None)
  }

  // ---------- The SQL text of a query ----------

  datatype Clause =
    | IdAfter(id: nat) | TypeIs(text: string) | TraceIs(text: string) | RunIs(text: string) | SessionIs(text: string)
    | TaskIs(text: string) | RoleIs(text: string) | OccurredFrom(text: string) | OccurredUpTo(text: string)

  /** A comparison with a missing column is never true. */
  predicate Holds(c: Clause, r: Row) {
    match c
    case IdAfter(id) => r.id > id
    case TypeIs(t) => r.event.eventType == t
    case TraceIs(t) => r.event.traceId == t
    case RunIs(t) => r.event.runId == t
    case SessionIs(t) => r.event.sessionId == t
    case TaskIs(t) => r.event.taskId == Some(t)
    case RoleIs(t) => r.event.roleId == Some(t)
    case OccurredFrom(t) => TextAtMost(t, r.occurredText)
    case OccurredUpTo(t) => TextAtMost(r.occurredText, t)
  }

  predicate AllHold(cs: seq<Clause>, r: Row) {
    forall i :: 0 <= i < |cs| ==> Holds(cs[i], r)
  }

  function Add(cs: seq<Clause>, wanted: bool, c: Clause): seq<Clause> {
    if wanted then cs + [c] else cs
  }

  lemma AllHoldAdd(cs: seq<Clause>, wanted: bool, c: Clause, r: Row)
    ensures AllHold(Add(cs, wanted, c), r) <==> AllHold(cs, r) && (wanted ==> Holds(c, r))
  {
    assert (cs + [c])[|cs|] == c;
    assert forall i :: 0 <= i < |cs| ==> (cs + [c])[i] == cs[i];
  }

  function TextClauses(q: Query): seq<Clause> {
    var cs := Add([IdAfter(q.afterId)], q.eventType.Some?, TypeIs(q.eventType.GetOr("")));
    var cs := Add(cs, q.traceId.Some?, TraceIs(q.traceId.GetOr("")));
    var cs := Add(cs, q.runId.Some?, RunIs(q.runId.GetOr("")));
    var cs := Add(cs, q.sessionId.Some?, SessionIs(q.sessionId.GetOr("")));
    var cs := Add(cs, q.taskId.Some?, TaskIs(q.taskId.GetOr("")));
    Add(cs, q.roleId.Some?, RoleIs(q.roleId.GetOr("")))
  }

  function Clauses(q: Query): seq<Clause> {
    AddUntil(AddSince(TextClauses(q), q.since), q.until)
  }

  function AddSince(cs: seq<Clause>, since: Option<Stamp>): seq<Clause> {
    if since.Some? then cs + [OccurredFrom(IsoMicro(since.value))] else cs
  }

  function AddUntil(cs: seq<Clause>, until: Option<Stamp>): seq<Clause> {
    if until.Some? then cs + [OccurredUpTo(IsoMicro(until.value))] else cs
  }

  method ListQueryParts(q: Query) returns (clauses: seq<Clause>)
    ensures clauses == Clauses(q)
  {
    clauses := [IdAfter(q.afterId)];
    if q.eventType.Some? { clauses := clauses + [TypeIs(q.eventType.value)]; }
    if q.traceId.Some? { clauses := clauses + [TraceIs(q.traceId.value)]; }
    if q.runId.Some? { clauses := clauses + [RunIs(q.runId.value)]; }
    if q.sessionId.Some? { clauses := clauses + [SessionIs(q.sessionId.value)]; }
    if q.taskId.Some? { clauses := clauses + [TaskIs(q.taskId.value)]; }
    if q.roleId.Some? { clauses := clauses + [RoleIs(q.roleId.value)]; }
    assert clauses == TextClauses(q);
    if q.since.Some? { clauses := clauses + [OccurredFrom(IsoMicro(q.since.value))]; }
    if q.until.Some? { clauses := clauses + [OccurredUpTo(IsoMicro(q.until.value))]; }
  }

  lemma TextClausesMean(q: Query, r: Row)
    ensures AllHold(TextClauses(q), r) <==>
      r.id > q.afterId && Matches(r, q.(since := None, until := None))
  {
    var c0 := [IdAfter(q.afterId)];
    var c1 := Add(c0, q.eventType.Some?, TypeIs(q.eventType.GetOr("")));
    var c2 := Add(c1, q.traceId.Some?, TraceIs(q.traceId.GetOr("")));
    var c3 := Add(c2, q.runId.Some?, RunIs(q.runId.GetOr("")));
    var c4 := Add(c3, q.sessionId.Some?, SessionIs(q.sessionId.GetOr("")));
    var c5 := Add(c4, q.taskId.Some?, TaskIs(q.taskId.GetOr("")));
    assert AllHold(c0, r) <==> Holds(c0[0], r);
    AllHoldAdd(c0, q.eventType.Some?, TypeIs(q.eventType.GetOr("")), r);
    AllHoldAdd(c1, q.traceId.Some?, TraceIs(q.traceId.GetOr("")), r);
    AllHoldAdd(c2, q.runId.Some?, RunIs(q.runId.GetOr("")), r);
    AllHoldAdd(c3, q.sessionId.Some?, SessionIs(q.sessionId.GetOr("")), r);
    AllHoldAdd(c4, q.taskId.Some?, TaskIs(q.taskId.GetOr("")), r);
    AllHoldAdd(c5, q.roleId.Some?, RoleIs(q.roleId.GetOr("")), r);
  }

  ghost predicate Stored(r: Row) {
    r.event.occurredAt.Valid() && r.occurredText == IsoMicro(r.event.occurredAt)
  }

  lemma SinceMeans(cs: seq<Clause>, since: Option<Stamp>, r: Row)
    requires Stored(r) && (since.Some? ==> since.value.Valid())
    ensures AllHold(AddSince(cs, since), r) <==>
      AllHold(cs, r) && (since.Some? ==> Micros(since.value) <= Micros(r.event.occurredAt))
  {
    if since.Some? {
      AllHoldAdd(cs, true, OccurredFrom(IsoMicro(since.value)), r);
      IsoMicroOrder(since.value, r.event.occurredAt);
    }
  }

  lemma UntilMeans(cs: seq<Clause>, until: Option<Stamp>, r: Row)
    requires Stored(r) && (until.Some? ==> until.value.Valid())
    ensures AllHold(AddUntil(cs, until), r) <==>
      AllHold(cs, r) && (until.Some? ==> Micros(r.event.occurredAt) <= Micros(until.value))
  {
    if until.Some? {
      AllHoldAdd(cs, true, OccurredUpTo(IsoMicro(until.value)), r);
      IsoMicroOrder(r.event.occurredAt, until.value);
    }
  }

  /** The clause list, evaluated on the stored texts, selects exactly the rows after the cursor
      that match, with times compared as instants. */
  lemma ClausesMean(q: Query, r: Row)
    requires GoodQuery(q) && Stored(r)
    ensures AllHold(Clauses(q), r) <==> r.id > q.afterId && Matches(r, q)
  {
    TextClausesMean(q, r);
    SinceMeans(TextClauses(q), q.since, r);
    UntilMeans(AddSince(TextClauses(q), q.since), q.until, r);
  }

  // ---------- The repository ----------

  class AuditEventRepository {
    var rows: seq<Row>
    var lastId: nat

    ghost predicate Valid()
      reads this
    {
      && GoodTable(rows)
      && (forall i :: 0 <= i < |rows| ==> rows[i].id <= lastId)
      && (forall i, j :: 0 <= i < j < |rows| ==> rows[i].event.auditEventId != rows[j].event.auditEventId)
    }

    constructor ()
      ensures Valid() && rows == []
    {
      rows, lastId := [], 0;
    }

    /** Fails, changing nothing, exactly when the event id is already in the log. */
    method Append(event: Event) returns (stored: Option<Row>)
      requires Valid() && event.occurredAt.Valid()
      modifies this
      ensures Valid() && old(rows) <= rows
      ensures stored.None? <==>
        exists i :: 0 <= i < |old(rows)| && old(rows)[i].event.auditEventId == event.auditEventId
      ensures stored.None? ==> rows == old(rows)
      ensures stored.Some? ==>
        && rows == old(rows) + [stored.value] && stored.value.event == event
        && forall i :: 0 <= i < |old(rows)| ==> old(rows)[i].id < stored.value.id
    {
      for i := 0 to |rows|
        invariant forall j :: 0 <= j < i ==> rows[j].event.auditEventId != event.auditEventId
      {
        if rows[i].event.auditEventId == event.auditEventId {
          return None;
        }
      }
      lastId := lastId + 1;
      var row := Row(lastId, event, IsoMicro(event.occurredAt));
      rows := rows + [row];
      stored := Some(row);
    }

    method ListEvents(q: Query) returns (page: Page)
      requires Valid() && GoodQuery(q)
      ensures page == PageOf(rows, q)
    {
      var clauses := ListQueryParts(q);
      var found := SelectRows(rows, clauses, q);
      var fetched := if |found| > q.limit + 1 then found[..q.limit + 1] else found;
      page := PageFromRows(fetched, q.limit);
    }
  }

  /** The WHERE part of the SELECT. */
  method SelectRows(rows: seq<Row>, clauses: seq<Clause>, ghost q: Query) returns (found: seq<Row>)
    requires GoodQuery(q) && clauses == Clauses(q)
    requires forall i :: 0 <= i < |rows| ==> Stored(rows[i])
    ensures found == Selected(rows, q, q.afterId)
  {
    found := [];
    for i := 0 to |rows|
      invariant found == Selected(rows[..i], q, q.afterId)
    {
      assert rows[..i + 1][..i] == rows[..i];
      ClausesMean(q, rows[i]);
      if AllHold(clauses, rows[i]) {
        found := found + [rows[i]];
      }
    }
    assert rows[..|rows|] == rows;
  }

  method PageFromRows(fetched: seq<Row>, limit: nat) returns (page: Page)
    requires limit > 0
    ensures page
      == if |fetched| > limit then Page(fetched[..limit], Some(fetched[limit - 1].id)) else Page(fetched, None)
  {
    var hasMore := |fetched| > limit;
    var items := if |fetched| > limit then fetched[..limit] else fetched;
    page := Page(items, if hasMore && items != [] then Some(items[|items| - 1].id) else None);
  }

  // ---------- Following the cursor ----------

  /** Fetch from `tables[0]`, then, while there is a next page, from the following tables. */
  function Follow(tables: seq<seq<Row>>, q: Query): seq<Page> {
    if tables == [] then []
    else
      var page := PageOf(tables[0], q);
      if page.nextAfterId.None? then [page]
      else [page] + Follow(tables[1..], q.(afterId := page.nextAfterId.value))
  }

  function Items(pages: seq<Page>): seq<Row> {
    if pages == [] then [] else pages[0].items + Items(pages[1..])
  }

  predicate Finished(pages: seq<Page>) {
    pages != [] && pages[|pages| - 1].nextAfterId.None?
  }

  /** Each table is the one before it with rows appended. */
  ghost predicate Grows(tables: seq<seq<Row>>) {
    && (forall i :: 0 <= i < |tables| ==> Increasing(tables[i]))
    && forall i :: 0 <= i < |tables| - 1 ==> tables[i] <= tables[i + 1]
  }

  lemma {:induction false} SelectedFacts(rows: seq<Row>, q: Query, after: nat)
    requires Increasing(rows)
    ensures forall r :: r in Selected(rows, q, after) <==> r in rows && r.id > after && Matches(r, q)
    ensures forall i, j :: 0 <= i < j < |Selected(rows, q, after)| ==>
      Selected(rows, q, after)[i].id < Selected(rows, q, after)[j].id
    ensures |Selected(rows, q, after)| <= |rows|
  {
    if rows != [] {
      SelectedFacts(rows[..|rows| - 1], q, after);
    }
  }

  lemma SelectedSameFilters(rows: seq<Row>, q: Query, p: Query, after: nat)
    requires p == q.(afterId := p.afterId)
    ensures Selected(rows, q, after) == Selected(rows, p, after)
  {
    if rows != [] {
      SelectedSameFilters(rows[..|rows| - 1], q, p, after);
    }
  }

  /** Moving the cursor to a selected row drops that row and everything before it. */
  lemma {:induction false} SelectedSplits(rows: seq<Row>, q: Query, after: nat, k: nat)
    requires Increasing(rows) && k < |Selected(rows, q, after)|
    ensures Selected(rows, q, Selected(rows, q, after)[k].id) == Selected(rows, q, after)[k + 1..]
  {
    var before, r := rows[..|rows| - 1], rows[|rows| - 1];
    var front, all := Selected(before, q, after), Selected(rows, q, after);
    if k < |front| {
      SelectedSplits(before, q, after, k);
      SelectedFacts(before, q, after);
      assert all[k] == front[k] && front[k] in front && front[k] in before;
      assert after < front[k].id < r.id;
      if Matches(r, q) {
        assert all == front + [r] && all[k + 1..] == front[k + 1..] + [r];
      }
    } else {
      assert all == front + [r] && all[k] == r && all[k + 1..] == [];
      NoneAfter(before, q, r.id);
    }
  }

  lemma {:induction false} NoneAfter(rows: seq<Row>, q: Query, cursor: nat)
    requires forall i :: 0 <= i < |rows| ==> rows[i].id <= cursor
    ensures Selected(rows, q, cursor) == []
  {
    if rows != [] {
      NoneAfter(rows[..|rows| - 1], q, cursor);
    }
  }

  /** Appending rows appends to the selection. */
  lemma {:induction false} SelectedGrows(rows: seq<Row>, more: seq<Row>, q: Query, after: nat)
    requires rows <= more
    ensures Selected(rows, q, after) <= Selected(more, q, after)
    decreases |more|
  {
    if rows != more {
      assert rows <= more[..|more| - 1];
      SelectedGrows(rows, more[..|more| - 1], q, after);
    }
  }

  /** One fetch: the page is the front of the selection, and the rest is what the cursor it
      hands out selects, now and after any appends. */
  lemma PageSplits(rows: seq<Row>, more: seq<Row>, q: Query)
    requires Increasing(rows) && Increasing(more) && rows <= more && q.limit > 0
    ensures var page := PageOf(rows, q);
      && page.items <= Selected(rows, q, q.afterId)
      && (page.nextAfterId.None? ==> page.items == Selected(rows, q, q.afterId))
      && (page.nextAfterId.Some? ==>
            && |page.items| == q.limit
            && Selected(more, q, q.afterId) == page.items + Selected(more, q, page.nextAfterId.value))
  {
    var found, page := Selected(rows, q, q.afterId), PageOf(rows, q);
    if page.nextAfterId.Some? {
      var later := Selected(more, q, q.afterId);
      SelectedGrows(rows, more, q, q.afterId);
      assert later[q.limit - 1] == found[q.limit - 1];
      SelectedSplits(more, q, q.afterId, q.limit - 1);
      assert later == later[..q.limit] + later[q.limit..];
    }
  }

  lemma {:induction false} TablesGrow(tables: seq<seq<Row>>, i: nat, j: nat)
    requires Grows(tables) && i <= j < |tables|
    ensures tables[i] <= tables[j]
    decreases j
  {
    if i < j {
      TablesGrow(tables, i, j - 1);
      assert tables[j - 1] <= tables[j - 1 + 1];
    }
  }

  /** An unfinished first page is followed by the crawl of the remaining tables. */
  lemma FollowStep(tables: seq<seq<Row>>, q: Query) returns (tail: seq<Page>)
    requires tables != [] && PageOf(tables[0], q).nextAfterId.Some?
    ensures var page := PageOf(tables[0], q);
      && tail == Follow(tables[1..], q.(afterId := page.nextAfterId.value))
      && |Follow(tables, q)| == 1 + |tail| && Items(Follow(tables, q)) == page.items + Items(tail)
      && (Finished(Follow(tables, q)) <==> Finished(tail))
  {
    var page, pages := PageOf(tables[0], q), Follow(tables, q);
    tail := Follow(tables[1..], q.(afterId := page.nextAfterId.value));
    assert pages == [page] + tail && pages[1..] == tail;
    assert tail != [] ==> pages[|pages| - 1] == tail[|tail| - 1];
  }

  lemma TailGrows(tables: seq<seq<Row>>)
    requires Grows(tables) && tables != []
    ensures Grows(tables[1..])
  {
    var rest := tables[1..];
    forall i | 0 <= i < |rest| - 1
      ensures rest[i] <= rest[i + 1]
    {
      var j := i + 1;
      assert tables[j] <= tables[j + 1];
    }
  }

  /** What the rest of the crawl reads goes on where the first page ended. */
  lemma PageThenRest(first: seq<Row>, read: seq<Row>, q: Query, rest: seq<Row>, finished: bool)
    requires Increasing(first) && Increasing(read) && first <= read && q.limit > 0 && PageOf(first, q).nextAfterId.Some?
    requires var p := q.(afterId := PageOf(first, q).nextAfterId.value);
      rest <= Selected(read, p, p.afterId) && (finished ==> rest == Selected(read, p, p.afterId))
    ensures PageOf(first, q).items + rest <= Selected(read, q, q.afterId)
    ensures finished ==> PageOf(first, q).items + rest == Selected(read, q, q.afterId)
    ensures Selected(first, q, q.afterId) <= Selected(read, q, q.afterId)
  {
    var p := q.(afterId := PageOf(first, q).nextAfterId.value);
    PageSplits(first, read, q);
    SelectedSameFilters(read, q, p, p.afterId);
    SelectedGrows(first, read, q, q.afterId);
  }

  /** A crawl of one page. */
  lemma OnePage(tables: seq<seq<Row>>, q: Query)
    requires tables != [] && Increasing(tables[0]) && q.limit > 0
    requires PageOf(tables[0], q).nextAfterId.None? || |tables| == 1
    ensures Follow(tables, q) == [PageOf(tables[0], q)] && Items(Follow(tables, q)) == PageOf(tables[0], q).items
    ensures Items(Follow(tables, q)) <= Selected(tables[0], q, q.afterId)
    ensures Finished(Follow(tables, q)) ==> Items(Follow(tables, q)) == Selected(tables[0], q, q.afterId)
  {
    var page := PageOf(tables[0], q);
    if page.nextAfterId.Some? {
      assert Follow(tables[1..], q.(afterId := page.nextAfterId.value)) == [];
    }
    assert [page][1..] == [] && page.items + [] == page.items;
    PageSplits(tables[0], tables[0], q);
  }

  // ---------- Main results ----------

  /** With any appends between the fetches: the rows read so far are the front of what the
      query selects in the last table that was read, each once and in id order, and all of it
      when the last page has no successor.  Nothing present at the first fetch is lost. */
  lemma {:induction false} FollowReadsSelection(tables: seq<seq<Row>>, q: Query)
    requires Grows(tables) && tables != [] && q.limit > 0
    ensures 1 <= |Follow(tables, q)| <= |tables|
    ensures var pages := Follow(tables, q);
      var read := tables[|pages| - 1];
      && Items(pages) <= Selected(read, q, q.afterId)
      && (Finished(pages) ==> Items(pages) == Selected(read, q, q.afterId))
      && Selected(tables[0], q, q.afterId) <= Selected(read, q, q.afterId)
    decreases |tables|
  {
    var page := PageOf(tables[0], q);
    if page.nextAfterId.None? || |tables| == 1 {
      OnePage(tables, q);
    } else {
      var rest, p := tables[1..], q.(afterId := page.nextAfterId.value);
      TailGrows(tables);
      FollowReadsSelection(rest, p);
      var tail := FollowStep(tables, q);
      TablesGrow(tables, 0, |tail|);
      assert rest[|tail| - 1] == tables[|tail|];
      PageThenRest(tables[0], tables[|tail|], q, Items(tail), Finished(tail));
    }
  }

  /** Rows are read in strictly increasing id order, even while the log grows. */
  lemma FollowIsOrdered(tables: seq<seq<Row>>, q: Query)
    requires Grows(tables) && tables != [] && q.limit > 0
    ensures var items := Items(Follow(tables, q));
      forall i, j :: 0 <= i < j < |items| ==> items[i].id < items[j].id
  {
    FollowReadsSelection(tables, q);
    SelectedFacts(tables[|Follow(tables, q)| - 1], q, q.afterId);
  }

  function Repeat(rows: seq<Row>, n: nat): seq<seq<Row>> {
    seq(n, _ => rows)
  }

  /** A page with a successor is not empty, so a crawl that is still unfinished has read at
      least one row a fetch. */
  lemma {:induction false} UnfinishedReadsRows(tables: seq<seq<Row>>, q: Query)
    requires Grows(tables) && q.limit > 0 && !Finished(Follow(tables, q))
    ensures |Items(Follow(tables, q))| >= |tables|
    decreases |tables|
  {
    if tables != [] {
      var page := PageOf(tables[0], q);
      if page.nextAfterId.Some? {
        PageSplits(tables[0], tables[0], q);
        TailGrows(tables);
        var tail := FollowStep(tables, q);
        UnfinishedReadsRows(tables[1..], q.(afterId := page.nextAfterId.value));
      }
    }
  }

  /** On a fixed table the crawl ends after at most one fetch more than there are rows, and has
      then read exactly the matching rows. */
  lemma FollowTerminates(rows: seq<Row>, q: Query)
    requires Increasing(rows) && q.limit > 0
    ensures var pages := Follow(Repeat(rows, |rows| + 1), q);
      Finished(pages) && Items(pages) == Selected(rows, q, q.afterId)
  {
    var tables := Repeat(rows, |rows| + 1);
    FollowReadsSelection(tables, q);
    SelectedFacts(rows, q, q.afterId);
    if !Finished(Follow(tables, q)) {
      UnfinishedReadsRows(tables, q);
    }
  }
}
