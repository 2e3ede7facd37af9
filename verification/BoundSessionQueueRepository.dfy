/**
  The queue table behind the service: one statement per method, ids given out in order and
  never again.
  */
module BoundSessionQueueRepository {
  import opened Options
  import opened Ordering
  import opened BoundSessionQueue

  // ---------- Listings ----------

  /** The ids up to `n` whose rows satisfy `p`, ascending: SELECT ... ORDER BY id. */
  function Listed(rows: map<nat, Item>, n: nat, p: Item -> bool): seq<nat> {
    if n == 0 then []
    else Listed(rows, n - 1, p) + (if n in rows && p(rows[n]) then [n] else [])
  }

  /** `max(1, min(limit, 100))`. */
  function SafeLimit(limit: int): nat {
    if limit < 1 then 1 else if limit > 100 then 100 else limit
  }

  function Limited(ids: seq<nat>, limit: int): seq<nat> {
    if |ids| > SafeLimit(limit) then ids[..SafeLimit(limit)] else ids
  }

  predicate Ascends(ids: seq<nat>) {
    forall k, l :: 0 <= k < l < |ids| ==> ids[k] < ids[l]
  }

  lemma {:induction false} ListedIsSelection(rows: map<nat, Item>, n: nat, p: Item -> bool)
    ensures Ascends(Listed(rows, n, p))
    ensures forall i: nat :: i in Listed(rows, n, p) <==> 0 < i <= n && i in rows && p(rows[i])
  {
    if n > 0 {
      ListedIsSelection(rows, n - 1, p);
      var head := Listed(rows, n - 1, p);
      assert forall k :: 0 <= k < |head| ==> head[k] in head;
    }
  }

  /** A listing holds only rows that satisfy the condition, each once; a row that does and is
      not listed comes after as many listed rows as the limit allows. */
  lemma LimitedIsSelection(rows: map<nat, Item>, n: nat, p: Item -> bool, limit: int)
    ensures var ids := Limited(Listed(rows, n, p), limit);
      && Ascends(ids) && |ids| <= SafeLimit(limit)
      && (forall i :: i in ids ==> 0 < i <= n && i in rows && p(rows[i]))
      && forall i: nat :: 0 < i <= n && i in rows && p(rows[i]) && i !in ids ==>
           |ids| == SafeLimit(limit) && forall j :: j in ids ==> j < i
  {
    ListedIsSelection(rows, n, p);
    var all, ids := Listed(rows, n, p), Limited(Listed(rows, n, p), limit);
    assert forall i :: i in ids ==> i in all;
    forall i: nat, j | i in all && i !in ids && j in ids
      ensures j < i
    {
      var k, l :| 0 <= k < |all| && all[k] == i && 0 <= l < |ids| && ids[l] == j;
      assert all[l] == j && l < k;
    }
  }

  // ---------- Counts ----------

  function WaitsIn(session: string): Item -> bool {
    (r: Item) => r.session == session && NonTerminal(r)
  }

  lemma {:induction false} ListedCounts(rows: map<nat, Item>, n: nat, p: Item -> bool)
    ensures |Listed(rows, n, p)| == |set i: nat | 0 < i <= n && i in rows && p(rows[i])|
  {
    var upTo := set i: nat | 0 < i <= n && i in rows && p(rows[i]);
    if n == 0 {
      assert upTo == {};
    } else {
      ListedCounts(rows, n - 1, p);
      var before := set i: nat | 0 < i <= n - 1 && i in rows && p(rows[i]);
      assert upTo == if n in rows && p(rows[n]) then before + {n} else before;
    }
  }

  /** How many selected rows have a smaller id is where the row stands in the listing. */
  lemma {:induction false} CountIsPosition(rows: map<nat, Item>, n: nat, p: Item -> bool, id: nat)
    requires 0 < id <= n && id in rows && p(rows[id])
    ensures var k := |set i: nat | 0 < i < id && i in rows && p(rows[i])|;
      k < |Listed(rows, n, p)| && Listed(rows, n, p)[k] == id
  {
    if n == id {
      ListedCounts(rows, n - 1, p);
      assert (set i: nat | 0 < i < id && i in rows && p(rows[i]))
          == set i: nat | 0 < i <= n - 1 && i in rows && p(rows[i]);
    } else {
      CountIsPosition(rows, n - 1, p, id);
    }
  }

  // ---------- The repository ----------

  class QueueRepository {
    var rows: map<nat, Item>
    var lastId: nat

    constructor ()
      ensures rows == map[] && lastId == 0
    {
      rows, lastId := map[], 0;
    }

    /** Every row has an id that was given out. */
    predicate IdsGiven()
      reads this
    {
      forall i :: i in rows ==> 0 < i <= lastId
    }

    method Create(row: Item) returns (id: nat)
      modifies this
      ensures id == old(lastId) + 1 == lastId && rows == old(rows)[id := row]
      ensures old(IdsGiven()) ==> id !in old(rows) && IdsGiven()
    {
      lastId := lastId + 1;
      id := lastId;
      rows := rows[id := row];
    }

    /** A full-row UPDATE; false when the row is gone and reloading it fails. */
    method Update(id: nat, row: Item) returns (ok: bool)
      modifies `rows
      ensures ok == (id in old(rows))
      ensures rows == if ok then old(rows)[id := row] else old(rows)
    {
      ok := id in rows;
      if ok {
        rows := rows[id := row];
      }
    }

    /** Takes a queued row, or one whose start has been pending since `staleBefore`. */
    method ClaimStarting(id: nat, staleBefore: int, now: int) returns (claimed: Option<Item>)
      modifies `rows
      ensures claimed.Some? <==>
        && id in old(rows)
        && (old(rows)[id].status.Queued?
            || (old(rows)[id].status.Starting? && old(rows)[id].updatedAt <= staleBefore))
      ensures claimed.Some? ==>
        claimed.value == ClaimedRow(old(rows)[id], now) && rows == old(rows)[id := claimed.value]
      ensures claimed.None? ==> rows == old(rows)
    {
      if id in rows && (rows[id].status.Queued? || (rows[id].status.Starting? && rows[id].updatedAt <= staleBefore)) {
        rows := rows[id := rows[id].(status := Starting, updatedAt := now)];
        return Some(rows[id]);
      }
      return None;
    }

    /** `list_ready_to_start` and `list_waiting_for_result`. */
    method ListWhere(p: Item -> bool, limit: int) returns (ids: seq<nat>)
      ensures ids == Limited(Listed(rows, lastId, p), limit)
    {
      ids := [];
      for i := 0 to lastId
        invariant ids == Listed(rows, i, p)
      {
        if i + 1 in rows && p(rows[i + 1]) {
          ids := ids + [i + 1];
        }
      }
      ids := Limited(ids, limit);
    }

    method ListPendingQueueCleanup(limit: int, staleBefore: int) returns (ids: seq<nat>)
      ensures Oldest(DueTimes(rows, staleBefore), SafeLimit(limit), ids)
    {
      var all := SortByTime(DueTimes(rows, staleBefore));
      ids := Limited(all, limit);
      CutIsOldest(DueTimes(rows, staleBefore), all, SafeLimit(limit), ids);
    }

    /** SELECT COUNT(*): the table is read row by row. */
    method CountWhere(p: (nat, Item) -> bool) returns (n: nat)
      ensures n == |set i | i in rows && p(i, rows[i])|
    {
      n := 0;
      var rest := rows.Keys;
      while rest != {}
        invariant rest <= rows.Keys
        invariant n == |set i | i in rows && i !in rest && p(i, rows[i])|
        decreases |rest|
      {
        var i :| i in rest;
        ghost var counted := set j | j in rows && j !in rest && p(j, rows[j]);
        rest := rest - {i};
        assert (set j | j in rows && j !in rest && p(j, rows[j])) == if p(i, rows[i]) then counted + {i} else counted;
        if p(i, rows[i]) {
          n := n + 1;
        }
      }
      assert (set i | i in rows && i !in rest && p(i, rows[i])) == set i | i in rows && p(i, rows[i]);
    }

    /** For an unfinished row, its position in the queue of its session; for an unknown id nothing
        joins, and the count is zero. */
    method CountNonTerminalAhead(id: nat) returns (n: nat)
      ensures id !in rows ==> n == 0
      ensures id in rows ==> n == |set i | i in rows && i < id && WaitsIn(rows[id].session)(rows[i])|
      ensures IdsGiven() && id in rows && NonTerminal(rows[id]) ==>
        var queue := Listed(rows, lastId, WaitsIn(rows[id].session));
        n < |queue| && queue[n] == id
    {
      if id !in rows {
        return 0;
      }
      var session := rows[id].session;
      var ahead := (i: nat, r: Item) => i < id && r.session == session && NonTerminal(r);
      n := CountWhere(ahead);
      assert (set i | i in rows && ahead(i, rows[i])) == set i | i in rows && i < id && WaitsIn(session)(rows[i]);
      if IdsGiven() && NonTerminal(rows[id]) {
        CountIsPosition(rows, lastId, WaitsIn(session), id);
        assert (set i: nat | 0 < i < id && i in rows && WaitsIn(session)(rows[i]))
            == set i | i in rows && i < id && WaitsIn(session)(rows[i]);
      }
    }

    /** The length of the queue of the session. */
    method CountNonTerminalBySession(session: string) returns (n: nat)
      ensures n == |set i | i in rows && WaitsIn(session)(rows[i])|
      ensures IdsGiven() ==> n == |Listed(rows, lastId, WaitsIn(session))|
    {
      var waiting := (i: nat, r: Item) => r.session == session && NonTerminal(r);
      n := CountWhere(waiting);
      assert (set i | i in rows && waiting(i, rows[i])) == set i | i in rows && WaitsIn(session)(rows[i]);
      if IdsGiven() {
        ListedCounts(rows, lastId, WaitsIn(session));
        assert (set i: nat | 0 < i <= lastId && i in rows && WaitsIn(session)(rows[i]))
            == set i | i in rows && WaitsIn(session)(rows[i]);
      }
    }

    /** SELECT 1 ... LIMIT 1: the table is read up to the first row that stands for the run. */
    method HasNonTerminalItemForRun(run: string) returns (found: bool)
      ensures found <==> exists i :: i in rows && rows[i].run == Some(run) && NonTerminal(rows[i])
    {
      var rest := rows.Keys;
      while rest != {}
        invariant rest <= rows.Keys
        invariant forall i :: i in rows && i !in rest ==> !(rows[i].run == Some(run) && NonTerminal(rows[i]))
        decreases |rest|
      {
        var i :| i in rest;
        if rows[i].run == Some(run) && NonTerminal(rows[i]) {
          return true;
        }
        rest := rest - {i};
      }
      return false;
    }

    method DeleteByProject(project: string)
      modifies `rows
      ensures rows == map i | i in old(rows) && old(rows)[i].project != project :: old(rows)[i]
    {
      rows := map i | i in rows && rows[i].project != project :: rows[i];
    }
  }

  predicate ReadyToStart(r: Item, readyAt: int) {
    r.status.Queued? && r.nextAttemptAt <= readyAt
  }

  predicate CleanupDue(r: Item, staleBefore: int) {
    r.cleanup.CleanupPending? || (r.cleanup.Cleaning? && r.updatedAt <= staleBefore)
  }

  function DueTimes(rows: map<nat, Item>, staleBefore: int): map<nat, int> {
    map i | i in rows && CleanupDue(rows[i], staleBefore) :: rows[i].updatedAt
  }
}
