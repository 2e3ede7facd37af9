/**
  A pass of a worker over a listing: the events spent on each listed row, and the states
  between.  An aborted pass ends with the row whose turn raised an exception.
  */
module Passes {
  datatype Pass<S, E> = Pass(ids: seq<nat>, states: seq<S>, chunks: seq<seq<E>>, aborted: bool)

  /** From which state, which row, with which events, whether an exception ends the pass there,
      and to which state. */
  type Turn<!S, !E> = (S, nat, seq<E>, bool, S) -> bool

  ghost predicate Shaped<S, E>(p: Pass<S, E>, s: S, s': S) {
    && |p.states| == |p.chunks| + 1 && |p.chunks| <= |p.ids|
    && p.states[0] == s && p.states[|p.chunks|] == s'
  }

  /** Every listed row has had its turn in order, or the last turn ended in an exception. */
  ghost predicate PassRuns<S, E>(p: Pass<S, E>, s: S, s': S, turn: Turn<S, E>) {
    && Shaped(p, s, s')
    && (if p.aborted then |p.chunks| > 0 else |p.chunks| == |p.ids|)
    && forall k :: 0 <= k < |p.chunks| ==>
         turn(p.states[k], p.ids[k], p.chunks[k], p.aborted && k == |p.chunks| - 1, p.states[k + 1])
  }

  /** The first rows of a pass have had their turn, without an exception. */
  ghost predicate PassSoFar<S, E>(p: Pass<S, E>, s: S, s': S, turn: Turn<S, E>) {
    && Shaped(p, s, s') && !p.aborted
    && forall k :: 0 <= k < |p.chunks| ==> turn(p.states[k], p.ids[k], p.chunks[k], false, p.states[k + 1])
  }

  /** Some row's turn is `good`. */
  ghost predicate AnyTurn<S, E>(p: Pass<S, E>, good: (S, seq<E>) -> bool) {
    |p.states| == |p.chunks| + 1 && exists k :: 0 <= k < |p.chunks| && good(p.states[k], p.chunks[k])
  }

  function Begun<S, E>(ids: seq<nat>, s: S): Pass<S, E> {
    Pass(ids, [s], [], false)
  }

  function Grown<S, E>(p: Pass<S, E>, es: seq<E>, s: S, aborted: bool): Pass<S, E> {
    Pass(p.ids, p.states + [s], p.chunks + [es], aborted)
  }

  lemma TurnTaken<S, E>(p: Pass<S, E>, s: S, s': S, s'': S, turn: Turn<S, E>, es: seq<E>, aborted: bool)
    requires PassSoFar(p, s, s', turn) && |p.chunks| < |p.ids| && turn(s', p.ids[|p.chunks|], es, aborted, s'')
    ensures var q := Grown(p, es, s'', aborted);
      if aborted then PassRuns(q, s, s'', turn) else PassSoFar(q, s, s'', turn)
  {}

  lemma TurnCounts<S, E>(p: Pass<S, E>, s'': S, es: seq<E>, aborted: bool, good: (S, seq<E>) -> bool)
    requires |p.states| == |p.chunks| + 1
    ensures AnyTurn(Grown(p, es, s'', aborted), good) <==> AnyTurn(p, good) || good(p.states[|p.chunks|], es)
  {
    var q, n := Grown(p, es, s'', aborted), |p.chunks|;
    assert q.states[n] == p.states[n] && q.chunks[n] == es;
    if AnyTurn(p, good) {
      var k :| 0 <= k < n && good(p.states[k], p.chunks[k]);
      assert good(q.states[k], q.chunks[k]);
    }
  }

  /** One more row of a pass. */
  lemma TakeTurn<S, E>(p: Pass<S, E>, s: S, s': S, s'': S, turn: Turn<S, E>, good: (S, seq<E>) -> bool,
                       es: seq<E>, aborted: bool)
    returns (q: Pass<S, E>)
    requires PassSoFar(p, s, s', turn) && |p.chunks| < |p.ids| && turn(s', p.ids[|p.chunks|], es, aborted, s'')
    ensures q.ids == p.ids && |q.chunks| == |p.chunks| + 1 && q.aborted == aborted
    ensures if aborted then PassRuns(q, s, s'', turn) else PassSoFar(q, s, s'', turn)
    ensures AnyTurn(q, good) <==> AnyTurn(p, good) || good(s', es)
  {
    q := Grown(p, es, s'', aborted);
    TurnTaken(p, s, s', s'', turn, es, aborted);
    TurnCounts(p, s'', es, aborted, good);
  }

  lemma FirstOrRest<S, E>(p: Pass<S, E>, good: (S, seq<E>) -> bool)
    requires |p.states| == |p.chunks| + 1 && p.chunks != [] && p.ids != []
    ensures AnyTurn(p, good) <==> good(p.states[0], p.chunks[0]) || AnyTurn(Rest(p), good)
  {
    var q := Rest(p);
    if AnyTurn(q, good) {
      var k :| 0 <= k < |q.chunks| && good(q.states[k], q.chunks[k]);
      assert good(p.states[k + 1], p.chunks[k + 1]);
    }
    if AnyTurn(p, good) && !good(p.states[0], p.chunks[0]) {
      var k :| 0 <= k < |p.chunks| && good(p.states[k], p.chunks[k]);
      assert good(q.states[k - 1], q.chunks[k - 1]);
    }
  }

  function Rest<S, E>(p: Pass<S, E>): Pass<S, E>
    requires p.ids != [] && p.states != [] && p.chunks != []
  {
    Pass(p.ids[1..], p.states[1..], p.chunks[1..], p.aborted && |p.chunks| > 1)
  }

  /** All events of a pass, in order. */
  function Flat<E>(chunks: seq<seq<E>>): seq<E> {
    if chunks == [] then [] else chunks[0] + Flat(chunks[1..])
  }
}
