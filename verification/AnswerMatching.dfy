/**
  Scoring a database answer: every candidate value must be paired with its own expected
  value, equal or within 0.01.  The comparison is greedy, so it never accepts without a
  pairing, but it can reject although one exists.  The module gives the exact condition on
  the expected values under which it accepts whenever a pairing exists.

  Answers are given in normalised form: "number:" values are reals, the rest are texts.
  */
module AnswerMatching {
  import opened Options

  datatype Answer = Text(text: string) | Number(value: real)

  predicate Near(c: Answer, e: Answer) {
    c == e || (c.Number? && e.Number? && -0.01 <= c.value - e.value <= 0.01)
  }

  // ---------- The greedy comparison ----------

  /** The least unmatched index whose expected value is near `c`. */
  function FirstFree(c: Answer, expected: seq<Answer>, matched: seq<bool>): (r: Option<nat>)
    requires |matched| == |expected|
    ensures r.Some? ==> r.value < |expected| && !matched[r.value] && Near(c, expected[r.value])
    ensures r.None? ==> forall i :: 0 <= i < |expected| && !matched[i] ==> !Near(c, expected[i])
  {
    if expected == [] then None
    else if !matched[0] && Near(c, expected[0]) then Some(0)
    else match FirstFree(c, expected[1..], matched[1..])
      case None => None
      case Some(i) => Some(i + 1)
  }

  predicate Greedy(candidates: seq<Answer>, expected: seq<Answer>, matched: seq<bool>)
    requires |matched| == |expected|
  {
    if candidates == [] then true
    else match FirstFree(candidates[0], expected, matched)
      case None => false
      case Some(i) => Greedy(candidates[1..], expected, matched[i := true])
  }

  function Unmatched(n: nat): seq<bool> {
    seq(n, _ => false)
  }

  predicate Accepts(candidates: seq<Answer>, expected: seq<Answer>) {
    |candidates| == |expected| && Greedy(candidates, expected, Unmatched(|expected|))
  }

  method CompareDbAnswers(candidates: seq<Answer>, expected: seq<Answer>) returns (ok: bool)
    ensures ok == Accepts(candidates, expected)
  {
    if |candidates| != |expected| {
      return false;
    }
    var matched := new bool[|expected|](_ => false);
    assert matched[..] == Unmatched(|expected|);
    for k := 0 to |candidates|
      invariant Accepts(candidates, expected) == Greedy(candidates[k..], expected, matched[..])
    {
      var found := false;
      ghost var before := matched[..];
      assert candidates[k..][1..] == candidates[k + 1..];
      for index := 0 to |expected|
        invariant !found && matched[..] == before
        invariant forall i :: 0 <= i < index ==> before[i] || !Near(candidates[k], expected[i])
      {
        if !matched[index] && Near(candidates[k], expected[index]) {
          FirstFreeIs(candidates[k], expected, before, index);
          matched[index] := true;
          assert matched[..] == before[index := true];
          found := true;
          break;
        }
      }
      if !found {
        return false;
      }
    }
    return true;
  }

  lemma {:induction false} FirstFreeIs(c: Answer, expected: seq<Answer>, matched: seq<bool>, i: nat)
    requires |matched| == |expected| && i < |expected|
    requires !matched[i] && Near(c, expected[i])
    requires forall j :: 0 <= j < i ==> matched[j] || !Near(c, expected[j])
    ensures FirstFree(c, expected, matched) == Some(i)
  {
    if i > 0 {
      FirstFreeIs(c, expected[1..], matched[1..], i - 1);
    }
  }

  // ---------- Pairings ----------

  ghost predicate Injective(p: seq<nat>) {
    forall i, j :: 0 <= i < j < |p| ==> p[i] != p[j]
  }

  /** `p` pairs each candidate with an expected value of its own, among the unmatched ones. */
  ghost predicate IsPairing(p: seq<nat>, candidates: seq<Answer>, expected: seq<Answer>, matched: seq<bool>)
    requires |matched| == |expected|
  {
    && |p| == |candidates| && Injective(p)
    && forall k :: 0 <= k < |p| ==> p[k] < |expected| && !matched[p[k]] && Near(candidates[k], expected[p[k]])
  }

  ghost predicate Pairable(candidates: seq<Answer>, expected: seq<Answer>) {
    |candidates| == |expected| && exists p :: IsPairing(p, candidates, expected, Unmatched(|expected|))
  }

  /** Unequal expected numbers are more than two tolerances apart. */
  ghost predicate Separated(expected: seq<Answer>) {
    forall i, j :: 0 <= i < |expected| && 0 <= j < |expected| ==> !TooClose(expected[i], expected[j])
  }

  predicate TooClose(a: Answer, b: Answer) {
    a.Number? && b.Number? && a.value != b.value && -0.02 <= a.value - b.value <= 0.02
  }

  /** A greedy success is a pairing, and it starts with the greedy choice. */
  lemma {:induction false} GreedyPairs(candidates: seq<Answer>, expected: seq<Answer>, matched: seq<bool>)
    returns (p: seq<nat>)
    requires |matched| == |expected| && Greedy(candidates, expected, matched)
    ensures IsPairing(p, candidates, expected, matched)
    ensures candidates != [] ==> FirstFree(candidates[0], expected, matched) == Some(p[0])
  {
    p := [];
    if candidates != [] {
      var i := FirstFree(candidates[0], expected, matched).value;
      var rest := GreedyPairs(candidates[1..], expected, matched[i := true]);
      p := [i] + rest;
    }
  }

  /** Exchange argument: under separation the greedy choice can be swapped into any pairing. */
  lemma {:induction false} GreedyFinds(candidates: seq<Answer>, expected: seq<Answer>, matched: seq<bool>, p: seq<nat>)
    requires |matched| == |expected| && Separated(expected) && IsPairing(p, candidates, expected, matched)
    ensures Greedy(candidates, expected, matched)
  {
    if candidates != [] {
      assert !matched[p[0]] && Near(candidates[0], expected[p[0]]);
      var i := FirstFree(candidates[0], expected, matched).value;
      assert expected[i] == expected[p[0]] by {
        assert !TooClose(expected[i], expected[p[0]]);
      }
      var swapped := seq(|p| - 1, k requires 0 <= k < |p| - 1 => if p[k + 1] == i then p[0] else p[k + 1]);
      GreedyFinds(candidates[1..], expected, matched[i := true], swapped);
    }
  }

  // ---------- Separation is necessary ----------

  lemma {:induction false} Pigeonhole(s: set<nat>, t: set<nat>, h: nat -> nat)
    requires forall i :: i in s ==> h(i) in t
    requires forall i, j :: i in s && j in s && h(i) == h(j) ==> i == j
    ensures |s| <= |t|
  {
    if s != {} {
      var i :| i in s;
      Pigeonhole(s - {i}, t - {h(i)}, h);
    }
  }

  ghost predicate Crowded(expected: seq<Answer>, i: nat) {
    i < |expected| && exists j :: 0 <= j < |expected| && TooClose(expected[i], expected[j])
  }

  /** The least number that has an unequal number within two tolerances. */
  lemma {:induction false} LeastCrowded(expected: seq<Answer>, i: nat, below: set<nat>) returns (x: nat)
    requires Crowded(expected, i)
    requires forall j: nat :: Crowded(expected, j) && expected[j].value < expected[i].value ==> j in below
    ensures Crowded(expected, x)
    ensures forall j: nat :: Crowded(expected, j) ==> expected[x].value <= expected[j].value
    decreases below
  {
    if j: nat :| Crowded(expected, j) && expected[j].value < expected[i].value {
      x := LeastCrowded(expected, j, below - {j});
    } else {
      x := i;
    }
  }

  /** The place of the candidate made for index `i` when the one made for `q` goes first. */
  function Place(q: nat, i: nat): nat {
    if i == q then 0 else if i < q then i + 1 else i
  }

  function Unplace(q: nat, k: nat): nat {
    if k == 0 then q else if k <= q then k - 1 else k
  }

  /** Candidates made index by index, the one for `q` moved to the front. */
  function Made(n: nat, q: nat, w: nat -> Answer): (c: seq<Answer>)
    ensures |c| == n && forall k: nat :: k < n ==> c[k] == w(Unplace(q, k))
  {
    seq(n, (k: nat) => w(Unplace(q, k)))
  }

  lemma MadeIsPairable(expected: seq<Answer>, q: nat, w: nat -> Answer)
    requires q < |expected| && forall i :: 0 <= i < |expected| ==> Near(w(i), expected[i])
    ensures Pairable(Made(|expected|, q, w), expected)
  {
    var p := seq(|expected|, (k: nat) => Unplace(q, k));
    assert IsPairing(p, Made(|expected|, q, w), expected, Unmatched(|expected|));
  }

  lemma PairingAt(p: seq<nat>, c: seq<Answer>, expected: seq<Answer>, k: nat, l: nat)
    requires IsPairing(p, c, expected, Unmatched(|expected|)) && k < |c| && l < |c|
    ensures p[k] < |expected| && Near(c[k], expected[p[k]])
    ensures p[k] == p[l] ==> k == l
  {}

  /** If the comparison accepts the made candidates, it sends them, index by index and one to
      one, to expected values they are near; the front one goes to its greedy choice. */
  lemma MadeAccepted(expected: seq<Answer>, q: nat, w: nat -> Answer) returns (h: nat -> nat)
    requires q < |expected| && Accepts(Made(|expected|, q, w), expected)
    ensures forall i: nat :: i < |expected| ==> h(i) < |expected| && Near(w(i), expected[h(i)])
    ensures forall i: nat, j: nat :: i < |expected| && j < |expected| && h(i) == h(j) ==> i == j
    ensures FirstFree(w(q), expected, Unmatched(|expected|)) == Some(h(q))
  {
    var n, c := |expected|, Made(|expected|, q, w);
    var g := GreedyPairs(c, expected, Unmatched(n));
    h := (i: nat) => if i < |g| then g[Place(q, i)] else 0;
    assert c[0] == w(Unplace(q, 0));
    forall i: nat, j: nat | i < n && j < n
      ensures h(i) < n && Near(w(i), expected[h(i)]) && (h(i) == h(j) ==> i == j)
    {
      assert c[Place(q, i)] == w(Unplace(q, Place(q, i))) == w(i);
      PairingAt(g, c, expected, Place(q, i), Place(q, j));
    }
  }

  /** If the candidates made for the indices in `s` can only go to a set that is too small,
      the comparison rejects.  The greedy choice sends the front candidate to `first`. */
  lemma TooFewPlaces(expected: seq<Answer>, q: nat, w: nat -> Answer, first: nat, s: set<nat>, t: set<nat>)
    requires q < |expected| && FirstFree(w(q), expected, Unmatched(|expected|)) == Some(first)
    requires |t| < |s| && forall i :: i in s ==> i < |expected|
    requires forall i: nat, j: nat :: i in s && i != q && j < |expected| && j != first && Near(w(i), expected[j]) ==>
      j in t
    requires q in s ==> first in t
    ensures !Accepts(Made(|expected|, q, w), expected)
  {
    if Accepts(Made(|expected|, q, w), expected) {
      var h := MadeAccepted(expected, q, w);
      Pigeonhole(s, t, h);
    }
  }

  /** A least crowded number `x`, its close neighbour `y`, and the value between them. */
  ghost predicate Crowd(expected: seq<Answer>, ix: nat, iy: nat, middle: Answer) {
    && ix < |expected| && iy < |expected|
    && TooClose(expected[ix], expected[iy])
    && middle == Number((expected[ix].value + expected[iy].value) / 2.0)
    && forall k :: 0 <= k < |expected| && expected[k].Number? && expected[k].value < expected[ix].value ==>
         expected[k].value < expected[ix].value - 0.02
  }

  lemma FindCrowd(expected: seq<Answer>) returns (ix: nat, iy: nat, middle: Answer)
    requires !Separated(expected)
    ensures Crowd(expected, ix, iy, middle)
    ensures FirstFree(middle, expected, Unmatched(|expected|)).Some?
  {
    var n := |expected|;
    var i, j :| 0 <= i < n && 0 <= j < n && TooClose(expected[i], expected[j]);
    assert Crowded(expected, i);
    ix := LeastCrowded(expected, i, set k: nat | k < n && Crowded(expected, k));
    iy :| 0 <= iy < n && TooClose(expected[ix], expected[iy]);
    middle := Number((expected[ix].value + expected[iy].value) / 2.0);
    assert TooClose(expected[iy], expected[ix]) && Crowded(expected, iy);
    forall k | 0 <= k < n && expected[k].Number? && expected[k].value < expected[ix].value
      ensures expected[k].value < expected[ix].value - 0.02
    {
      assert !Crowded(expected, k) && !TooClose(expected[k], expected[ix]);
    }
    assert Near(middle, expected[ix]);
  }

  /** The middle value takes an x; one candidate too many can only be an x. */
  lemma MiddleTakesX(expected: seq<Answer>, ix: nat, iy: nat, middle: Answer, first: nat)
    returns (candidates: seq<Answer>)
    requires Crowd(expected, ix, iy, middle) && FirstFree(middle, expected, Unmatched(|expected|)) == Some(first)
    requires expected[first] == expected[ix]
    ensures Pairable(candidates, expected) && !Accepts(candidates, expected)
  {
    var n, x := |expected|, expected[ix];
    var xs := set k: nat | k < n && expected[k] == x;
    var w := (k: nat) =>
      if k == iy || k >= n then middle else if expected[k] == x then Number(x.value - 0.01) else expected[k];
    MadeIsPairable(expected, iy, w);
    TooFewPlaces(expected, iy, w, first, xs, xs - {first});
    candidates := Made(n, iy, w);
  }

  /** The middle value takes another number; too few candidates are left for the x's. */
  lemma MiddleTakesOther(expected: seq<Answer>, ix: nat, iy: nat, middle: Answer, first: nat)
    returns (candidates: seq<Answer>)
    requires Crowd(expected, ix, iy, middle) && FirstFree(middle, expected, Unmatched(|expected|)) == Some(first)
    requires expected[first] != expected[ix]
    ensures Pairable(candidates, expected) && !Accepts(candidates, expected)
  {
    var n, x := |expected|, expected[ix];
    var others := set k: nat | k < n && expected[k] != x;
    var w := (k: nat) =>
      if k == ix || k >= n then middle
      else if expected[k] == x || expected[k].Text? then expected[k]
      else Number(expected[k].value + 0.01);
    MadeIsPairable(expected, ix, w);
    TooFewPlaces(expected, ix, w, first, others + {ix}, others);
    candidates := Made(n, ix, w);
  }

  lemma SeparationIsNeeded(expected: seq<Answer>) returns (candidates: seq<Answer>)
    requires !Separated(expected)
    ensures Pairable(candidates, expected) && !Accepts(candidates, expected)
  {
    var ix, iy, middle := FindCrowd(expected);
    var first := FirstFree(middle, expected, Unmatched(|expected|)).value;
    if expected[first] == expected[ix] {
      candidates := MiddleTakesX(expected, ix, iy, middle, first);
    } else {
      candidates := MiddleTakesOther(expected, ix, iy, middle, first);
    }
  }

  // ---------- Main results ----------

  /** Accepting always comes with a one-to-one pairing within tolerance. */
  lemma AcceptsOnlyPairings(candidates: seq<Answer>, expected: seq<Answer>)
    requires Accepts(candidates, expected)
    ensures Pairable(candidates, expected)
  {
    var p := GreedyPairs(candidates, expected, Unmatched(|expected|));
  }

  /** With separated expected values, accepting is the same as having a pairing. */
  lemma AcceptsExactlyPairings(candidates: seq<Answer>, expected: seq<Answer>)
    requires Separated(expected)
    ensures Accepts(candidates, expected) <==> Pairable(candidates, expected)
  {
    if Pairable(candidates, expected) {
      var p :| IsPairing(p, candidates, expected, Unmatched(|expected|));
      GreedyFinds(candidates, expected, Unmatched(|expected|), p);
    }
    if Accepts(candidates, expected) {
      AcceptsOnlyPairings(candidates, expected);
    }
  }

  /** The greedy order is complete for exactly the separated expectations. */
  lemma CompleteIffSeparated(expected: seq<Answer>)
    ensures Separated(expected) <==>
      forall candidates :: Pairable(candidates, expected) ==> Accepts(candidates, expected)
  {
    if Separated(expected) {
      forall candidates | Pairable(candidates, expected)
        ensures Accepts(candidates, expected)
      {
        AcceptsExactlyPairings(candidates, expected);
      }
    } else {
      var candidates := SeparationIsNeeded(expected);
    }
  }

  /** A concrete rejection: 1.005 could go to 1.01, but the greedy order gives it the place of
      1.0, the only one that 0.995 can take. */
  lemma GreedyCanReject()
    ensures var c, e := [Number(1.005), Number(0.995)], [Number(1.0), Number(1.01)];
      Pairable(c, e) && !Accepts(c, e)
  {
    var c, e := [Number(1.005), Number(0.995)], [Number(1.0), Number(1.01)];
    assert IsPairing([1, 0], c, e, Unmatched(2));
    FirstFreeIs(c[0], e, Unmatched(2), 0);
    assert FirstFree(c[1], e, Unmatched(2)[0 := true]).None?;
    assert c[1..] == [Number(0.995)];
  }
}
