/** Sums over the ids 1 to `n`. */
module Sums {
  function Total(w: nat -> nat, n: nat): nat {
    if n == 0 then 0 else Total(w, n - 1) + w(n)
  }

  /** When nothing grows and the weight at `id` goes down by `d`, so does the sum. */
  lemma {:induction false} TotalMoves(before: nat -> nat, after: nat -> nat, n: nat, id: nat, d: int)
    requires forall i: nat :: i != id ==> after(i) <= before(i)
    requires after(id) + d <= before(id)
    ensures Total(after, n) + (if 0 < id <= n then d else 0) <= Total(before, n)
  {
    if n > 0 {
      TotalMoves(before, after, n - 1, id, d);
    }
  }
}
