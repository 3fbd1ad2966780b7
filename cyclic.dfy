/** Index arithmetic of a carousel with `n` slides that wraps around at both ends. */
module Cyclic {

  /** The slide after `i`: `(i + 1) % n`. */
  function Succ(i: int, n: nat): (r: int)
    requires 0 <= i && n > 0
    ensures 0 <= r < n
    ensures i < n - 1 ==> r == i + 1
    ensures i == n - 1 ==> r == 0
  {
    (i + 1) % n
  }

  /** The slide before `i`: `(i - 1 + n) % n`. */
  function Pred(i: int, n: nat): (r: int)
    requires 0 <= i < n
    ensures 0 <= r < n
    ensures 0 < i ==> r == i - 1
    ensures i == 0 ==> r == n - 1
  {
    (i - 1 + n) % n
  }

  /** Going forward then back, or back then forward, returns to the same slide. */
  lemma SuccPredInverse(i: int, n: nat)
    requires 0 <= i < n
    ensures Pred(Succ(i, n), n) == i
    ensures Succ(Pred(i, n), n) == i
  {
  }

  /** The slide reached after `k` forward steps from `i`. */
  function Advance(i: int, n: nat, k: nat): (r: int)
    requires 0 <= i < n
    ensures 0 <= r < n
  {
    if k == 0 then i else Succ(Advance(i, n, k - 1), n)
  }

  /** Within two turns of the carousel, `k` forward steps from `i` land on
      `i + k`, wrapped once past the last slide. */
  lemma {:induction false} AdvanceWithinTwoTurns(i: int, n: nat, k: nat)
    requires 0 <= i < n && i + k < 2 * n
    ensures Advance(i, n, k) == if i + k < n then i + k else i + k - n
  {
    if k > 0 {
      AdvanceWithinTwoTurns(i, n, k - 1);
    }
  }

  /** `n` forward steps go once round the carousel and come back to the start. */
  lemma FullCycle(i: int, n: nat)
    requires 0 <= i < n
    ensures Advance(i, n, n) == i
  {
    AdvanceWithinTwoTurns(i, n, n);
  }
}
