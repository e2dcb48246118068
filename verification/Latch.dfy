/** A bit that some events of a history set and others clear. */
module Latch {
  /** Some of the first `n` events set the bit, and none after it cleared it. */
  ghost predicate On(n: nat, sets: nat -> bool, clears: nat -> bool) {
    exists i | 0 <= i < n :: sets(i) && forall j | i < j < n :: !clears(j)
  }

  lemma Next(n: nat, sets: nat -> bool, clears: nat -> bool)
    ensures On(n + 1, sets, clears) <==> sets(n) || (On(n, sets, clears) && !clears(n))
  {
    if On(n, sets, clears) && !clears(n) {
      var i :| 0 <= i < n && sets(i) && forall j | i < j < n :: !clears(j);
      assert forall j | i < j < n + 1 :: !clears(j);
    }
  }

  lemma Never(sets: nat -> bool, clears: nat -> bool)
    ensures !On(0, sets, clears)
  {
  }
}
