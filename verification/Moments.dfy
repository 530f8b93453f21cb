/** What has happened in a run and has not been undone since. */
module Moments {
  /** Something happened among the first n moments that nothing later among them has undone. */
  ghost predicate Since(happens: nat -> bool, undoes: nat -> bool, n: nat) {
    exists j :: 0 <= j < n && happens(j) && NotUndone(undoes, j, n)
  }

  ghost predicate NotUndone(undoes: nat -> bool, j: nat, n: nat) {
    forall k :: j < k < n ==> !undoes(k)
  }

  lemma SinceNext(happens: nat -> bool, undoes: nat -> bool, n: nat)
    ensures Since(happens, undoes, n + 1) <==> happens(n) || (Since(happens, undoes, n) && !undoes(n))
  {
    if happens(n) { assert NotUndone(undoes, n, n + 1); }
    if Since(happens, undoes, n) && !undoes(n) {
      var j :| 0 <= j < n && happens(j) && NotUndone(undoes, j, n);
      assert NotUndone(undoes, j, n + 1);
    }
    if Since(happens, undoes, n + 1) {
      var j :| 0 <= j < n + 1 && happens(j) && NotUndone(undoes, j, n + 1);
      if j < n { assert NotUndone(undoes, j, n); }
    }
  }

  /** What every such change brings about, and only its undoing ends, holds as long as it has happened and not been undone. */
  ghost predicate Lasts(holds: nat -> bool, happens: nat -> bool, undoes: nat -> bool, n: nat) {
    forall k: nat :: k < n ==> LastsAt(holds, happens, undoes, k)
  }

  predicate LastsAt(holds: nat -> bool, happens: nat -> bool, undoes: nat -> bool, k: nat) {
    happens(k) || (holds(k) && !undoes(k)) ==> holds(k + 1)
  }

  lemma {:induction false} SinceHolds(holds: nat -> bool, happens: nat -> bool, undoes: nat -> bool, n: nat, end: nat)
    requires n <= end && Lasts(holds, happens, undoes, end)
    ensures Since(happens, undoes, n) ==> holds(n)
    decreases n
  {
    if n > 0 {
      SinceHolds(holds, happens, undoes, n - 1, end);
      SinceNext(happens, undoes, n - 1);
      assert LastsAt(holds, happens, undoes, n - 1);
    }
  }
}
