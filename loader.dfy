/** The active-request counter behind the loading indicator. */
module Loader {

  /** hideLoader's count: one less, clamped so that it never goes below zero. */
  function AfterHide(n: int): (r: int)
    ensures r >= 0
    ensures n >= 1 ==> r == n - 1
    ensures n < 1 ==> r == 0
  {
    if n - 1 <= 0 then 0 else n - 1
  }

  /** The count after `k` successive hides. */
  function AfterHides(n: int, k: nat): (r: int)
  {
    if k == 0 then n else AfterHide(AfterHides(n, k - 1))
  }

  /** `k` shows followed by `k` hides return any non-negative count to where it was. */
  lemma {:induction false} HidesUndoShows(n: nat, k: nat)
    ensures AfterHides(n + k, k) == n
    decreases k
  {
    if k > 0 {
      HidesUndoShows(n + 1, k - 1);
    }
  }
}
