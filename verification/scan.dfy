/** Left-to-right searches that stop at their first hit. */
module Scan {

  /** The least index j with k <= j < n and p(j), or n when there is none. */
  function FirstFrom(p: nat -> bool, k: nat, n: nat): (r: nat)
    requires k <= n
    decreases n - k
    ensures k <= r <= n
    ensures r < n ==> p(r)
    ensures forall j :: k <= j < r ==> !p(j)
  {
    if k == n then n
    else if p(k) then k
    else FirstFrom(p, k + 1, n)
  }
}
