/** The script's small numeric helper. */
module Misc {
  /** clamp(n, minn, maxn) = max(min(maxn, n), minn) on integers. */
  function Clamp(n: int, minn: int, maxn: int): (r: int)
    ensures r >= minn
    ensures minn <= maxn ==> r <= maxn
    ensures minn <= maxn ==> (r == n <==> minn <= n <= maxn)
    ensures maxn < minn ==> r == minn
    ensures minn <= maxn && n < minn ==> r == minn
    ensures minn <= maxn && maxn < n ==> r == maxn
  {
    var capped := if maxn < n then maxn else n;
    if capped < minn then minn else capped
  }

  /** Clamping twice changes nothing more. */
  lemma ClampIdempotent(n: int, minn: int, maxn: int)
    ensures Clamp(Clamp(n, minn, maxn), minn, maxn) == Clamp(n, minn, maxn)
  {
  }

  /** Clamping keeps order. */
  lemma ClampMonotone(n: int, m: int, minn: int, maxn: int)
    requires n <= m
    ensures Clamp(n, minn, maxn) <= Clamp(m, minn, maxn)
  {
  }
}
