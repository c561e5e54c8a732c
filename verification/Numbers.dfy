/** Powers of two. */
module Numbers {
  function Power2(n: nat): (p: nat)
    ensures p >= 1
  {
    if n == 0 then 1 else 2 * Power2(n - 1)
  }

  lemma {:induction false} PowersGrow(m: nat, n: nat)
    requires m <= n
    ensures Power2(m) <= Power2(n)
    decreases n
  {
    if m < n { PowersGrow(m, n - 1); }
  }

  lemma {:induction false} PowersAdd(m: nat, n: nat)
    ensures Power2(m + n) == Power2(m) * Power2(n)
  {
    if m > 0 { PowersAdd(m - 1, n); }
  }
}
