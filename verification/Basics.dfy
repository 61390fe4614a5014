/** Notions that several components share. */
module Basics {
  type AccountId = nat

  /** A day in milliseconds. */
  const DAY := 86_400_000

  function Min(a: int, b: int): int { if a < b then a else b }

  lemma SmallProduct(m: int, d: int)
    requires m > 0 && m * d < m
    ensures d <= 0
  {
    assert m * (d - 1) < 0;
  }

  function Pow2(e: nat): (p: nat)
    ensures p >= 1
  {
    if e == 0 then 1 else 2 * Pow2(e - 1)
  }

  function Repeat<T>(x: T, n: nat): (s: seq<T>)
    ensures |s| == n
  {
    seq(n, _ => x)
  }

  predicate Distinct(s: seq<string>) {
    forall i, j | 0 <= i < j < |s| :: s[i] != s[j]
  }
}
