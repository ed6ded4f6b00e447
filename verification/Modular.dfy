/** Remainders, for counters and indexes that go round. */
module Modular {

  lemma MultipleIsFar(k: int, n: int)
    requires n > 0
    ensures k >= 1 ==> k * n >= n
    ensures k <= -1 ==> k * n <= -n
  {
    if k >= 1 {
      assert (k - 1) * n >= 0;
    } else if k <= -1 {
      assert (-k - 1) * n >= 0;
    }
  }

  lemma ModUnique(x: nat, n: nat, q: nat, r: nat)
    requires n > 0 && x == q * n + r && r < n
    ensures x % n == r
  {
    var q', r' := x / n, x % n;
    assert x == q' * n + r';
    MultipleIsFar(q' - q, n);
    assert (q' - q) * n == q' * n - q * n;
  }

  // ---------------------------------------------------------------------------
  // The same with named operations, to reason without nonlinear terms
  // ---------------------------------------------------------------------------

  function Times(q: nat, n: nat): nat {
    q * n
  }

  function Rem(x: nat, n: nat): (r: nat)
    requires n > 0
    ensures r < n
  {
    x % n
  }

  lemma Divide(x: nat, n: nat) returns (q: nat)
    requires n > 0
    ensures x == Times(q, n) + Rem(x, n)
  {
    q := x / n;
  }

  lemma RemIs(x: nat, n: nat, q: nat, r: nat)
    requires r < n && x == Times(q, n) + r
    ensures Rem(x, n) == r
  {
    ModUnique(x, n, q, r);
  }

  lemma TimesMore(p: nat, q: nat, n: nat)
    ensures Times(p + q, n) == Times(p, n) + Times(q, n) && Times(1, n) == n
  {
  }

  lemma RemShift(x: nat, n: nat, q: nat)
    requires n > 0
    ensures Rem(x + Times(q, n), n) == Rem(x, n)
  {
    hide Times, Rem;
    var p := Divide(x, n);
    TimesMore(p, q, n);
    RemIs(x + Times(q, n), n, p + q, Rem(x, n));
  }

  /** Adding less than n moves the remainder on, round the end. */
  lemma RemMoves(x: nat, d: nat, n: nat)
    requires d < n
    ensures Rem(x + d, n) == if Rem(x, n) + d < n then Rem(x, n) + d else Rem(x, n) + d - n
  {
    hide Times, Rem;
    var q := Divide(x, n);
    var r := Rem(x, n) + d;
    TimesMore(q, 1, n);
    if r < n {
      RemIs(x + d, n, q, r);
    } else {
      RemIs(x + d, n, q + 1, r - n);
    }
  }
}
