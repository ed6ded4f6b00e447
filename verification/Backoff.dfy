/** The delay before a retry. */
module Backoff {
  import opened Bytes
  import opened GroupSpec
  import opened Modular

  /** The exponential delay before the cap, in unbounded arithmetic. */
  function Doubled(initial: nat, attempt: nat): nat {
    initial * Pow2(attempt)
  }

  lemma DoubledNext(initial: nat, attempt: nat)
    ensures Doubled(initial, attempt + 1) == 2 * Doubled(initial, attempt)
  {
  }

  lemma WrapSmall(v: int)
    requires -TWO63 <= v < TWO63
    ensures Wrap64(v) == v
  {
  }

  /** While the doubled delay fits 63 bits it is what the retry waits, up to the cap,
      and every further attempt waits at least as long. */
  lemma ExactBackoff(c: Config, attempt: nat)
    requires c.backoff.Exponential? && c.initialDelay >= 0
    requires Doubled(c.initialDelay, attempt) < TWO63
    ensures RetryDelay(c, attempt) == Min(Doubled(c.initialDelay, attempt), c.maxDelay)
    ensures attempt > 0 && c.maxDelay >= 0 ==> RetryDelay(c, attempt - 1) <= RetryDelay(c, attempt)
  {
    UncappedBackoff(c, attempt);
    if attempt > 0 {
      DoubledNext(c.initialDelay, attempt - 1);
      UncappedBackoff(c, attempt - 1);
    }
  }

  lemma ModOfShift(x: int, t: int, n: int)
    requires n > 0
    ensures (x - t * n) % n == x % n
  {
    var q, r := x / n, x % n;
    assert x == q * n + r;
    assert x - t * n == (q - t) * n + r by { assert (q - t) * n == q * n - t * n; }
    var q', r' := (x - t * n) / n, (x - t * n) % n;
    assert x - t * n == q' * n + r';
    MultipleIsFar(q' - (q - t), n);
    assert (q' - (q - t)) * n == q' * n - (q - t) * n;
  }

  /** Wrapping is taking away a multiple of 2^64. */
  lemma WrapShifts(b: int) returns (t: int)
    ensures Wrap64(b) == b - t * TWO64
  {
    var q := b / TWO64;
    t := if b % TWO64 < TWO63 then q else q + 1;
  }

  lemma TimesShift(a: int, b: int, t: int, n: int)
    ensures a * (b - t * n) == a * b - (a * t) * n
  {
  }

  /** Wrapping a factor first does not change the wrapped product. */
  lemma WrapProduct(a: int, b: int)
    ensures Wrap64(a * Wrap64(b)) == Wrap64(a * b)
  {
    var t := WrapShifts(b);
    TimesShift(a, b, t, TWO64);
    ModOfShift(a * b, a * t, TWO64);
  }

  /** What the source waits, by the doubled delay's residue. */
  lemma DelayByResidue(c: Config, attempt: nat)
    requires c.backoff.Exponential? && c.initialDelay >= 0
    ensures RetryDelay(c, attempt) == Min(Signed64(Doubled(c.initialDelay, attempt) % TWO64), c.maxDelay)
  {
    hide Pow2;
    WrapProduct(c.initialDelay, Pow2(attempt));
    assert Wrap64(c.initialDelay * Pow2(attempt)) == Signed64(Doubled(c.initialDelay, attempt) % TWO64);
    hide Wrap64, Doubled;
  }

  /** When a wrapped number and the number itself are the same up to a cap. */
  lemma ResidueReaches(p: nat, cap: Int64)
    ensures Min(Signed64(p % TWO64), cap) == Min(p, cap) <==> p < TWO63 || Signed64(p % TWO64) >= cap
  {
    var r := p % TWO64;
    if p < TWO63 {
      assert r == p;
    } else {
      assert Signed64(r) != p;
    }
  }

  /** The delay is the doubled one up to the cap if and only if the doubling fits 63
      bits, or what is left of it modulo 2^64 still reaches the cap as a signed number:
      for a cap that is not negative, lies between the cap and 2^63. */
  lemma BackoffExactIff(c: Config, attempt: nat)
    requires c.backoff.Exponential? && c.initialDelay >= 0
    ensures var p := Doubled(c.initialDelay, attempt);
            && (RetryDelay(c, attempt) == Min(p, c.maxDelay)
                <==> p < TWO63 || Signed64(p % TWO64) >= c.maxDelay)
            && (c.maxDelay >= 0 ==>
                  (RetryDelay(c, attempt) == Min(p, c.maxDelay)
                   <==> p < TWO63 || c.maxDelay <= p % TWO64 < TWO63))
  {
    DelayByResidue(c, attempt);
    hide Doubled, RetryDelay;
    ResidueReaches(Doubled(c.initialDelay, attempt), c.maxDelay);
  }

  /** The linear delay before the cap, in unbounded arithmetic. */
  function Summed(initial: nat, attempt: nat): nat {
    initial * (attempt + 1)
  }

  lemma LinearByResidue(c: Config, attempt: nat)
    requires c.backoff.Linear? && c.initialDelay >= 0
    ensures RetryDelay(c, attempt) == Min(Signed64(Summed(c.initialDelay, attempt) % TWO64), c.maxDelay)
  {
    WrapProduct(c.initialDelay, attempt + 1);
    assert Wrap64(c.initialDelay * (attempt + 1)) == Signed64(Summed(c.initialDelay, attempt) % TWO64);
    hide Wrap64, Summed;
  }

  /** The linear delay: one more initial delay with each attempt, up to the cap, under the
      same condition. */
  lemma LinearExactIff(c: Config, attempt: nat)
    requires c.backoff.Linear? && c.initialDelay >= 0
    ensures var p := Summed(c.initialDelay, attempt);
            RetryDelay(c, attempt) == Min(p, c.maxDelay) <==> p < TWO63 || Signed64(p % TWO64) >= c.maxDelay
  {
    LinearByResidue(c, attempt);
    hide Summed, RetryDelay;
    ResidueReaches(Summed(c.initialDelay, attempt), c.maxDelay);
  }

  /** A group with nothing set but the doubling: one message at a time, one to a round,
      three attempts, the second two seconds after the first failed and the third four
      after the second, and never more than five minutes. */
  lemma DefaultRetries(c: Config)
    requires c.parallelism <= 0 && c.quantum <= 0 && c.maxAttempts == 0 && c.initialDelay == 0 && c.maxDelay == 0
    requires c.backoff.Exponential?
    ensures var d := WithDefaults(c);
            && d.parallelism == 1 && d.quantum == 1 && d.maxAttempts == 3
            && RetryDelay(d, 1) == 2_000_000_000 && RetryDelay(d, 2) == 4_000_000_000
            && (forall n: nat :: RetryDelay(d, n) <= 300_000_000_000)
            && d == c.(parallelism := 1, quantum := 1, maxAttempts := 3, initialDelay := d.initialDelay,
                       maxDelay := d.maxDelay)
  {
    var d := WithDefaults(c);
    assert Pow2(1) == 2 && Pow2(2) == 4;
    assert Doubled(d.initialDelay, 1) == 2_000_000_000 && Doubled(d.initialDelay, 2) == 4_000_000_000;
    hide Pow2, Doubled;
    UncappedBackoff(d, 1);
    UncappedBackoff(d, 2);
  }

  /** What is set stays as it is. */
  lemma DefaultsRespect(c: Config)
    requires c.parallelism >= 1 && c.quantum >= 1 && c.maxAttempts != 0 && c.initialDelay != 0 && c.maxDelay != 0
    ensures WithDefaults(c) == c
  {
  }

  /** The fixed delay: the initial one up to the cap. */
  lemma FixedBackoff(c: Config, attempt: nat)
    requires c.backoff.Fixed?
    ensures RetryDelay(c, attempt) == Min(c.initialDelay, c.maxDelay)
  {
  }

  lemma {:induction false} ResidueVanishes(initial: nat, attempt: nat)
    requires attempt >= 64
    ensures Doubled(initial, attempt) % TWO64 == 0
  {
    hide Pow2;
    var k := attempt - 64;
    Pow2Adds(k, 64);
    PowersOfTwo();
    var x := initial * Pow2(k);
    assert Doubled(initial, attempt) == x * TWO64 by { Associates(initial, Pow2(k), TWO64); }
    ModOfShift(x * TWO64, x, TWO64);
    assert x * TWO64 - x * TWO64 == 0;
  }

  lemma Associates(a: int, b: int, c: int)
    ensures a * (b * c) == (a * b) * c
  {
  }

  /** From the 64th attempt on nothing is left: the retry is due at once, and the cap is
      never reached, for every positive initial delay. */
  lemma BackoffVanishes(c: Config, attempt: nat)
    requires c.backoff.Exponential? && c.initialDelay > 0 && c.maxDelay > 0 && attempt >= 64
    ensures RetryDelay(c, attempt) == 0 != Min(Doubled(c.initialDelay, attempt), c.maxDelay)
  {
    DelayByResidue(c, attempt);
    ResidueVanishes(c.initialDelay, attempt);
    hide RetryDelay;
    AtLeastOnce(Pow2(attempt), c.initialDelay);
  }

  lemma UncappedBackoff(c: Config, attempt: nat)
    requires c.backoff.Exponential? && c.initialDelay >= 0
    requires Doubled(c.initialDelay, attempt) < TWO63
    ensures RetryDelay(c, attempt) == Min(Doubled(c.initialDelay, attempt), c.maxDelay)
  {
    hide Wrap64, Pow2;
    ProductFits(c.initialDelay, Pow2(attempt));
  }

  lemma ProductFits(n: nat, p: nat)
    requires n * p < TWO63
    ensures Wrap64(n * Wrap64(p)) == n * p
  {
    hide Wrap64;
    if n == 0 {
      Zero(n, Wrap64(p));
      Zero(n, p);
      WrapSmall(0);
    } else {
      AtLeastOnce(n, p);
      WrapSmall(p);
      WrapSmall(n * p);
    }
  }

  lemma Zero(n: nat, x: int)
    requires n == 0
    ensures n * x == 0
  {
  }

  lemma AtLeastOnce(n: nat, p: nat)
    requires n >= 1
    ensures p <= n * p
  {
    assert (n - 1) * p >= 0;
  }

  lemma {:induction false} Pow2Adds(a: nat, b: nat)
    ensures Pow2(a + b) == Pow2(a) * Pow2(b)
    decreases b
  {
    if b > 0 {
      Pow2Adds(a, b - 1);
      assert Pow2(a + b) == 2 * Pow2(a + (b - 1));
    }
  }

  lemma SmallPowers()
    ensures Pow2(2) == 4 && Pow2(32) == 0x1_0000_0000
  {
    assert Pow2(2) == 4;
    Pow2Adds(2, 2);
    Pow2Adds(4, 4);
    Pow2Adds(8, 8);
    Pow2Adds(16, 16);
  }

  lemma PowersOfTwo()
    ensures Pow2(34) == 0x4_0000_0000 && Pow2(64) == TWO64
  {
    hide Pow2;
    SmallPowers();
    Pow2Adds(32, 2);
    Pow2Adds(32, 32);
  }

  /** Past that the product wraps: one second doubled 34 times is a negative delay, and
      the message is due at once. */
  lemma BackoffWraps(c: Config)
    requires c.backoff.Exponential? && c.initialDelay == 1_000_000_000 && c.maxDelay >= 0
    ensures RetryDelay(c, 34) < 0
  {
    hide Pow2;
    PowersOfTwo();
  }
}
