/**
 * The three doubling loops: OutboxWorker's BackoffPolicy.NextAttempt, the consumer's backoffFor and the retry
 * policy's NextBackoff, with their closed forms.
 */
module Backoff {
  import opened Prelude
  import opened Int64

  const SECOND: int64 := 1_000_000_000
  const MINUTE: int64 := 60_000_000_000

  /** Doubling a duration up to this stays in range. */
  const HALF: int := 0x4000_0000_0000_0000

  function Pow2(n: nat): nat {
    if n == 0 then 1 else 2 * Pow2(n - 1)
  }

  function Min(a: int, b: int): int {
    if a <= b then a else b
  }

  /** Double at most `steps` times, stopping at the ceiling once it is reached; durations are int64 and wrap. */
  function Doubled(d: int64, ceiling: int64, steps: nat): int64
    decreases steps
  {
    if steps == 0 then d
    else
      var next := Wrap(d * 2);
      if next >= ceiling then ceiling else Doubled(next, ceiling, steps - 1)
  }

  /** A duration doubled `n` times, wherever that wraps to. */
  function Doubling(d: int64, n: nat): int64 {
    Wrap(d * Pow2(n))
  }

  /** One of the doublings from `first` to `last` is at the ceiling or above it. */
  ghost predicate Reaches(d: int64, ceiling: int64, first: nat, last: nat) {
    exists j: nat :: first <= j <= last && Doubling(d, j) >= ceiling
  }

  lemma WrapModulus(x: int, k: int)
    ensures Wrap(x + k * MODULUS) == Wrap(x)
  {
    var a := WrapShift(x);
    var b := WrapShift(x + k * MODULUS);
    hide Wrap;
    assert Wrap(x + k * MODULUS) - Wrap(x) == (k + b - a) * MODULUS;
  }

  lemma WrapTimes(x: int, k: int)
    ensures Wrap(Wrap(x) * k) == Wrap(x * k)
  {
    var a := WrapShift(x);
    hide Wrap;
    assert Wrap(x) * k == x * k + a * k * MODULUS;
    WrapModulus(x * k, a * k);
  }

  lemma DoublingNext(d: int64, n: nat)
    ensures Doubling(Doubling(d, 1), n) == Doubling(d, n + 1)
    ensures Doubling(d, 0) == d && Doubling(d, 1) == Wrap(d * 2)
    ensures Doubling(d, n + 1) == Wrap(Doubling(d, n) * 2)
  {
    assert Pow2(1) == 2;
    WrapTimes(d * 2, Pow2(n));
    WrapTimes(d * Pow2(n), 2);
    Regroup(d, Pow2(n));
    WrapInRange(d);
  }

  /** Whatever the durations: the ceiling if some doubling reaches it, else the last doubling, wrapped. */
  lemma {:induction false} DoubledExactly(d: int64, ceiling: int64, steps: nat)
    ensures Doubled(d, ceiling, steps) == if Reaches(d, ceiling, 1, steps) then ceiling else Doubling(d, steps)
    decreases steps
  {
    hide Wrap, Doubling, Pow2;
    DoublingNext(d, 0);
    if steps > 0 {
      var next := Doubling(d, 1);
      DoublingNext(d, steps - 1);
      if next < ceiling {
        DoubledExactly(next, ceiling, steps - 1);
        ReachesNext(d, ceiling, steps);
      }
    }
  }

  lemma ReachesNext(d: int64, ceiling: int64, steps: nat)
    requires steps > 0 && Doubling(d, 1) < ceiling
    ensures Reaches(Doubling(d, 1), ceiling, 1, steps - 1) <==> Reaches(d, ceiling, 1, steps)
  {
    hide Doubling;
    if Reaches(Doubling(d, 1), ceiling, 1, steps - 1) {
      var j: nat :| 1 <= j <= steps - 1 && Doubling(Doubling(d, 1), j) >= ceiling;
      DoublingNext(d, j);
    }
    if Reaches(d, ceiling, 1, steps) {
      var j: nat :| 1 <= j <= steps && Doubling(d, j) >= ceiling;
      DoublingNext(d, j - 1);
      assert Doubling(Doubling(d, 1), j - 1) >= ceiling;
    }
  }

  /** In range, repeated doubling is the power of two, capped; the first value alone is not capped. */
  lemma {:induction false} DoubledIsCapped(d: int64, ceiling: int64, steps: nat)
    requires 0 <= d < HALF && ceiling <= HALF
    ensures Doubled(d, ceiling, steps) == if steps == 0 then d as int else Min(d * Pow2(steps), ceiling)
    decreases steps
  {
    hide Wrap;
    if steps > 0 {
      WrapInRange(d * 2);
      Regroup(d, Pow2(steps - 1));
      Pow2Positive(steps - 1);
      if d * 2 >= ceiling {
        TimesAtLeast(d * 2, Pow2(steps - 1));
      } else {
        DoubledIsCapped(d * 2, ceiling, steps - 1);
      }
    }
  }

  lemma {:induction false} Pow2Positive(n: nat)
    ensures Pow2(n) >= 1
  {
    if n > 0 {
      Pow2Positive(n - 1);
    }
  }

  lemma Regroup(d: int, p: int)
    ensures d * (2 * p) == (d * 2) * p == (d * p) * 2
  {
  }

  lemma TimesAtLeast(a: nat, b: nat)
    requires b >= 1
    ensures a * b >= a
  {
    assert a * b == a + a * (b - 1);
  }

  lemma WrapInRange(x: int)
    requires Fits(x)
    ensures Wrap(x) == x
  {
    WrapNearby(x);
  }

  datatype BackoffPolicy = BackoffPolicy(base: int64, ceiling: int64)

  function DelayAfter(p: BackoffPolicy, attempts: int): int64 {
    Doubled(p.base, p.ceiling, if attempts <= 1 then 0 else attempts - 1)
  }

  /** The delay NextAttempt adds to the current time. */
  method NextAttemptDelay(p: BackoffPolicy, attempts: int) returns (d: int64)
    ensures d == DelayAfter(p, attempts)
  {
    d := p.base;
    var i := 1;
    while i < attempts
      invariant 1 <= i <= attempts || (i == 1 && attempts < 1)
      invariant Doubled(d, p.ceiling, if attempts < i then 0 else attempts - i) == DelayAfter(p, attempts)
    {
      d := Wrap(d * 2);
      if d >= p.ceiling {
        d := p.ceiling;
        break;
      }
      i := i + 1;
    }
  }

  /**
   * The first failure waits the base; the k-th one waits the base doubled k - 1 times, or the maximum if a doubling
   * reached it. Without wrapping that is base * 2^(k-1), at most the maximum.
   */
  lemma DelayClosedForm(p: BackoffPolicy, attempts: int)
    ensures attempts <= 1 ==> DelayAfter(p, attempts) == p.base
    ensures attempts > 1 ==> DelayAfter(p, attempts)
                             == if Reaches(p.base, p.ceiling, 1, attempts - 1) then p.ceiling
                                else Doubling(p.base, attempts - 1)
    ensures attempts > 1 && 0 <= p.base < HALF && p.ceiling <= HALF ==>
              DelayAfter(p, attempts) == Min(p.base * Pow2(attempts - 1), p.ceiling)
  {
    if attempts > 1 {
      DoubledExactly(p.base, p.ceiling, attempts - 1);
      if 0 <= p.base < HALF && p.ceiling <= HALF {
        DoubledIsCapped(p.base, p.ceiling, attempts - 1);
      }
    }
  }

  /** The consumer's backoffFor: 2s, 4s, 8s, ... up to a minute. */
  method BackoffFor(attempt: int) returns (d: int64)
    ensures d == if attempt <= 1 then 2 * SECOND else Min(2 * SECOND * Pow2(attempt - 1), MINUTE)
  {
    DoubledIsCapped(2 * SECOND, MINUTE, if attempt <= 1 then 0 else attempt - 1);
    d := 2 * SECOND;
    var i := 1;
    while i < attempt
      invariant 1 <= i <= attempt || (i == 1 && attempt < 1)
      invariant Doubled(d, MINUTE, if attempt < i then 0 else attempt - i)
                == Doubled(2 * SECOND, MINUTE, if attempt <= 1 then 0 else attempt - 1)
    {
      d := Wrap(d * 2);
      if d >= MINUTE {
        return MINUTE;
      }
      i := i + 1;
    }
  }

  /**
   * The pending-reference policy's NextBackoff: the base doubled once per attempt, wherever that wraps to, or five
   * minutes if it got that far. A base that is not negative never wraps on the way.
   */
  method NextBackoff(baseBackoff: int64, attempts: int) returns (backoff: int64)
    ensures var n: nat := if attempts <= 0 then 0 else attempts;
            && backoff == (if Reaches(baseBackoff, 5 * MINUTE, 0, n) then 5 * MINUTE else Doubling(baseBackoff, n))
            && (baseBackoff >= 0 ==> backoff == Min(baseBackoff * Pow2(n), 5 * MINUTE))
  {
    hide Wrap, Doubling;
    ghost var n: nat := if attempts <= 0 then 0 else attempts;
    backoff := baseBackoff;
    DoublingNext(baseBackoff, 0);
    var i := 0;
    while i < attempts && backoff < 5 * MINUTE
      invariant 0 <= i <= n
      invariant backoff == Doubling(baseBackoff, i)
      invariant forall j: nat :: j < i ==> Doubling(baseBackoff, j) < 5 * MINUTE
      invariant baseBackoff >= 0 ==> 0 <= backoff == baseBackoff * Pow2(i)
      decreases attempts - i
    {
      DoublingNext(baseBackoff, i);
      if baseBackoff >= 0 {
        WrapInRange(backoff * 2);
        Regroup(baseBackoff, Pow2(i));
      }
      backoff := Wrap(backoff * 2);
      i := i + 1;
    }
    if baseBackoff >= 0 {
      Undoubled(baseBackoff, n, i);
    }
    if backoff > 5 * MINUTE {
      backoff := 5 * MINUTE;
    }
  }

  /** Either all doublings were made, or the rest would not lower what is already past the ceiling. */
  lemma Undoubled(d: nat, n: nat, i: nat)
    requires i <= n
    ensures d * Pow2(n) >= d * Pow2(i)
  {
    Pow2Splits(n, i);
    Pow2Positive(n - i);
    TimesAtLeast(Pow2(i), Pow2(n - i));
    TimesMonotone(d, Pow2(i), Pow2(n));
  }

  lemma TimesMonotone(d: nat, a: int, b: int)
    requires a <= b
    ensures d * a <= d * b
  {
    assert d * b == d * a + d * (b - a);
  }

  lemma {:induction false} Pow2Splits(n: nat, i: nat)
    requires i <= n
    ensures Pow2(n) == Pow2(i) * Pow2(n - i)
  {
    if i < n {
      Pow2Splits(n - 1, i);
      assert Pow2(i) * Pow2(n - i) == 2 * (Pow2(i) * Pow2(n - 1 - i));
    }
  }
}
