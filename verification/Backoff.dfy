/** Retry delays in 64-bit nanoseconds, and the polling interval. */
module Backoff {

  const SECOND := 1_000_000_000
  const MAX_BACKOFF := 300 * SECOND
  const TICK := 2 * SECOND
  const IDLE_MAX := 8 * SECOND

  const TWO_63 := 0x8000_0000_0000_0000
  const TWO_64 := 0x1_0000_0000_0000_0000

  /** What a signed 64-bit register keeps of an integer. */
  function Wrap64(x: int): int
  {
    var low := x % TWO_64;
    if low >= TWO_63 then low - TWO_64 else low
  }

  function Pow2(n: nat): nat
  {
    if n == 0 then 1 else 2 * Pow2(n - 1)
  }

  function AtLeastOne(attempts: int): int
  {
    if attempts < 1 then 1 else attempts
  }

  /** `Duration(Pow(2, attempts)) * Second`, capped. Up to 62 attempts the power
      itself is exact in an int64. */
  function BackoffFor(attempts: int, max: int): int
    requires attempts <= 62
  {
    var d := Wrap64(Pow2(AtLeastOne(attempts)) * SECOND);
    if d > max then max else d
  }

  function Least(a: int, b: int): int
  {
    if a < b then a else b
  }

  lemma {:induction false} PowGrows(a: nat, b: nat)
    requires a <= b
    ensures 1 <= Pow2(a) <= Pow2(b)
  {
    if a < b {
      PowGrows(a, b - 1);
    } else if a > 0 {
      PowGrows(a - 1, a - 1);
    }
  }

  lemma PowFive(n: nat)
    ensures Pow2(n + 5) == 32 * Pow2(n)
  {
    assert Pow2(n + 5) == 2 * Pow2(n + 4) == 4 * Pow2(n + 3);
    assert Pow2(n + 3) == 2 * Pow2(n + 2) == 4 * Pow2(n + 1);
  }

  lemma PowThirtyThree()
    ensures Pow2(33) == 8589934592
  {
    PowFive(28);
    PowFive(23);
    PowFive(18);
    PowFive(13);
    PowFive(8);
    PowFive(3);
    assert Pow2(3) == 2 * Pow2(2) && Pow2(1) == 2;
  }

  lemma FitsBelow34(a: nat)
    requires a <= 33
    ensures Wrap64(Pow2(a) * SECOND) == Pow2(a) * SECOND
  {
    PowGrows(a, 33);
    PowThirtyThree();
  }

  /** Up to 33 attempts nothing overflows. */
  lemma BackoffExact(attempts: int, max: int)
    requires attempts <= 33
    ensures BackoffFor(attempts, max) == Least(Pow2(AtLeastOne(attempts)) * SECOND, max)
  {
    FitsBelow34(AtLeastOne(attempts));
  }

  lemma BackoffMonotone(a: int, b: int, max: int)
    requires a <= b <= 33
    ensures BackoffFor(a, max) <= BackoffFor(b, max)
  {
    BackoffExact(a, max);
    BackoffExact(b, max);
    PowGrows(AtLeastOne(a), AtLeastOne(b));
  }

  /** The publisher's delays lie between two seconds and five minutes. */
  lemma BackoffRange(attempts: int)
    requires attempts <= 33
    ensures 2 * SECOND <= BackoffFor(attempts, MAX_BACKOFF) <= MAX_BACKOFF
  {
    BackoffExact(attempts, MAX_BACKOFF);
    PowGrows(1, AtLeastOne(attempts));
    assert Pow2(1) == 2;
  }

  /** The later attempts whose product happens to wrap round to a positive number. */
  predicate WrapsPositive(attempts: int)
  {
    attempts in {37, 41, 42, 45, 47, 50, 51, 53}
  }

  function Wrapped(a: nat): int
  {
    Wrap64(Pow2(a) * SECOND)
  }

  lemma WrapDoubles(x: int)
    ensures Wrap64(2 * x) == Wrap64(2 * Wrap64(x))
  {
    var k := if Wrap64(x) < 0 then x / TWO_64 + 1 else x / TWO_64;
    assert x == k * TWO_64 + Wrap64(x);
    assert 2 * x == 2 * k * TWO_64 + 2 * Wrap64(x);
  }

  lemma WrappedNext(a: nat)
    ensures Wrapped(a + 1) == Wrap64(2 * Wrapped(a))
  {
    WrapDoubles(Pow2(a) * SECOND);
  }

  /** Wrapped(33), Wrapped(34), ..., Wrapped(55). */
  const TABLE: seq<int> := [
    8589934592000000000, -1266874889709551616, -2533749779419103232, -5067499558838206464,
    8311744956033138688, -1823254161643274240, -3646508323286548480, -7293016646573096960,
    3860710780563357696, 7721421561126715392, -3003900951456120832, -6007801902912241664,
    6431140267885068288, -5584463537939415040, 7277816997830721536, -3891110078048108544,
    -7782220156096217088, 2882303761517117440, 5764607523034234880, -6917529027641081856,
    4611686018427387904, -9223372036854775808, 0]

  lemma TableDoubles(i: nat)
    requires i < 22
    ensures TABLE[i + 1] == Wrap64(2 * TABLE[i])
  {
  }

  lemma {:induction false} WrappedIs(a: nat)
    requires 33 <= a <= 62
    ensures Wrapped(a) == if a <= 55 then TABLE[a - 33] else 0
  {
    if a == 33 {
      FitsBelow34(33);
      PowThirtyThree();
    } else {
      WrappedIs(a - 1);
      WrappedNext(a - 1);
      if a <= 55 {
        TableDoubles(a - 34);
      }
    }
  }

  lemma TableSigns(a: nat)
    requires 34 <= a <= 62
    ensures if WrapsPositive(a) then Wrapped(a) > MAX_BACKOFF else Wrapped(a) <= 0
  {
    WrappedIs(a);
  }

  /** The delay is what the formula says, min(2^a s, max), exactly up to 33 attempts
      and at the few later ones that wrap to a positive number; otherwise it is
      not positive and the retry is due at once. */
  lemma BackoffMeansItIff(attempts: int)
    requires attempts <= 62
    ensures BackoffFor(attempts, MAX_BACKOFF) == Least(Pow2(AtLeastOne(attempts)) * SECOND, MAX_BACKOFF)
       <==> attempts <= 33 || WrapsPositive(attempts)
    ensures attempts > 33 && !WrapsPositive(attempts) ==> BackoffFor(attempts, MAX_BACKOFF) <= 0
  {
    if attempts <= 33 {
      BackoffExact(attempts, MAX_BACKOFF);
    } else {
      TableSigns(attempts);
      PowGrows(33, attempts);
      PowThirtyThree();
    }
  }

  // ---- polling ------------------------------------------------------------------

  function NextInterval(current: int, base: int): int
  {
    var from := if current < base then base else current;
    if from * 2 < IDLE_MAX then from * 2 else IDLE_MAX
  }

  datatype Outcome = Drained(n: nat) | DrainFailed

  predicate Idle(o: Outcome)
  {
    o == DrainFailed || o == Drained(0)
  }

  /** The interval in force after the given drains. */
  function IntervalAfter(outcomes: seq<Outcome>): int
  {
    if outcomes == [] then TICK
    else
      var n := |outcomes| - 1;
      if Idle(outcomes[n]) then NextInterval(IntervalAfter(outcomes[..n]), TICK) else TICK
  }

  /** Never faster than the tick, never slower than the cap. */
  lemma IntervalBounded(outcomes: seq<Outcome>)
    ensures TICK <= IntervalAfter(outcomes) <= IDLE_MAX
  {
  }

  /** Two seconds after work and at the start, four after one idle or failed poll, eight
      after more. */
  lemma IntervalSeconds(outcomes: seq<Outcome>)
    ensures IntervalAfter(outcomes)
         == var n := |outcomes|;
            1_000_000_000 * (if n == 0 || outcomes[n - 1] !in {DrainFailed, Drained(0)} then 2
                             else if n == 1 || outcomes[n - 2] !in {DrainFailed, Drained(0)} then 4 else 8)
  {
  }

  /** The tick comes back exactly on work (or at the start), and two idle polls
      in a row reach the cap. */
  lemma IntervalMeans(outcomes: seq<Outcome>)
    ensures IntervalAfter(outcomes) == TICK <==> outcomes == [] || !Idle(outcomes[|outcomes| - 1])
    ensures |outcomes| >= 2 && Idle(outcomes[|outcomes| - 1]) && Idle(outcomes[|outcomes| - 2]) ==>
      IntervalAfter(outcomes) == IDLE_MAX
  {
  }
}
