/** In-process retry of one command on optimistic conflicts, with jittered exponential backoff. */
module Retry {
  import opened Integers
  import opened Wrappers
  import opened LeaseBudget

  datatype Policy = Policy(maxAttempts: nat, initialBackoff: Duration, maxBackoff: Duration) {
    /** What the policy constructor admits. */
    predicate Valid() {
      maxAttempts > 0 && initialBackoff <= maxBackoff && maxBackoff / MILLISECOND <= I64_MAX
    }
  }

  datatype Outcome<T> = Conflict | Other(value: T)

  function Min(a: nat, b: nat): nat {
    if a <= b then a else b
  }

  function Max(a: nat, b: nat): nat {
    if a >= b then a else b
  }

  function Pow2(e: nat): nat {
    if e == 0 then 1 else 2 * Pow2(e - 1)
  }

  /** `2_u32.checked_pow`, saturated. */
  function Multiplier(retry: nat): nat
    requires retry > 0
  {
    var exponent := Min(retry - 1, U32_MAX);
    if exponent <= 31 then Pow2(exponent) else U32_MAX
  }

  function Base(policy: Policy, retry: nat): nat
    requires retry > 0
  {
    Min(Min(policy.initialBackoff * Multiplier(retry), MAX_DURATION), policy.maxBackoff)
  }

  /** `scaledDown` and `scaledUp` are the two float products, however they were rounded. */
  function Bounds(policy: Policy, retry: nat, scaledDown: nat, scaledUp: nat): (nat, nat)
    requires retry > 0
  {
    var base := Base(policy, retry);
    (Min(scaledDown, base), Max(Min(scaledUp, policy.maxBackoff), base))
  }

  lemma {:induction false} Pow2Monotone(a: nat, b: nat)
    requires a <= b
    ensures 0 < Pow2(a) <= Pow2(b)
  {
    if a < b {
      Pow2Monotone(a, b - 1);
    } else if a > 0 {
      Pow2Monotone(a - 1, b - 1);
    }
  }

  lemma MultiplierMonotone(retry: nat, retry': nat)
    requires 0 < retry <= retry'
    ensures Multiplier(retry) <= Multiplier(retry')
  {
    assert Pow2(31) == 0x8000_0000 by {
      assert Pow2(8) == 0x100;
      assert Pow2(16) == 0x1_0000;
      assert Pow2(24) == 0x100_0000;
    }
    Pow2Monotone(Min(retry - 1, 31), Min(retry' - 1, 31));
    Pow2Monotone(Min(retry - 1, 31), 31);
  }

  lemma ProductMonotone(a: nat, b: nat, b': nat)
    requires b <= b'
    ensures a * b <= a * b'
  {
    assert a * b' == a * b + a * (b' - b);
  }

  /** The base delay never shrinks from one retry to the next. */
  lemma BackoffGrows(policy: Policy, retry: nat, retry': nat)
    requires 0 < retry <= retry'
    ensures Base(policy, retry) <= Base(policy, retry')
  {
    MultiplierMonotone(retry, retry');
    ProductMonotone(policy.initialBackoff, Multiplier(retry), Multiplier(retry'));
  }

  lemma {:induction false} Pow2Exceeds(e: nat)
    requires e >= 32
    ensures Pow2(e) > U32_MAX
  {
    assert Pow2(32) == 0x1_0000_0000 by {
      assert Pow2(8) == 0x100;
      assert Pow2(16) == 0x1_0000;
      assert Pow2(24) == 0x100_0000;
    }
    Pow2Monotone(32, e);
  }

  /**
   * The base delay is the initial one doubled for every retry after the first, capped at the limit. The
   * 32-bit multiplier spoils that exactly when more than 32 retries still do not reach the limit.
   */
  lemma BaseDoubles(policy: Policy, retry: nat)
    requires retry > 0
    ensures Base(policy, retry) == Min(policy.initialBackoff * Pow2(retry - 1), policy.maxBackoff) <==>
      retry <= 32 || policy.initialBackoff == 0 || policy.maxBackoff <= policy.initialBackoff * U32_MAX
    ensures retry > 32 ==> Base(policy, retry) == Min(policy.initialBackoff * U32_MAX, policy.maxBackoff)
  {
    if retry > 32 {
      Pow2Exceeds(retry - 1);
      ProductMonotone(policy.initialBackoff, U32_MAX + 1, Pow2(retry - 1));
      assert policy.initialBackoff * (U32_MAX + 1) == policy.initialBackoff * U32_MAX + policy.initialBackoff;
    }
  }

  /**
   * Whatever the float rounding, the jitter interval contains the base and stays within the limit. Products
   * on their own side of the base are its ends, the upper one cut off at the limit.
   */
  lemma BoundsEncloseBase(policy: Policy, retry: nat, scaledDown: nat, scaledUp: nat)
    requires retry > 0
    ensures var (lower, upper) := Bounds(policy, retry, scaledDown, scaledUp);
      && lower <= Base(policy, retry) <= upper <= policy.maxBackoff
      && (scaledDown <= Base(policy, retry) ==> lower == scaledDown)
      && (Base(policy, retry) <= scaledUp <= policy.maxBackoff ==> upper == scaledUp)
      && (policy.maxBackoff <= scaledUp ==> upper == policy.maxBackoff)
  {
  }

  predicate WithinBounds(policy: Policy, retry: nat, scaled: (nat, nat), delay: nat) {
    && retry > 0
    && Bounds(policy, retry, scaled.0, scaled.1).0 <= delay <= Bounds(policy, retry, scaled.0, scaled.1).1
    && delay <= policy.maxBackoff
  }

  /**
   * The retry loop. `outcomes[i]` is what the i-th execution of the operation returns, `scaled[i]` the
   * float products of its backoff and `drawn[i]` the random delay drawn after it.
   */
  method RetryOnConflict<T>(policy: Policy, outcomes: seq<Outcome<T>>, scaled: seq<(nat, nat)>, drawn: seq<nat>)
    returns (result: Outcome<T>, calls: nat, slept: seq<nat>)
    requires policy.Valid() && |outcomes| == |scaled| == |drawn| == policy.maxAttempts
    ensures 1 <= calls <= policy.maxAttempts && result == outcomes[calls - 1]
    ensures forall i :: 0 <= i < calls - 1 ==> outcomes[i].Conflict?
    ensures calls < policy.maxAttempts ==> !outcomes[calls - 1].Conflict?
    ensures |slept| == calls - 1 && forall i :: 0 <= i < |slept| ==> WithinBounds(policy, i + 1, scaled[i], slept[i])
    ensures forall i :: 0 <= i < |slept| && WithinBounds(policy, i + 1, scaled[i], drawn[i]) ==> slept[i] == drawn[i]
  {
    slept := [];
    for attempt := 1 to policy.maxAttempts + 1
      invariant |slept| == attempt - 1 && attempt <= policy.maxAttempts
      invariant forall i :: 0 <= i < attempt - 1 ==> outcomes[i].Conflict? && WithinBounds(policy, i + 1, scaled[i], slept[i])
      invariant forall i :: 0 <= i < attempt - 1 && WithinBounds(policy, i + 1, scaled[i], drawn[i]) ==> slept[i] == drawn[i]
    {
      result := outcomes[attempt - 1];
      if result.Conflict? && attempt < policy.maxAttempts {
        BoundsEncloseBase(policy, attempt, scaled[attempt - 1].0, scaled[attempt - 1].1);
        var (lower, upper) := Bounds(policy, attempt, scaled[attempt - 1].0, scaled[attempt - 1].1);
        slept := slept + [Max(lower, Min(drawn[attempt - 1], upper))];
      } else {
        return result, attempt, slept;
      }
    }
    // A valid policy always returns from inside the loop.
    assert false;
  }
}
