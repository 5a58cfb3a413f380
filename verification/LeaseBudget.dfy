/**
 * Time budgets of task delivery: the checked arithmetic that admits a pool configuration, the plan made
 * when a delivery is dequeued, and the local deadlines that stand for the database lease.
 * Durations and instants are nanoseconds.
 */
module LeaseBudget {
  import opened Integers
  import opened Wrappers

  const SECOND: nat := 1_000_000_000
  const MILLISECOND: nat := 1_000_000
  const MAX_DURATION: nat := U64_MAX * SECOND + 999_999_999
  const MAX_QUEUE_CAPACITY: nat := U64_MAX / 8
  const SAFETY_MARGIN: nat := 5 * SECOND

  type Duration = d: nat | d <= MAX_DURATION
  /** Local monotonic time, counted from the earliest instant the platform can represent. */
  type Instant = nat

  function CheckedAdd(a: nat, b: nat, max: nat): Option<nat> {
    if a + b <= max then Some(a + b) else None
  }

  function CheckedMul(a: nat, b: nat, max: nat): Option<nat> {
    if a * b <= max then Some(a * b) else None
  }

  function DivCeil(a: nat, b: nat): nat
    requires b > 0
  {
    if a % b == 0 then a / b else a / b + 1
  }

  // ---------- Pool configuration ----------

  datatype ConfigError =
    | InvalidConcurrency
    | InvalidQueueCapacity
    | InvalidPollInterval
    | InvalidHandlerTimeout
    | InvalidLeaseDuration
    | InvalidStorageTimeout
    | LeaseBudgetOverflow
    | LeaseTooShort

  datatype PoolConfig = PoolConfig(
    concurrency: nat,
    queueCapacity: nat,
    pollInterval: Duration,
    handlerTimeout: Duration,
    leaseDuration: Duration
  )

  function NewConfig(concurrency: nat, queueCapacity: nat, pollInterval: Duration, handlerTimeout: Duration,
                     leaseDuration: Duration): Result<PoolConfig, ConfigError>
  {
    if concurrency == 0 then Err(InvalidConcurrency)
    else if queueCapacity == 0 || queueCapacity > MAX_QUEUE_CAPACITY then Err(InvalidQueueCapacity)
    else if pollInterval == 0 || pollInterval / MILLISECOND > I64_MAX then Err(InvalidPollInterval)
    else if leaseDuration == 0 || leaseDuration / MILLISECOND > I64_MAX then Err(InvalidLeaseDuration)
    else if handlerTimeout == 0 || handlerTimeout >= leaseDuration then Err(InvalidHandlerTimeout)
    else Ok(PoolConfig(concurrency, queueCapacity, pollInterval, handlerTimeout, leaseDuration))
  }

  predicate ValidConfig(config: PoolConfig) {
    && 0 < config.concurrency <= U64_MAX
    && 0 < config.queueCapacity <= MAX_QUEUE_CAPACITY
    && 0 < config.handlerTimeout < config.leaseDuration
  }

  /** Queued time in `u128` nanoseconds, converted back through `u64` seconds. */
  function Queued(invocation: Duration, waves: nat): (r: Option<nat>)
    ensures r == CheckedMul(invocation, waves, MAX_DURATION)
  {
    var nanos := CheckedMul(invocation, waves, U128_MAX);
    if nanos.None? || nanos.value / SECOND > U64_MAX then None
    else Some(nanos.value / SECOND * SECOND + nanos.value % SECOND)
  }

  /** The budget `2S + H + margin + queued`, added with an overflow check after every term. */
  function Required(handlerTimeout: Duration, storageTimeout: Duration, queued: Duration): Option<nat> {
    var doubled := CheckedMul(storageTimeout, 2, MAX_DURATION);
    if doubled.None? then None
    else
      var handled := CheckedAdd(doubled.value, handlerTimeout, MAX_DURATION);
      if handled.None? then None
      else
        var margin := CheckedAdd(handled.value, SAFETY_MARGIN, MAX_DURATION);
        if margin.None? then None else CheckedAdd(margin.value, queued, MAX_DURATION)
  }

  function ValidateForStorageTimeout(config: PoolConfig, storageTimeout: Duration): Result<(), ConfigError>
    requires ValidConfig(config)
  {
    if storageTimeout == 0 then Err(InvalidStorageTimeout)
    else
      var waves := DivCeil(config.queueCapacity, config.concurrency);
      var invocation := CheckedAdd(config.handlerTimeout, storageTimeout, MAX_DURATION);
      if invocation.None? then Err(LeaseBudgetOverflow)
      else
        var queued := Queued(invocation.value, waves);
        if queued.None? then Err(LeaseBudgetOverflow)
        else
          var required := Required(config.handlerTimeout, storageTimeout, queued.value);
          if required.None? then Err(LeaseBudgetOverflow)
          else if config.leaseDuration <= required.value then Err(LeaseTooShort)
          else Ok(())
  }

  /** The documented healthy-pool budget over unbounded integers. */
  function Budget(config: PoolConfig, storageTimeout: nat): nat
    requires config.concurrency > 0
  {
    2 * storageTimeout + config.handlerTimeout + SAFETY_MARGIN
    + DivCeil(config.queueCapacity, config.concurrency) * (config.handlerTimeout + storageTimeout)
  }

  lemma WaveAtLeastOne(a: nat, b: nat)
    requires a > 0 && b > 0
    ensures DivCeil(a, b) >= 1 && DivCeil(a, b) * b >= a
  {
    assert a == a / b * b + a % b;
    if a % b == 0 {
    } else {
      assert (a / b + 1) * b == a / b * b + b;
    }
  }

  lemma RequiredIsSum(handlerTimeout: Duration, storageTimeout: Duration, queued: Duration)
    ensures var sum := 2 * storageTimeout + handlerTimeout + SAFETY_MARGIN + queued;
      Required(handlerTimeout, storageTimeout, queued) == if sum <= MAX_DURATION then Some(sum) else None
  {
  }

  /** The same decision with the queued time given as a single number. */
  predicate Decides(r: Result<(), ConfigError>, lease: nat, budget: nat) {
    if budget > MAX_DURATION then r == Err(LeaseBudgetOverflow)
    else if lease <= budget then r == Err(LeaseTooShort)
    else r == Ok(())
  }

  lemma ValidatorDecides(config: PoolConfig, storageTimeout: Duration)
    requires ValidConfig(config) && storageTimeout > 0
    ensures Decides(ValidateForStorageTimeout(config, storageTimeout), config.leaseDuration, Budget(config, storageTimeout))
  {
    var waves := DivCeil(config.queueCapacity, config.concurrency);
    var invocation := config.handlerTimeout + storageTimeout;
    var queued := waves * invocation;
    WaveAtLeastOne(config.queueCapacity, config.concurrency);
    assert queued == (waves - 1) * invocation + invocation;
    if invocation <= MAX_DURATION {
      assert invocation * waves == queued;
      if queued <= MAX_DURATION {
        RequiredIsSum(config.handlerTimeout, storageTimeout, queued);
      }
    }
  }

  /**
   * The validator is exact: it accepts exactly when the unbounded inequality holds, and an overflow
   * exit means that no representable lease would satisfy it.
   */
  lemma ValidatorIsExact(config: PoolConfig, storageTimeout: Duration)
    requires ValidConfig(config)
    ensures var r := ValidateForStorageTimeout(config, storageTimeout);
      && (r == Err(InvalidStorageTimeout) <==> storageTimeout == 0)
      && (r == Err(LeaseBudgetOverflow) <==> storageTimeout > 0 && Budget(config, storageTimeout) > MAX_DURATION)
      && (r == Err(LeaseTooShort) <==>
            storageTimeout > 0 && config.leaseDuration <= Budget(config, storageTimeout) <= MAX_DURATION)
      && (r == Ok(()) <==> storageTimeout > 0 && config.leaseDuration > Budget(config, storageTimeout))
  {
    if storageTimeout > 0 {
      ValidatorDecides(config, storageTimeout);
    }
  }

  /** What the constructor demands of each value, and of the two times together. */
  predicate Constructible(concurrency: nat, queueCapacity: nat, pollInterval: Duration, handlerTimeout: Duration,
                          leaseDuration: Duration)
  {
    && 0 < concurrency
    && 0 < queueCapacity < 0x2000_0000_0000_0000
    && 0 < pollInterval < (I64_MAX + 1) * MILLISECOND
    && 0 < handlerTimeout < leaseDuration < (I64_MAX + 1) * MILLISECOND
  }

  /**
   * The constructor keeps its arguments exactly when they all meet its demands, each error names a value
   * that does not, and what it accepts is a configuration the validator can be asked about.
   */
  lemma ConstructedIsValid(concurrency: nat, queueCapacity: nat, pollInterval: Duration, handlerTimeout: Duration,
                           leaseDuration: Duration)
    ensures var r := NewConfig(concurrency, queueCapacity, pollInterval, handlerTimeout, leaseDuration);
      && (r.Ok? <==> Constructible(concurrency, queueCapacity, pollInterval, handlerTimeout, leaseDuration))
      && (r.Ok? ==> r.value == PoolConfig(concurrency, queueCapacity, pollInterval, handlerTimeout, leaseDuration))
      && (r.Ok? && concurrency <= U64_MAX ==> ValidConfig(r.value))
      && (r == Err(InvalidConcurrency) <==> concurrency == 0)
      && (r == Err(InvalidQueueCapacity) <==> concurrency > 0 && !(0 < queueCapacity < 0x2000_0000_0000_0000))
      && (r == Err(InvalidPollInterval) ==> !(0 < pollInterval < (I64_MAX + 1) * MILLISECOND))
      && (r == Err(InvalidLeaseDuration) ==> !(0 < leaseDuration < (I64_MAX + 1) * MILLISECOND))
      && (r == Err(InvalidHandlerTimeout) ==> !(0 < handlerTimeout < leaseDuration))
      && (r.Err? ==> r.error in {InvalidConcurrency, InvalidQueueCapacity, InvalidPollInterval, InvalidLeaseDuration,
                                 InvalidHandlerTimeout})
  {
  }

  /** The default pool: 128 workers, 128 waiting, a poll every second, 15 s handlers, 60 s leases. */
  const DEFAULT_CONFIG := PoolConfig(128, 128, SECOND, 15 * SECOND, 60 * SECOND)

  /** The default pool accepts exactly the storage timeouts below 25/3 s; the default timeout of 6 s is one. */
  lemma DefaultsFit(storageTimeout: Duration)
    ensures NewConfig(128, 128, SECOND, 15 * SECOND, 60 * SECOND) == Ok(DEFAULT_CONFIG) && ValidConfig(DEFAULT_CONFIG)
    ensures ValidateForStorageTimeout(DEFAULT_CONFIG, storageTimeout) == Ok(()) <==> 0 < 3 * storageTimeout < 25 * SECOND
  {
    assert Budget(DEFAULT_CONFIG, storageTimeout) == 3 * storageTimeout + 35 * SECOND;
    ValidatorIsExact(DEFAULT_CONFIG, storageTimeout);
  }

  // ---------- Execution plan ----------

  datatype ExecutionPlan =
    | RunHandler(handlerDeadline: Instant, settlementDeadline: Instant)
    | RetryOnly(settlementDeadline: Instant)
    | RecoverOnly

  datatype ProcessingError = InvalidExecutionBudget | LeaseBudgetExhausted

  function Plan(now: Instant, leaseDeadline: Instant, handlerTimeout: Duration, storageTimeout: Duration,
                maxInstant: Instant): Result<ExecutionPlan, ProcessingError>
  {
    if handlerTimeout == 0 then Err(InvalidExecutionBudget)
    else
      var required := CheckedAdd(handlerTimeout, storageTimeout, MAX_DURATION);
      if required.None? then Err(InvalidExecutionBudget)
      else if leaseDeadline < SAFETY_MARGIN then Ok(RecoverOnly)
      else
        var settlementDeadline := leaseDeadline - SAFETY_MARGIN;
        if settlementDeadline <= now then Ok(RecoverOnly)
        else if settlementDeadline - now < required.value then Ok(RetryOnly(settlementDeadline))
        else
          var handlerDeadline := CheckedAdd(now, handlerTimeout, maxInstant);
          if handlerDeadline.None? then Err(InvalidExecutionBudget)
          else Ok(RunHandler(handlerDeadline.value, settlementDeadline))
  }

  /**
   * What each plan means for the delivery. A handler runs exactly when the whole invocation still fits
   * before the margin; a plan that runs it leaves the full storage budget after the handler's
   * deadline; and the last overflow exit is never taken.
   */
  lemma PlanIsExact(now: Instant, leaseDeadline: Instant, handlerTimeout: Duration, storageTimeout: Duration,
                    maxInstant: Instant)
    requires leaseDeadline <= maxInstant
    ensures var r := Plan(now, leaseDeadline, handlerTimeout, storageTimeout, maxInstant);
      && (r.Err? <==> handlerTimeout == 0 || handlerTimeout + storageTimeout > MAX_DURATION)
      && (r.Ok? ==>
            && (r.value.RunHandler? <==> now + handlerTimeout + storageTimeout + SAFETY_MARGIN <= leaseDeadline)
            && (r.value.RecoverOnly? <==> leaseDeadline <= now + SAFETY_MARGIN)
            && (r.value.RunHandler? ==>
                  && r.value.handlerDeadline == now + handlerTimeout
                  && r.value.handlerDeadline + storageTimeout <= r.value.settlementDeadline
                  && r.value.settlementDeadline + SAFETY_MARGIN == leaseDeadline)
            && (r.value.RetryOnly? ==>
                  && now < r.value.settlementDeadline < now + handlerTimeout + storageTimeout
                  && r.value.settlementDeadline + SAFETY_MARGIN == leaseDeadline))
  {
  }

  // ---------- Settling before the deadline ----------

  /** The time by which a settlement started now must finish, or a refusal to start it. */
  function SettleBefore(now: Instant, settlementDeadline: Instant, storageTimeout: Duration): Result<Instant, ProcessingError> {
    if now >= settlementDeadline then Err(LeaseBudgetExhausted)
    else Ok(if now + storageTimeout <= settlementDeadline then now + storageTimeout else settlementDeadline)
  }

  /** After a handler that ended by its deadline, settlement is never refused and has the full storage timeout. */
  lemma RunLeavesFullSettlement(now: Instant, leaseDeadline: Instant, handlerTimeout: Duration, storageTimeout: Duration,
                                maxInstant: Instant, finished: Instant)
    requires leaseDeadline <= maxInstant && storageTimeout > 0
    requires Plan(now, leaseDeadline, handlerTimeout, storageTimeout, maxInstant).Ok?
    requires Plan(now, leaseDeadline, handlerTimeout, storageTimeout, maxInstant).value.RunHandler?
    requires finished <= Plan(now, leaseDeadline, handlerTimeout, storageTimeout, maxInstant).value.handlerDeadline
    ensures SettleBefore(finished, leaseDeadline - SAFETY_MARGIN, storageTimeout) == Ok(finished + storageTimeout)
  {
    PlanIsExact(now, leaseDeadline, handlerTimeout, storageTimeout, maxInstant);
  }

  // ---------- Local deadline and database expiry ----------

  const F64_EXACT: nat := 0x20_0000_0000_0000

  /** The lease as the database receives it: whole milliseconds, through a 64-bit float. */
  predicate StoredLease(lease: Duration, stored: nat) {
    var milliseconds := lease / MILLISECOND;
    if milliseconds <= F64_EXACT then stored == milliseconds * MILLISECOND
    else
      milliseconds * MILLISECOND <= stored + 512 * MILLISECOND && stored <= milliseconds * MILLISECOND + 512 * MILLISECOND
  }

  /**
   * With clocks that run at one rate and differ by a constant, a settlement whose clock check happens by
   * the local settlement deadline is checked before the database expiry: the local deadline is anchored
   * before the claim, and the margin covers what the conversion can lose.
   */
  lemma LocalDeadlineIsConservative(anchor: Instant, granted: Instant, checked: Instant, skew: int, lease: Duration, stored: nat)
    requires anchor <= granted && StoredLease(lease, stored)
    requires checked + SAFETY_MARGIN <= anchor + lease
    ensures checked + skew < (granted + skew) + stored
  {
    assert lease == lease / MILLISECOND * MILLISECOND + lease % MILLISECOND;
  }
}
