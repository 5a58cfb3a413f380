/** One delivery: plan, run the handler against its deadline, and settle before the lease margin. */
module Executor {
  import opened Wrappers
  import opened LeaseBudget
  import opened TaskQueue

  datatype HandlerError = Permanent | RetryLater(after: Option<nat>)

  type HandlerResult = Result<(), HandlerError>

  function RequestFor(result: HandlerResult, fallback: nat): SettlementRequest {
    match result
    case Ok(_) => Complete
    case Err(Permanent) => Fail
    case Err(RetryLater(after)) => Retry(if after.Some? then after.value else fallback)
  }

  /** The handler ends with its result, or is cut off at its deadline and retried. */
  function Observed(done: Instant, result: HandlerResult, handlerDeadline: Instant): HandlerResult {
    if done < handlerDeadline then result else Err(RetryLater(None))
  }

  datatype Attempted = Attempted(request: SettlementRequest, deadline: Instant)

  /**
   * `done` and `result` are when and how the handler would end, `resumed` when the executor continues
   * after it, and `backoff` the redelivery delay of this attempt. The result is the settlement sent to
   * the queue with the time at which it is abandoned. A settlement is sent whenever time is left before
   * the margin, also for a late delivery and after a handler that overran its deadline, and it is given
   * the storage timeout or what is left of the lease.
   */
  method ExecuteAndSettle(now: Instant, leaseDeadline: Instant, handlerTimeout: Duration, storageTimeout: Duration,
                          maxInstant: Instant, done: Instant, result: HandlerResult, resumed: Instant, backoff: nat)
    returns (r: Result<Attempted, ProcessingError>, ran: bool)
    requires leaseDeadline <= maxInstant && now <= resumed
    ensures r == Err(InvalidExecutionBudget) <==> handlerTimeout == 0 || handlerTimeout + storageTimeout > MAX_DURATION
    ensures r == Err(InvalidExecutionBudget) ==> !ran
    ensures r != Err(InvalidExecutionBudget) ==>
      (ran <==> now + handlerTimeout + storageTimeout + SAFETY_MARGIN <= leaseDeadline)
    ensures r.Err? && r != Err(InvalidExecutionBudget) ==>
      r == Err(LeaseBudgetExhausted) && (if ran then resumed else now) + SAFETY_MARGIN >= leaseDeadline
    ensures r.Ok? <==>
      && r != Err(InvalidExecutionBudget)
      && (if ran then resumed else now) + SAFETY_MARGIN < leaseDeadline
    ensures r.Ok? && !ran ==> r.value.request == Retry(backoff)
    ensures r.Ok? && ran ==>
      match r.value.request
      case Complete => done < now + handlerTimeout && result.Ok?
      case Fail => done < now + handlerTimeout && result == Err(Permanent)
      case Retry(delay) =>
        || (done >= now + handlerTimeout && delay == backoff)
        || (done < now + handlerTimeout && result.Err? && result.error.RetryLater? &&
            delay == if result.error.after.Some? then result.error.after.value else backoff)
    ensures r.Ok? ==>
      var from := if ran then resumed else now;
      && r.value.deadline == (if from + storageTimeout + SAFETY_MARGIN <= leaseDeadline then from + storageTimeout
                              else leaseDeadline - SAFETY_MARGIN)
      && (storageTimeout > 0 ==> from < r.value.deadline)
      && r.value.deadline + SAFETY_MARGIN <= leaseDeadline
    ensures ran && resumed <= now + handlerTimeout && storageTimeout > 0 ==>
      r.Ok? && r.value.deadline == resumed + storageTimeout
  {
    PlanIsExact(now, leaseDeadline, handlerTimeout, storageTimeout, maxInstant);
    var plan := Plan(now, leaseDeadline, handlerTimeout, storageTimeout, maxInstant);
    if plan.Err? {
      return Err(plan.error), false;
    }
    match plan.value
    case RecoverOnly => return Err(LeaseBudgetExhausted), false;
    case RetryOnly(settlementDeadline) =>
      var deadline := SettleBefore(now, settlementDeadline, storageTimeout);
      return Ok(Attempted(Retry(backoff), deadline.value)), false;
    case RunHandler(handlerDeadline, settlementDeadline) =>
      var observed := Observed(done, result, handlerDeadline);
      var request := RequestFor(observed, backoff);
      var deadline := SettleBefore(resumed, settlementDeadline, storageTimeout);
      if deadline.Err? {
        return Err(deadline.error), true;
      }
      return Ok(Attempted(request, deadline.value)), true;
  }
}
