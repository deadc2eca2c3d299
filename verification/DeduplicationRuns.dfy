/**
  Every operation and every run keep deduplication owners unique, as long as no
  deduplicated repeat series continues onto an owned id.
 */
module DeduplicationRuns {
  import opened JobTypes
  import opened QueueModel
  import opened CoreInvariant
  import opened CoreLifecycle
  import opened Steps
  import opened DeduplicationOwnership
  import opened RepeatSuccession

  /** What a caller checks before completing a job: whether its successor would take a free id. */
  ghost predicate TakesAFreeId(s: QueueState, op: Op)
    requires op.OpComplete?
  {
    SuccessorIsFree(s, op.id, op.value, op.uuid, op.cronNext, op.now)
  }

  lemma WorkKeepsUnique(s: QueueState, op: Op)
    requires Core(s) && op.Works() && op.WellFormed() && FreshIds(s, op) && UniqueOwners(s, op.now)
    ensures UniqueOwners(Work(s, op).state, op.now) <==> (op.OpComplete? && Work(s, op).success ==> TakesAFreeId(s, op))
  {
    match op
    case OpPromoteDue(now) => PromoteDueOwnsNothingNew(s, now);
    case OpClaim(worker, token, leaseFor, now) => ClaimOwnsNothingNew(s, worker, token, leaseFor, now);
    case OpComplete(id, token, value, uuid, cronNext, now) =>
      if Work(s, op).success { CompletionKeepsUniqueIff(s, id, token, value, uuid, cronNext, now); }
    case OpFail(id, token, error, allowRetry, backoff, now) => FailKeepsUnique(s, id, token, error, allowRetry, backoff, now);
    case OpRecoverStalled(now) => RecoverStalledOwnsNothingNew(s, now);
    case OpRetry(id, now) => RetryKeepsUnique(s, id, now);
  }

  /**
    Every operation, at the time it happens, keeps deduplication owners unique;
    a completion does so exactly when the repeat successor takes a free id.
   */
  lemma StepKeepsUniqueOwners(s: QueueState, op: Op)
    requires Core(s) && op.WellFormed() && FreshIds(s, op) && UniqueOwners(s, op.now)
    ensures UniqueOwners(Step(s, op).state, op.now) <==> (op.OpComplete? && Step(s, op).success ==> TakesAFreeId(s, op))
  {
    if op.Submits() {
      SubmitKeepsUnique(s, op);
    } else if op.CleansUp() {
      CleanUpOwnsNothingNew(s, op);
    } else if op.TouchesOne() {
      RewriteOwnsNothingNew(s, op);
    } else {
      WorkKeepsUnique(s, op);
    }
  }

  /** A run under a clock that never goes back, with fresh ids, in which no deduplicated repeat series continues onto an owned id. */
  ghost predicate TimedRun(s: QueueState, ops: seq<Op>, clock: Time)
    decreases |ops|
  {
    ops == [] ||
    (&& ops[0].WellFormed() && FreshIds(s, ops[0]) && clock <= ops[0].now
     && (ops[0].OpComplete? && Step(s, ops[0]).success ==> TakesAFreeId(s, ops[0]))
     && TimedRun(Step(s, ops[0]).state, ops[1..], ops[0].now))
  }

  /** The clock when the run ends. */
  function EndTime(ops: seq<Op>, clock: Time): Time
  {
    if ops == [] then clock else EndTime(ops[1..], ops[0].now)
  }

  /** Over every run, each deduplication id has at most one unreleased owner at the end and at any later time. */
  lemma {:induction false} DeduplicationOwnerIsUnique(s: QueueState, ops: seq<Op>, clock: Time, later: Time)
    requires forall k | 0 <= k < |ops| :: ops[k].WellFormed()
    requires Core(s) && UniqueOwners(s, clock) && TimedRun(s, ops, clock) && EndTime(ops, clock) <= later
    ensures UniqueOwners(Run(s, ops), later)
    decreases |ops|
  {
    if ops == [] {
      UniqueStaysUnique(s, clock, later);
    } else {
      UniqueStaysUnique(s, clock, ops[0].now);
      StepKeepsCore(s, ops[0]);
      StepKeepsUniqueOwners(s, ops[0]);
      DeduplicationOwnerIsUnique(Step(s, ops[0]).state, ops[1..], ops[0].now, later);
    }
  }
}
