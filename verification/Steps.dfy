/**
  The queue as a transition system: one constructor per operation, one atomic
  step per call, and runs of any length.
 */
module Steps {
  import opened Ordering
  import opened JobTypes
  import opened QueueModel
  import opened Operations

  datatype Op =
    | OpAdd(spec: JobSpec, uuid: JobId, now: Time)
    | OpAddMany(specs: seq<JobSpec>, uuids: seq<JobId>, now: Time)
    | OpAddFlow(parent: JobSpec, uuid: JobId, specs: seq<JobSpec>, uuids: seq<JobId>, now: Time)
    | OpAddFlowChildren(id: JobId, token: Token, specs: seq<JobSpec>, uuids: seq<JobId>, now: Time)
    | OpRemoveUnprocessedChildren(id: JobId, now: Time)
    | OpRemoveChildDependency(id: JobId, now: Time)
    | OpPromoteDue(now: Time)
    | OpClaim(worker: string, token: Token, leaseFor: Duration, now: Time)
    | OpComplete(id: JobId, token: Token, value: Value, uuid: JobId, cronNext: Option<Time>, now: Time)
    | OpFail(id: JobId, token: Token, error: string, allowRetry: bool, backoff: Duration, now: Time)
    | OpRenew(id: JobId, token: Token, leaseFor: Duration, now: Time)
    | OpDelayActive(id: JobId, token: Token, delay: Duration, now: Time)
    | OpReleaseActive(id: JobId, token: Token, now: Time)
    | OpRecoverStalled(now: Time)
    | OpPromote(id: JobId, now: Time)
    | OpReschedule(id: JobId, delay: Duration, now: Time)
    | OpRetry(id: JobId, now: Time)
    | OpSetPriority(id: JobId, priority: nat, lifo: Option<bool>, now: Time)
    | OpRemove(id: JobId, now: Time)
    | OpRemoveDeduplicationKey(key: string, now: Time)
    | OpUpsertRepeat(spec: JobSpec, uuid: JobId, now: Time)
    | OpRemoveRepeat(key: string, now: Time)
    | OpClean(state: JobState, grace: Duration, limit: nat, now: Time)
    | OpDrain(includeDelayed: bool, now: Time)
    | OpObliterate(force: bool, now: Time)
    | OpSaveStacktrace(id: JobId, reason: string, now: Time)
    | OpSetPaused(paused: bool, now: Time)
    | OpRehash(layout: Layout, now: Time)
  {
    /** One generated id per submitted job. */
    predicate WellFormed()
    {
      match this
      case OpAddMany(specs, uuids, _) => |specs| == |uuids| && "" !in uuids
      case OpAddFlow(_, uuid, specs, uuids, _) => |specs| == |uuids| && uuid != "" && "" !in uuids
      case OpAddFlowChildren(_, _, specs, uuids, _) => |specs| == |uuids| && "" !in uuids
      case OpAdd(_, uuid, _) => uuid != ""
      case OpUpsertRepeat(_, uuid, _) => uuid != ""
      case OpComplete(_, _, _, uuid, _, _) => uuid != ""
      case _ => true
    }

    /** Jobs are stored. */
    predicate Submits()
    {
      || OpAdd? || OpAddMany? || OpAddFlow? || OpAddFlowChildren? || OpUpsertRepeat?
    }

    /** Jobs are removed or detached. */
    predicate CleansUp()
    {
      || OpRemove? || OpRemoveRepeat? || OpClean? || OpDrain? || OpRemoveUnprocessedChildren?
      || OpRemoveChildDependency?
    }

    /** Jobs are worked on. */
    predicate Works()
    {
      || OpPromoteDue? || OpClaim? || OpComplete? || OpFail? || OpRecoverStalled? || OpRetry?
    }

    /** One record is rewritten at most, or all are dropped. */
    predicate TouchesOne()
    {
      || OpRenew? || OpDelayActive? || OpReleaseActive? || OpPromote? || OpReschedule? || OpSetPriority?
      || OpSaveStacktrace? || OpSetPaused? || OpRemoveDeduplicationKey? || OpObliterate? || OpRehash?
    }
  }

  /** The next state, whether the operation succeeded, and everything its reply says. */
  datatype Outcome = Outcome(state: QueueState, success: bool, error: Option<LaneError>, jobs: seq<Job>, count: nat)

  function JobOutcome(o: Out<Result<Job>>): Outcome
  {
    match o.reply
    case Ok(job) => Outcome(o.state, true, None, [job], 0)
    case Err(e) => Outcome(o.state, false, Some(e), [], 0)
  }

  function JobsOutcome(o: Out<Result<seq<Job>>>): Outcome
  {
    match o.reply
    case Ok(jobs) => Outcome(o.state, true, None, jobs, 0)
    case Err(e) => Outcome(o.state, false, Some(e), [], 0)
  }

  function FlowOutcome(o: Out<Result<JobFlow>>): Outcome
  {
    match o.reply
    case Ok(flow) => Outcome(o.state, true, None, [flow.parent] + flow.children, 0)
    case Err(e) => Outcome(o.state, false, Some(e), [], 0)
  }

  function RemovedOutcome(o: Out<Result<Option<Job>>>): Outcome
  {
    match o.reply
    case Ok(removed) => Outcome(o.state, true, None, if removed.Some? then [removed.value] else [], 0)
    case Err(e) => Outcome(o.state, false, Some(e), [], 0)
  }

  /** A flag counts as one. */
  function FlagOutcome(o: Out<Result<bool>>): Outcome
  {
    match o.reply
    case Ok(flag) => Outcome(o.state, true, None, [], if flag then 1 else 0)
    case Err(e) => Outcome(o.state, false, Some(e), [], 0)
  }

  ghost function Submission(s: QueueState, op: Op): Outcome
    requires op.Submits() && op.WellFormed()
  {
    match op
    case OpAdd(spec, uuid, now) => JobOutcome(Add(s, spec, uuid, now))
    case OpAddMany(specs, uuids, now) => JobsOutcome(AddMany(s, specs, uuids, now))
    case OpAddFlow(parent, uuid, specs, uuids, now) => FlowOutcome(AddFlow(s, parent, uuid, specs, uuids, now))
    case OpAddFlowChildren(id, token, specs, uuids, now) => JobsOutcome(AddFlowChildren(s, id, token, specs, uuids, now))
    case OpUpsertRepeat(spec, uuid, now) => JobOutcome(UpsertRepeat(s, spec, uuid, now))
  }

  ghost function Removal(s: QueueState, op: Op): Outcome
    requires op.CleansUp()
  {
    match op
    case OpRemove(id, now) => RemovedOutcome(RemoveJob(s, id, now))
    case OpRemoveRepeat(key, now) => RemovedOutcome(RemoveRepeat(s, key, now))
    case OpClean(state, grace, limit, now) => var o := Clean(s, state, grace, limit, now); Outcome(o.state, true, None, o.reply, 0)
    case OpDrain(includeDelayed, now) => var o := Drain(s, includeDelayed, now); Outcome(o.state, true, None, o.reply, 0)
    case OpRemoveUnprocessedChildren(id, now) =>
      var o := RemoveUnprocessedChildren(s, id, now);
      Outcome(o.state, o.reply.Some?, None, if o.reply.Some? then o.reply.value else [], 0)
    case OpRemoveChildDependency(id, now) => FlagOutcome(RemoveChildDependency(s, id, now))
  }

  ghost function Rewrite(s: QueueState, op: Op): Outcome
    requires op.TouchesOne()
  {
    match op
    case OpRenew(id, token, leaseFor, now) => JobOutcome(Renew(s, id, token, leaseFor, now))
    case OpDelayActive(id, token, delay, now) => JobOutcome(DelayActive(s, id, token, delay, now))
    case OpReleaseActive(id, token, now) => JobOutcome(ReleaseActive(s, id, token, now))
    case OpPromote(id, now) => JobOutcome(Promote(s, id, now))
    case OpReschedule(id, delay, now) => JobOutcome(Reschedule(s, id, delay, now))
    case OpSetPriority(id, priority, lifo, _) => JobOutcome(SetPriority(s, id, priority, lifo))
    case OpSaveStacktrace(id, reason, _) => JobOutcome(SaveStacktrace(s, id, reason))
    case OpSetPaused(paused, _) => Outcome(SetPaused(s, paused), true, None, [], 0)
    case OpRemoveDeduplicationKey(key, now) => var o := RemoveDeduplicationKey(s, key, now); Outcome(o.state, true, None, [], if o.reply then 1 else 0)
    case OpObliterate(force, _) =>
      var o := Obliterate(s, force);
      match o.reply { case Ok(n) => Outcome(o.state, true, None, [], n) case Err(e) => Outcome(o.state, false, Some(e), [], 0) }
    case OpRehash(layout, _) => Outcome(Rehash(s, layout), true, None, [], 0)
  }

  ghost function Work(s: QueueState, op: Op): Outcome
    requires op.Works() && op.WellFormed()
  {
    match op
    case OpPromoteDue(now) => var o := PromoteDue(s, now); Outcome(o.state, true, None, [], o.reply)
    case OpClaim(worker, token, leaseFor, now) =>
      var o := ClaimNext(s, worker, token, leaseFor, now);
      Outcome(o.state, o.reply.Some?, None, if o.reply.Some? then [o.reply.value] else [], 0)
    case OpComplete(id, token, value, uuid, cronNext, now) => JobOutcome(Complete(s, id, token, value, uuid, cronNext, now))
    case OpFail(id, token, error, allowRetry, backoff, now) => JobOutcome(Fail(s, id, token, error, allowRetry, backoff, now))
    case OpRecoverStalled(now) => var o := RecoverStalled(s, now); Outcome(o.state, true, None, [], o.reply)
    case OpRetry(id, now) => JobOutcome(Retry(s, id, now))
  }

  ghost function Step(s: QueueState, op: Op): Outcome
    requires op.WellFormed()
  {
    if op.Submits() then Submission(s, op)
    else if op.CleansUp() then Removal(s, op)
    else if op.TouchesOne() then Rewrite(s, op)
    else Work(s, op)
  }

  lemma WorkIsNothingElse(op: Op)
    requires op.Works()
    ensures !op.Submits() && !op.CleansUp() && !op.TouchesOne()
  {
  }

  lemma SubmissionStep(s: QueueState, op: Op)
    requires op.WellFormed() && op.Submits()
    ensures Step(s, op) == Submission(s, op)
  {
  }

  lemma WorkStep(s: QueueState, op: Op)
    requires op.WellFormed() && op.Works()
    ensures Step(s, op) == Work(s, op)
  {
    WorkIsNothingElse(op);
  }

  /** The state after a run. */
  ghost function Run(s: QueueState, ops: seq<Op>): QueueState
    requires forall k | 0 <= k < |ops| :: ops[k].WellFormed()
    decreases |ops|
  {
    if ops == [] then s else Run(Step(s, ops[0]).state, ops[1..])
  }

  // -- Operations that rewrite one record ---------------------------------------

  /** Such an operation leaves a record its attempts, its owner keys, its place in a flow and its end. */
  predicate Rewritten(before: Job, after: Job)
  {
    && after.parentId == before.parentId && after.childIds == before.childIds
    && after.attemptsMade == before.attemptsMade && after.stalledCount == before.stalledCount
    && after.repeatKey == before.repeatKey && after.options.repeat == before.options.repeat
    && after.options.maxRetries == before.options.maxRetries && after.options.maxStalledCount == before.options.maxStalledCount
    && after.options.deduplication == before.options.deduplication
    && after.deduplicationExpiresAt == before.deduplicationExpiresAt
    && (after.state == before.state || before.state == Active || (before.state == Delayed && after.state == Waiting))
  }

  ghost predicate RewrittenAll(s: QueueState, t: QueueState)
  {
    && (forall id | id in t.jobs :: id in s.jobs && Rewritten(s.jobs[id], t.jobs[id]))
    && (t.jobs == map[] || s.releasedOwners <= t.releasedOwners)
  }

  lemma TouchedJobsAreRewritten(s: QueueState, op: Op)
    requires op.TouchesOne()
    ensures RewrittenAll(s, Rewrite(s, op).state)
  {
    if op.OpRenew? || op.OpDelayActive? || op.OpReleaseActive? {
      GivenUpJobIsRewritten(s, op);
    } else if op.OpPromote? || op.OpReschedule? {
      MovedJobIsRewritten(s, op);
    } else if op.OpSetPriority? {
      ReprioritisedJobIsRewritten(s, op);
    } else if op.OpSaveStacktrace? {
      ExplainedJobIsRewritten(s, op);
    }
  }

  lemma GivenUpJobIsRewritten(s: QueueState, op: Op)
    requires op.OpRenew? || op.OpDelayActive? || op.OpReleaseActive?
    ensures RewrittenAll(s, Rewrite(s, op).state)
  {
  }

  lemma MovedJobIsRewritten(s: QueueState, op: Op)
    requires op.OpPromote? || op.OpReschedule?
    ensures RewrittenAll(s, Rewrite(s, op).state)
  {
  }

  lemma ReprioritisedJobIsRewritten(s: QueueState, op: Op)
    requires op.OpSetPriority?
    ensures RewrittenAll(s, Rewrite(s, op).state)
  {
  }

  lemma ExplainedJobIsRewritten(s: QueueState, op: Op)
    requires op.OpSaveStacktrace?
    ensures RewrittenAll(s, Rewrite(s, op).state)
  {
  }
}
