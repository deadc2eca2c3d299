/**
  The retry budget of a job over whole runs: as long as its failures may be
  retried and it never stalls, it fails for good only after the first attempt
  and every retry it is entitled to.
 */
module RetryBudget {
  import opened Ordering
  import opened JobTypes
  import opened QueueModel
  import opened CoreInvariant
  import opened CoreLifecycle
  import opened Operations
  import opened Steps
  import opened BoundedProcessing
  import opened FailureOutcomes
  import opened RecoveryOutcomes
  import opened CompletionOutcomes

  /** Attempts are used up exactly when the job failed, and never before. */
  predicate OnBudget(job: Job)
  {
    && job.options.repeat.None? && job.state != WaitingChildren && job.stalledCount == 0
    && (job.state == Waiting || job.state == Delayed ==> job.attemptsMade <= job.options.maxRetries)
    && (job.state == Active ==> 1 <= job.attemptsMade <= job.options.maxRetries + 1)
    && (job.state == Completed ==> job.attemptsMade <= job.options.maxRetries + 1)
    && (job.state == Failed ==> job.attemptsMade == job.options.maxRetries + 1)
  }

  /** Failures of the job may be retried. */
  predicate RetriesFailures(op: Op, id: JobId) { op.OpFail? && op.id == id ==> op.allowRetry }

  /** The job is still on budget, if it is still stored and did not stall. */
  ghost predicate StaysOnBudget(s: QueueState, t: QueueState, id: JobId)
    requires id in s.jobs
  {
    id in t.jobs && t.jobs[id].stalledCount == 0
    ==> OnBudget(t.jobs[id]) && t.jobs[id].options.maxRetries == s.jobs[id].options.maxRetries
  }

  lemma MildStaysOnBudget(s: QueueState, t: QueueState, id: JobId)
    requires id in s.jobs && OnBudget(s.jobs[id]) && Tends(s, t, id)
    ensures StaysOnBudget(s, t, id)
  {
  }

  lemma ClaimStaysOnBudget(s: QueueState, worker: string, token: Token, leaseFor: Duration, now: Time, id: JobId)
    requires Core(s) && id in s.jobs && OnBudget(s.jobs[id]) && Nameless(s, id)
    ensures StaysOnBudget(s, ClaimNext(s, worker, token, leaseFor, now).state, id)
  {
    PromoteDueTends(s, now, id);
    PromoteDueKeeps(s, now);
    var promoted := PromoteDue(s, now).state;
    var first := Claimable(promoted);
    if !s.paused && first == Some(id) { assert IsClaimable(promoted, id); }
  }

  lemma FailStaysOnBudget(s: QueueState, x: JobId, token: Token, error: string, allowRetry: bool, backoff: Duration, now: Time, id: JobId)
    requires Core(s) && id in s.jobs && OnBudget(s.jobs[id]) && Nameless(s, id) && (x == id ==> allowRetry)
    ensures StaysOnBudget(s, Fail(s, x, token, error, allowRetry, backoff, now).state, id)
  {
    if x != id {
      FailOtherTends(s, x, token, error, allowRetry, backoff, now, id);
    } else if Fail(s, x, token, error, allowRetry, backoff, now).reply.Ok? {
      FailureAnswers(s, id, token, error, allowRetry, backoff, now);
    } else {
      FailureIsRefused(s, id, token, error, allowRetry, backoff, now);
    }
  }

  lemma CompleteStaysOnBudget(s: QueueState, x: JobId, token: Token, value: Value, uuid: JobId, cronNext: Option<Time>, now: Time, id: JobId)
    requires Core(s) && id in s.jobs && OnBudget(s.jobs[id]) && Nameless(s, id) && uuid != "" && uuid !in s.jobs
    ensures StaysOnBudget(s, Complete(s, x, token, value, uuid, cronNext, now).state, id)
  {
    if x != id {
      CompleteOtherTends(s, x, token, value, uuid, cronNext, now, id);
    } else if Complete(s, x, token, value, uuid, cronNext, now).reply.Ok? {
      CompletionAnswers(s, id, token, value, uuid, cronNext, now);
    } else {
      CompletionIsAllowedIff(s, id, token, value, uuid, cronNext, now);
    }
  }

  lemma RecoverStaysOnBudget(s: QueueState, now: Time, id: JobId)
    requires Core(s) && id in s.jobs && OnBudget(s.jobs[id]) && Nameless(s, id)
    ensures StaysOnBudget(s, RecoverStalled(s, now).state, id)
  {
    if id in RecoverStalled(s, now).state.jobs {
      if LeaseIsOver(s.jobs[id], now) {
        RecoveryTakesLeases(s, now, id);
      } else if s.jobs[id].state.IsTerminal() {
        RecoverySparesTheEnded(s, now, id);
      } else {
        RecoverySparesTheRest(s, now, id);
      }
    }
  }

  lemma HolderStaysOnBudget(s: QueueState, op: Op, id: JobId)
    requires op.WellFormed() && op.Works() && (op.OpComplete? || op.OpFail?) && FreshIds(s, op) && RetriesFailures(op, id)
    requires Core(s) && id in s.jobs && OnBudget(s.jobs[id]) && Nameless(s, id)
    ensures StaysOnBudget(s, Work(s, op).state, id)
  {
    if op.OpComplete? {
      CompleteStaysOnBudget(s, op.id, op.token, op.value, op.uuid, op.cronNext, op.now, id);
    } else {
      FailStaysOnBudget(s, op.id, op.token, op.error, op.allowRetry, op.backoff, op.now, id);
    }
  }

  lemma QueueStaysOnBudget(s: QueueState, op: Op, id: JobId)
    requires op.WellFormed() && op.Works()
    requires op.OpRecoverStalled? || op.OpPromoteDue? || op.OpClaim? || (op.OpRetry? && op.id != id)
    requires Core(s) && id in s.jobs && OnBudget(s.jobs[id]) && Nameless(s, id)
    ensures StaysOnBudget(s, Work(s, op).state, id)
  {
    if op.OpRecoverStalled? {
      RecoverStaysOnBudget(s, op.now, id);
    } else if op.OpPromoteDue? {
      PromoteDueTends(s, op.now, id);
    } else if op.OpClaim? {
      ClaimStaysOnBudget(s, op.worker, op.token, op.leaseFor, op.now, id);
    } else {
      RetryOtherTends(s, op.id, op.now, id);
    }
  }

  /** Whatever operation happens, a job that does not stall in it stays on budget. */
  lemma StepStaysOnBudget(s: QueueState, op: Op, id: JobId)
    requires Core(s) && op.WellFormed() && FreshIds(s, op) && LeavesAlone(op, id) && RetriesFailures(op, id)
    requires id in s.jobs && OnBudget(s.jobs[id]) && Nameless(s, id)
    ensures StaysOnBudget(s, Step(s, op).state, id)
  {
    if op.Works() {
      WorkStep(s, op);
      if op.OpComplete? || op.OpFail? { HolderStaysOnBudget(s, op, id); } else { QueueStaysOnBudget(s, op, id); }
    } else {
      assert WellFormedJob(id, s.jobs[id]);
      OtherStepTends(s, op, id);
      MildStaysOnBudget(s, Step(s, op).state, id);
    }
  }

  /** A run that leaves the job alone, retries its failures, and in which it never stalls. */
  ghost predicate Retried(s: QueueState, ops: seq<Op>, id: JobId)
    requires forall k | 0 <= k < |ops| :: ops[k].WellFormed()
    decreases |ops|
  {
    ops == [] ||
    var t := Step(s, ops[0]).state;
    && RetriesFailures(ops[0], id) && (id in t.jobs ==> t.jobs[id].stalledCount == 0)
    && Retried(t, ops[1..], id)
  }

  /**
    The retry budget: over every run that leaves it alone, retries its failures
    and never lets it stall, a job is found failed only with `maxRetries + 1`
    attempts made.
   */
  lemma {:induction false} FailureMeansRetriesUsed(s: QueueState, ops: seq<Op>, id: JobId)
    requires forall k | 0 <= k < |ops| :: ops[k].WellFormed()
    requires Core(s) && id in s.jobs && OnBudget(s.jobs[id]) && Nameless(s, id) && LeftAlone(s, ops, id) && Retried(s, ops, id)
    ensures var t := Run(s, ops);
            id in t.jobs && t.jobs[id].state == Failed ==> t.jobs[id].attemptsMade == s.jobs[id].options.maxRetries + 1
    decreases |ops|
  {
    if ops != [] {
      var t := Step(s, ops[0]).state;
      StepKeepsCore(s, ops[0]);
      StepStaysOnBudget(s, ops[0], id);
      OnBudgetIsWithin(s.jobs[id]);
      StepStaysWithin(s, ops[0], id);
      if id in t.jobs { FailureMeansRetriesUsed(t, ops[1..], id); } else { GoneStaysGone(t, ops[1..], id); }
    }
  }

  lemma OnBudgetIsWithin(job: Job)
    requires OnBudget(job)
    ensures Within(job)
  {
  }

  lemma {:induction false} GoneStaysGone(s: QueueState, ops: seq<Op>, id: JobId)
    requires forall k | 0 <= k < |ops| :: ops[k].WellFormed()
    requires id !in s.jobs && LeftAlone(s, ops, id)
    ensures id !in Run(s, ops).jobs
    decreases |ops|
  {
    if ops != [] { GoneStaysGone(Step(s, ops[0]).state, ops[1..], id); }
  }
}
