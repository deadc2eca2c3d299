/**
  Lease exclusivity over whole runs: a lock token is consumed at most once, and
  once its job lost the lease it never opens anything again.
 */
module Leases {
  import opened Ordering
  import opened JobTypes
  import opened QueueModel
  import opened CoreInvariant
  import opened CoreSubmit
  import opened CoreLifecycle
  import opened Operations
  import opened Steps

  /** Some job is active under this token. */
  ghost predicate Held(s: QueueState, token: Token)
  {
    exists id | id in s.jobs :: s.jobs[id].lockToken == Some(token)
  }

  /** The environment never generates the same token, or an id in use, twice. */
  ghost predicate FreshRun(s: QueueState, ops: seq<Op>, issued: set<Token>)
    decreases |ops|
  {
    ops == [] ||
    var op := ops[0];
    && op.WellFormed()
    && FreshIds(s, op)
    && (op.OpClaim? ==> op.token !in issued)
    && FreshRun(Step(s, op).state, ops[1..], if op.OpClaim? then issued + {op.token} else issued)
  }

  /** The operations that end a lease on behalf of its holder. */
  predicate Spends(op: Op, token: Token)
  {
    || (op.OpComplete? && op.token == token)
    || (op.OpFail? && op.token == token)
    || (op.OpDelayActive? && op.token == token)
    || (op.OpReleaseActive? && op.token == token)
    || (op.OpAddFlowChildren? && op.token == token)
  }

  /** How often `token` is spent successfully along a run. */
  ghost function TimesSpent(s: QueueState, ops: seq<Op>, token: Token): nat
    requires forall k | 0 <= k < |ops| :: ops[k].WellFormed()
    decreases |ops|
  {
    if ops == [] then 0 else
      (if Spends(ops[0], token) && Step(s, ops[0]).success then 1 else 0) + TimesSpent(Step(s, ops[0]).state, ops[1..], token)
  }

  lemma QuietKeepsUnheld(s: QueueState, t: QueueState, token: Token)
    requires Quiet(s, t) && !Held(s, token)
    ensures !Held(t, token)
  {
  }

  /** Rewriting the holder without a token leaves nobody holding it. */
  lemma HolderGone(s: QueueState, id: JobId, job: Job, token: Token)
    requires Core(s) && id in s.jobs && s.jobs[id].lockToken == Some(token) && job.lockToken.None?
    ensures !Held(Put(s, id, job), token)
  {
  }

  lemma CompletingEndsLease(s: QueueState, id: JobId, token: Token, value: Value, uuid: JobId, cronNext: Option<Time>, now: Time)
    requires Core(s) && uuid != "" && uuid !in s.jobs
    requires Complete(s, id, token, value, uuid, cronNext, now).reply.Ok?
    ensures Held(s, token) && !Held(Complete(s, id, token, value, uuid, cronNext, now).state, token)
  {
    CompleteKeeps(s, id, token, value, uuid, cronNext, now);
    var job := CompletedJob(s.jobs[id], value, now);
    HolderGone(s, id, job, token);
    QuietKeepsUnheld(Put(s, id, job), Complete(s, id, token, value, uuid, cronNext, now).state, token);
  }

  lemma FailingEndsLease(s: QueueState, id: JobId, token: Token, error: string, allowRetry: bool, backoff: Duration, now: Time)
    requires Core(s) && Fail(s, id, token, error, allowRetry, backoff, now).reply.Ok?
    ensures Held(s, token) && !Held(Fail(s, id, token, error, allowRetry, backoff, now).state, token)
  {
    FailKeeps(s, id, token, error, allowRetry, backoff, now);
    var job := Fail(s, id, token, error, allowRetry, backoff, now).reply.value;
    HolderGone(s, id, job, token);
    QuietKeepsUnheld(Put(s, id, job), Fail(s, id, token, error, allowRetry, backoff, now).state, token);
  }

  lemma GivingUpEndsLease(s: QueueState, id: JobId, token: Token, delay: Duration, now: Time)
    requires Core(s) && RequireLease(s, id, token).None?
    ensures Held(s, token)
    ensures !Held(DelayActive(s, id, token, delay, now).state, token) && !Held(ReleaseActive(s, id, token, now).state, token)
  {
    HolderGone(s, id, DelayActive(s, id, token, delay, now).reply.value, token);
    HolderGone(s, id, ReleaseActive(s, id, token, now).reply.value, token);
  }

  lemma ParkingEndsLease(s: QueueState, id: JobId, token: Token, specs: seq<JobSpec>, uuids: seq<JobId>, now: Time)
    requires Core(s) && |specs| == |uuids| && "" !in uuids
    requires AddFlowChildren(s, id, token, specs, uuids, now).reply.Ok?
    ensures Held(s, token) && !Held(AddFlowChildren(s, id, token, specs, uuids, now).state, token)
  {
    AddFlowChildrenKeeps(s, id, token, specs, uuids, now);
    HolderGone(s, id, Parked(s.jobs[id]), token);
    QuietKeepsUnheld(Put(s, id, Parked(s.jobs[id])), AddFlowChildren(s, id, token, specs, uuids, now).state, token);
  }

  /** Spending a token takes a lease held under it, and ends that lease. */
  lemma SpendingEndsLease(s: QueueState, op: Op, token: Token)
    requires Core(s) && op.WellFormed() && FreshIds(s, op)
    requires Spends(op, token) && Step(s, op).success
    ensures Held(s, token) && !Held(Step(s, op).state, token)
  {
    if op.OpComplete? {
      CompletingEndsLease(s, op.id, token, op.value, op.uuid, op.cronNext, op.now);
    } else if op.OpFail? {
      FailingEndsLease(s, op.id, token, op.error, op.allowRetry, op.backoff, op.now);
    } else if op.OpDelayActive? {
      GivingUpEndsLease(s, op.id, token, op.delay, op.now);
    } else if op.OpReleaseActive? {
      GivingUpEndsLease(s, op.id, token, 0, op.now);
    } else {
      ParkingEndsLease(s, op.id, token, op.specs, op.uuids, op.now);
    }
  }

  lemma ClaimHandsOutOnlyItsToken(s: QueueState, worker: string, token: Token, leaseFor: Duration, now: Time, other: Token)
    requires Core(s) && FreshToken(s, token) && other != token && !Held(s, other)
    ensures !Held(ClaimNext(s, worker, token, leaseFor, now).state, other)
  {
    if !s.paused {
      PromoteDueKeeps(s, now);
      QuietKeepsUnheld(s, PromoteDue(s, now).state, other);
    }
  }

  lemma QuietStepKeepsUnheld(s: QueueState, op: Op, token: Token)
    requires Core(s) && op.WellFormed() && FreshIds(s, op) && !op.OpClaim? && !Held(s, token)
    ensures !Held(Step(s, op).state, token)
  {
    StepKeepsCore(s, op);
    QuietKeepsUnheld(s, Step(s, op).state, token);
  }

  /** A token that was issued and is no longer held stays invalid forever. */
  lemma UnheldForever(s: QueueState, op: Op, token: Token, issued: set<Token>)
    requires Core(s) && op.WellFormed() && FreshIds(s, op) && token in issued && !Held(s, token)
    requires op.OpClaim? ==> op.token !in issued
    ensures !Held(Step(s, op).state, token)
  {
    if op.OpClaim? {
      ClaimHandsOutOnlyItsToken(s, op.worker, op.token, op.leaseFor, op.now, token);
    } else {
      QuietStepKeepsUnheld(s, op, token);
    }
  }

  ghost predicate AllIssued(s: QueueState, issued: set<Token>)
  {
    forall id | id in s.jobs && s.jobs[id].lockToken.Some? :: s.jobs[id].lockToken.value in issued
  }

  lemma StepKeepsIssued(s: QueueState, op: Op, issued: set<Token>)
    requires Core(s) && op.WellFormed() && FreshIds(s, op) && AllIssued(s, issued)
    ensures AllIssued(Step(s, op).state, if op.OpClaim? then issued + {op.token} else issued)
  {
    if op.OpClaim? {
      ClaimKeepsIssued(s, op.worker, op.token, op.leaseFor, op.now, issued);
    } else {
      StepKeepsCore(s, op);
      QuietKeepsIssued(s, Step(s, op).state, issued);
    }
  }

  lemma QuietKeepsIssued(s: QueueState, t: QueueState, issued: set<Token>)
    requires Quiet(s, t) && AllIssued(s, issued)
    ensures AllIssued(t, issued)
  {
  }

  lemma ClaimKeepsIssued(s: QueueState, worker: string, token: Token, leaseFor: Duration, now: Time, issued: set<Token>)
    requires Core(s) && AllIssued(s, issued)
    ensures AllIssued(ClaimNext(s, worker, token, leaseFor, now).state, issued + {token})
  {
    if !s.paused {
      PromoteDueKeeps(s, now);
      QuietKeepsIssued(s, PromoteDue(s, now).state, issued);
    }
  }

  /**
    Over every run, each lock token is spent successfully at most once. A token
    whose lease ended before the run, by whatever cause, is never spent in it
    and is not held at its end.
   */
  lemma {:induction false} LeaseIsExclusive(s: QueueState, ops: seq<Op>, issued: set<Token>, token: Token)
    requires Core(s) && AllIssued(s, issued) && FreshRun(s, ops, issued)
    requires forall k | 0 <= k < |ops| :: ops[k].WellFormed()
    ensures TimesSpent(s, ops, token) <= 1
    ensures token in issued && !Held(s, token) ==> TimesSpent(s, ops, token) == 0 && !Held(Run(s, ops), token)
    ensures Core(Run(s, ops))
    decreases |ops|
  {
    if ops != [] {
      var op := ops[0];
      var next := Step(s, op).state;
      var more := if op.OpClaim? then issued + {op.token} else issued;
      StepKeepsCore(s, op);
      StepKeepsIssued(s, op, issued);
      LeaseIsExclusive(next, ops[1..], more, token);
      if token in issued && !Held(s, token) { UnheldForever(s, op, token, issued); }
      if Spends(op, token) && Step(s, op).success {
        SpendingEndsLease(s, op, token);
        assert token in issued by {
          var id :| id in s.jobs && s.jobs[id].lockToken == Some(token);
        }
      }
    }
  }

  /** Whoever holds a live token holds exactly one job with it, and that job is active. */
  lemma TokenNamesOneActiveJob(s: QueueState, a: JobId, b: JobId)
    requires Core(s) && a in s.jobs && b in s.jobs
    requires s.jobs[a].lockToken.Some? && s.jobs[b].lockToken == s.jobs[a].lockToken
    ensures a == b && s.jobs[a].state == Active && s.jobs[a].workerId.Some? && s.jobs[a].leaseExpiresAt.Some?
  {
    assert WellFormedJob(a, s.jobs[a]);
  }
}
