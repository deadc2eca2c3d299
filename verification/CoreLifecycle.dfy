/**
  Claiming, finishing, recovering and managing jobs keeps the core invariant;
  only a claim hands out a lock token. With CoreSubmit this covers every
  operation, hence every run.
 */
module CoreLifecycle {
  import opened Ordering
  import opened JobTypes
  import opened QueueModel
  import opened CoreInvariant
  import opened CoreSubmit
  import opened Operations
  import opened Steps

  // -- Waiting and claiming -----------------------------------------------------

  lemma PutInOrderKeeps(s: QueueState, id: JobId, job: Job)
    requires Core(s) && id in s.jobs && WellFormedJob(id, job) && ListsAtLeast(s, id, job)
    requires job.state != Active && job.enqueuedSeq == s.jobs[id].enqueuedSeq
    ensures Keeps(s, PutInOrder(s, id, job))
  {
    PutInOrderKeepsCore(s, id, job);
  }

  /** The listed jobs were queued; nothing else but the sequence moved. */
  ghost predicate QueuedAll(s: QueueState, t: QueueState, ids: seq<JobId>)
  {
    && t == s.(jobs := t.jobs, sequence := t.sequence) && s.sequence <= t.sequence
    && t.jobs.Keys == s.jobs.Keys
    && (forall id | id in s.jobs && id !in ids :: t.jobs[id] == s.jobs[id])
    && (forall id | id in ids && id in s.jobs :: t.jobs[id] == s.jobs[id].(state := Waiting, enqueuedSeq := t.jobs[id].enqueuedSeq))
  }

  lemma QueuedOneMore(s: QueueState, t: QueueState, ids: seq<JobId>, id: JobId)
    requires QueuedAll(s, t, ids) && id in s.jobs && id !in ids
    ensures QueuedAll(s, PutInOrder(t, id, t.jobs[id].(state := Waiting)), ids + [id])
  {
  }

  /** Promotion moves exactly the listed jobs to waiting. */
  lemma {:induction false} PromoteEachFrame(s: QueueState, ids: seq<JobId>)
    requires NoDuplicates(ids) && forall id | id in ids :: id in s.jobs
    ensures QueuedAll(s, PromoteEach(s, ids), ids)
    decreases |ids|
  {
    if ids != [] {
      var n := |ids| - 1;
      assert ids == ids[..n] + [ids[n]];
      PromoteEachFrame(s, ids[..n]);
      assert ids[n] !in ids[..n];
      QueuedOneMore(s, PromoteEach(s, ids[..n]), ids[..n], ids[n]);
    }
  }

  lemma QueuedNextKeeps(s: QueueState, t: QueueState, id: JobId)
    requires Keeps(s, t) && id in t.jobs && t.jobs[id].state == Delayed
    ensures Keeps(s, PutInOrder(t, id, t.jobs[id].(state := Waiting)))
  {
    assert WellFormedJob(id, t.jobs[id]);
    PutInOrderKeeps(t, id, t.jobs[id].(state := Waiting));
    QuietTransitive(s, t, PutInOrder(t, id, t.jobs[id].(state := Waiting)));
  }

  lemma {:induction false} PromoteEachKeeps(s: QueueState, ids: seq<JobId>)
    requires Core(s) && NoDuplicates(ids) && forall id | id in ids :: id in s.jobs && s.jobs[id].state == Delayed
    ensures Keeps(s, PromoteEach(s, ids))
    decreases |ids|
  {
    if ids != [] {
      var n := |ids| - 1;
      assert ids == ids[..n] + [ids[n]];
      PromoteEachFrame(s, ids[..n]);
      PromoteEachKeeps(s, ids[..n]);
      assert ids[n] !in ids[..n];
      QueuedNextKeeps(s, PromoteEach(s, ids[..n]), ids[n]);
    }
  }

  lemma PromoteDueKeeps(s: QueueState, now: Time)
    requires Core(s)
    ensures Keeps(s, PromoteDue(s, now).state)
  {
    PromoteEachKeeps(s, Sorted(DueRanks(s, now), DueRanks(s, now).Keys));
  }

  /** The token handed out is one nobody holds. */
  ghost predicate FreshToken(s: QueueState, token: Token)
  {
    forall id | id in s.jobs :: s.jobs[id].lockToken != Some(token)
  }

  lemma ClaimKeepsCore(s: QueueState, worker: string, token: Token, leaseFor: Duration, now: Time)
    requires Core(s) && FreshToken(s, token)
    ensures Core(ClaimNext(s, worker, token, leaseFor, now).state)
  {
    if !s.paused {
      PromoteDueKeeps(s, now);
      var promoted := PromoteDue(s, now).state;
      forall id | id in promoted.jobs ensures promoted.jobs[id].lockToken != Some(token) {
        if promoted.jobs[id].lockToken.Some? { assert promoted.jobs[id].lockToken == TokenOf(s, id); }
      }
      var id := Claimable(promoted);
      if id.Some? {
        assert IsClaimable(promoted, id.value);
        assert WellFormedJob(id.value, promoted.jobs[id.value]);
        PutKeepsCore(promoted, id.value, Claimed(promoted.jobs[id.value], worker, token, leaseFor, now));
      }
    }
  }

  // -- Finishing -----------------------------------------------------------------

  lemma RecordWithParentIsCalm(s: QueueState, child: Job)
    requires Core(s)
    ensures Core(RecordWithParent(s, child)) && Calm(s, RecordWithParent(s, child))
  {
    if child.parentId.Some? { RecordIsCalm(s, child.parentId.value, child); }
  }

  lemma NextRepeatJobIsNew(queue: string, job: Job, uuid: JobId, cronNext: Option<Time>, now: Time)
    requires WellFormedJob(job.id, job) && uuid != ""
    requires NextRepeatJob(queue, job, uuid, cronNext, now).Some?
    ensures var next := NextRepeatJob(queue, job, uuid, cronNext, now).value;
            WellFormedJob(next.id, next) && next.id == uuid && next.enqueuedSeq == 0
            && (next.state == Waiting || next.state == Delayed) && next.parentId.None? && next.childIds == []
  {
  }

  /** What follows the end of a job is calm. */
  lemma FinishIsCalm(s: QueueState, id: JobId, finished: Job, now: Time)
    requires Core(Put(s, id, finished))
    ensures Calm(Put(s, id, finished), RetainFinished(RecordWithParent(Put(s, id, finished), finished), id, finished, now))
  {
    var stored := Put(s, id, finished);
    var recorded := RecordWithParent(stored, finished);
    RecordWithParentIsCalm(stored, finished);
    RetainFinishedIsCalm(recorded, id, finished, now);
    CalmTransitive(stored, recorded, RetainFinished(recorded, id, finished, now));
  }

  /** A finished job's record, its index entry and its retention. */
  lemma FinishKeeps(s: QueueState, id: JobId, finished: Job, now: Time)
    requires Core(s) && id in s.jobs && WellFormedJob(id, finished) && ListsAtLeast(s, id, finished)
    requires finished.lockToken.None? && finished.enqueuedSeq == s.jobs[id].enqueuedSeq
    ensures Keeps(s, RetainFinished(RecordWithParent(Put(s, id, finished), finished), id, finished, now))
    ensures Quiet(Put(s, id, finished), RetainFinished(RecordWithParent(Put(s, id, finished), finished), id, finished, now))
    ensures RetainFinished(RecordWithParent(Put(s, id, finished), finished), id, finished, now).jobs.Keys <= s.jobs.Keys
  {
    var stored := Put(s, id, finished);
    PutKeeps(s, id, finished);
    RecordWithParentIsCalm(stored, finished);
    var recorded := RecordWithParent(stored, finished);
    KeepsThenCalm(s, stored, recorded);
    RetainFinishedIsCalm(recorded, id, finished, now);
    KeepsThenCalm(s, recorded, RetainFinished(recorded, id, finished, now));
    CalmTransitive(stored, recorded, RetainFinished(recorded, id, finished, now));
    CalmIsQuiet(stored, RetainFinished(recorded, id, finished, now));
  }

  lemma CompleteKeeps(s: QueueState, id: JobId, token: Token, value: Value, uuid: JobId, cronNext: Option<Time>, now: Time)
    requires Core(s) && uuid != "" && uuid !in s.jobs
    ensures Keeps(s, Complete(s, id, token, value, uuid, cronNext, now).state)
    ensures var c := Complete(s, id, token, value, uuid, cronNext, now); c.reply.Ok? ==> Quiet(Put(s, id, c.reply.value), c.state)
  {
    if Complete(s, id, token, value, uuid, cronNext, now).reply.Ok? {
      var completed := CompletedJob(s.jobs[id], value, now);
      assert WellFormedJob(id, s.jobs[id]);
      FinishKeeps(s, id, completed, now);
      var retained := RetainFinished(RecordWithParent(Put(s, id, completed), completed), id, completed, now);
      var next := NextRepeatJob(s.queue, completed, uuid, cronNext, now);
      var succeeded := if next.Some? then Insert(retained, next.value) else retained;
      if next.Some? {
        NextRepeatJobIsNew(s.queue, completed, uuid, cronNext, now);
        InsertKeeps(retained, next.value);
        QuietTransitive(s, retained, succeeded);
        QuietTransitive(Put(s, id, completed), retained, succeeded);
      }
      if completed.parentId.Some? {
        ReleaseParentIsCalm(succeeded, completed.parentId.value, now);
        var released := ReleaseParent(succeeded, completed.parentId.value, now);
        CalmIsQuiet(succeeded, released);
        QuietTransitive(s, succeeded, released);
        QuietTransitive(Put(s, id, completed), succeeded, released);
      }
    }
  }

  lemma ReactIsCalm(s: QueueState, child: Job, now: Time)
    requires Core(s)
    ensures Core(React(s, child, now)) && Calm(s, React(s, child, now)) && SameIndexes(s, React(s, child, now))
  {
    if child.parentId.Some? {
      var parentId := child.parentId.value;
      match ReactionTo(child)
      case Defer => DeferParentFailureIsCalm(s, parentId, child.id, now);
      case Continue => ContinueParentIsCalm(s, parentId, now);
      case Release => ReleaseParentIsCalm(s, parentId, now);
      case FailOutright => FailParentIsCalm(s, parentId, ChildFailureReason(child.id, child.failedReason), now);
    }
  }

  lemma FailKeeps(s: QueueState, id: JobId, token: Token, error: string, allowRetry: bool, backoff: Duration, now: Time)
    requires Core(s)
    ensures Keeps(s, Fail(s, id, token, error, allowRetry, backoff, now).state)
    ensures var f := Fail(s, id, token, error, allowRetry, backoff, now); f.reply.Ok? ==> Quiet(Put(s, id, f.reply.value), f.state)
  {
    if RequireLease(s, id, token).None? {
      assert WellFormedJob(id, s.jobs[id]);
      if allowRetry && ShouldRetry(s.jobs[id]) {
        PutKeeps(s, id, RetryingJob(s.jobs[id], error, backoff, now));
      } else {
        var failed := FailedJob(s.jobs[id], error, now);
        FinishKeeps(s, id, failed, now);
        var retained := RetainFinished(RecordWithParent(Put(s, id, failed), failed), id, failed, now);
        ReactIsCalm(retained, failed, now);
        CalmIsQuiet(retained, React(retained, failed, now));
        QuietTransitive(s, retained, React(retained, failed, now));
        QuietTransitive(Put(s, id, failed), retained, React(retained, failed, now));
      }
    }
  }

  lemma RenewKeeps(s: QueueState, id: JobId, token: Token, leaseFor: Duration, now: Time)
    requires Core(s)
    ensures Keeps(s, Renew(s, id, token, leaseFor, now).state)
  {
    if RequireLease(s, id, token).None? {
      assert WellFormedJob(id, s.jobs[id]);
      PutKeeps(s, id, Renew(s, id, token, leaseFor, now).reply.value);
    }
  }

  lemma DelayActiveKeeps(s: QueueState, id: JobId, token: Token, delay: Duration, now: Time)
    requires Core(s)
    ensures Keeps(s, DelayActive(s, id, token, delay, now).state)
  {
    if RequireLease(s, id, token).None? {
      assert WellFormedJob(id, s.jobs[id]);
      PutKeeps(s, id, DelayActive(s, id, token, delay, now).reply.value);
    }
  }

  lemma ReleaseActiveKeeps(s: QueueState, id: JobId, token: Token, now: Time)
    requires Core(s)
    ensures Keeps(s, ReleaseActive(s, id, token, now).state)
  {
    if RequireLease(s, id, token).None? {
      assert WellFormedJob(id, s.jobs[id]);
      PutKeeps(s, id, ReleaseActive(s, id, token, now).reply.value);
    }
  }

  // -- Recovery --------------------------------------------------------------------

  /** The listed jobs were recovered; nothing else but the sequence moved. */
  ghost predicate RecoveredAll(s: QueueState, t: QueueState, ids: seq<JobId>, now: Time)
  {
    && t == s.(jobs := t.jobs, sequence := t.sequence) && s.sequence <= t.sequence
    && t.jobs.Keys == s.jobs.Keys
    && (forall id | id in s.jobs && id !in ids :: t.jobs[id] == s.jobs[id])
    && (forall id | id in ids && id in s.jobs :: RecoveredFrom(s.jobs[id], t.jobs[id], now))
  }

  lemma RecoveredOneMore(s: QueueState, t: QueueState, ids: seq<JobId>, id: JobId, now: Time)
    requires RecoveredAll(s, t, ids, now) && id in s.jobs && id !in ids
    ensures RecoveredAll(s, Recovered(t, id, now), ids + [id], now)
  {
  }

  /** Recovery of `ids` touches nothing else, and ends each of them failed or waiting. */
  lemma {:induction false} RecoverEachFrame(s: QueueState, ids: seq<JobId>, now: Time)
    requires NoDuplicates(ids) && forall id | id in ids :: id in s.jobs
    ensures RecoveredAll(s, RecoverEach(s, ids, now), ids, now)
    decreases |ids|
  {
    if ids != [] {
      var n := |ids| - 1;
      assert ids == ids[..n] + [ids[n]];
      RecoverEachFrame(s, ids[..n], now);
      assert ids[n] !in ids[..n];
      RecoveredOneMore(s, RecoverEach(s, ids[..n], now), ids[..n], ids[n], now);
    }
  }

  lemma {:induction false} RecoverEachKeeps(s: QueueState, ids: seq<JobId>, now: Time)
    requires Core(s) && NoDuplicates(ids) && forall id | id in ids :: id in s.jobs && s.jobs[id].state == Active
    ensures Keeps(s, RecoverEach(s, ids, now))
    decreases |ids|
  {
    if ids != [] {
      var n := |ids| - 1;
      assert ids == ids[..n] + [ids[n]];
      RecoverEachFrame(s, ids[..n], now);
      RecoverEachKeeps(s, ids[..n], now);
      assert ids[n] !in ids[..n];
      RecoveredNextKeeps(s, RecoverEach(s, ids[..n], now), ids[n], now);
    }
  }

  /** What recovery makes of one stalled job. */
  predicate RecoveredFrom(before: Job, after: Job, now: Time)
  {
    var job := Stalled(before);
    if job.stalledCount > job.options.maxStalledCount && !IsRepeatSchedulerJob(job)
    then after == job.(state := Failed, finishedAt := Some(now))
    else after == job.(state := Waiting, processedAt := None, enqueuedSeq := after.enqueuedSeq)
  }

  lemma RecoveredKeeps(s: QueueState, id: JobId, now: Time)
    requires Core(s) && id in s.jobs && s.jobs[id].state == Active
    ensures Keeps(s, Recovered(s, id, now))
  {
    assert WellFormedJob(id, s.jobs[id]);
    var job := Stalled(s.jobs[id]);
    if job.stalledCount > job.options.maxStalledCount && !IsRepeatSchedulerJob(job) {
      PutKeeps(s, id, job.(state := Failed, finishedAt := Some(now)));
    } else {
      PutInOrderKeeps(s, id, job.(state := Waiting, processedAt := None));
    }
  }

  lemma RecoveredNextKeeps(s: QueueState, t: QueueState, id: JobId, now: Time)
    requires Keeps(s, t) && id in t.jobs && t.jobs[id].state == Active
    ensures Keeps(s, Recovered(t, id, now))
  {
    RecoveredKeeps(t, id, now);
    QuietTransitive(s, t, Recovered(t, id, now));
  }

  lemma SettleFailureIsCalm(s: QueueState, failed: Job, now: Time)
    requires Core(s)
    ensures Core(SettleFailure(s, failed, now)) && Calm(s, SettleFailure(s, failed, now))
  {
    RecordWithParentIsCalm(s, failed);
    var recorded := RecordWithParent(s, failed);
    if failed.options.FailedRetention().Some? {
      ApplyRetentionIsCalm(recorded, Failed, failed.options.FailedRetention().value, now);
      CalmTransitive(s, recorded, SettleFailure(s, failed, now));
    }
  }

  lemma {:induction false} SettleFailuresIsCalm(s: QueueState, failures: seq<Job>, now: Time)
    requires Core(s)
    ensures Core(SettleFailures(s, failures, now)) && Calm(s, SettleFailures(s, failures, now))
    decreases |failures|
  {
    if failures != [] {
      var n := |failures| - 1;
      SettleFailuresIsCalm(s, failures[..n], now);
      var before := SettleFailures(s, failures[..n], now);
      SettleFailureIsCalm(before, failures[n], now);
      CalmTransitive(s, before, SettleFailures(s, failures, now));
    }
  }

  lemma {:induction false} ReactAllIsCalm(s: QueueState, failures: seq<Job>, r: Reaction, now: Time)
    requires Core(s)
    ensures Core(ReactAll(s, failures, r, now)) && Calm(s, ReactAll(s, failures, r, now))
    ensures SameIndexes(s, ReactAll(s, failures, r, now))
    decreases |failures|
  {
    if failures != [] {
      var n := |failures| - 1;
      ReactAllIsCalm(s, failures[..n], r, now);
      var before := ReactAll(s, failures[..n], r, now);
      if ReactionTo(failures[n]) == r {
        ReactIsCalm(before, failures[n], now);
        CalmTransitive(s, before, ReactAll(s, failures, r, now));
      }
    }
  }

  /** Everything recovery does after the stalled jobs themselves were rewritten. */
  lemma RecoveryAftermathIsCalm(s: QueueState, failures: seq<Job>, now: Time)
    requires Core(s)
    ensures var t := AfterRecovery(s, failures, now); Core(t) && Calm(s, t)
  {
    var removed := RemoveAll(s, RemovedAtOnce(failures));
    RemoveAllIsCalm(s, RemovedAtOnce(failures));
    SettleFailuresIsCalm(removed, failures, now);
    var settled := SettleFailures(removed, failures, now);
    CalmTransitive(s, removed, settled);
    ReactionsAreCalm(settled, failures, now);
    CalmTransitive(s, settled, Reactions(settled, failures, now));
  }

  lemma ReactionsAreCalm(s: QueueState, failures: seq<Job>, now: Time)
    requires Core(s)
    ensures var t := Reactions(s, failures, now); Core(t) && Calm(s, t) && SameIndexes(s, t)
  {
    ReactAllIsCalm(s, failures, Defer, now);
    var a := ReactAll(s, failures, Defer, now);
    ReactAllIsCalm(a, failures, Continue, now);
    var b := ReactAll(a, failures, Continue, now);
    ReactAllIsCalm(b, failures, Release, now);
    var c := ReactAll(b, failures, Release, now);
    ReactAllIsCalm(c, failures, FailOutright, now);
    CalmTransitive(s, a, b);
    CalmTransitive(s, b, c);
    CalmTransitive(s, c, Reactions(s, failures, now));
  }

  lemma RecoverStalledKeeps(s: QueueState, now: Time)
    requires Core(s)
    ensures Keeps(s, RecoverStalled(s, now).state)
  {
    var stalled := Sorted(StalledRanks(s, now), StalledRanks(s, now).Keys);
    RecoverEachKeeps(s, stalled, now);
    var recovered := RecoverEach(s, stalled, now);
    RecoveryAftermathIsCalm(recovered, FailedAmong(recovered, stalled), now);
    KeepsThenCalm(s, recovered, RecoverStalled(s, now).state);
  }

  // -- Management --------------------------------------------------------------------

  lemma PromoteKeeps(s: QueueState, id: JobId, now: Time)
    requires Core(s)
    ensures Keeps(s, Promote(s, id, now).state)
  {
    if id in s.jobs && s.jobs[id].state == Delayed {
      assert WellFormedJob(id, s.jobs[id]);
      PutInOrderKeeps(s, id, s.jobs[id].(state := Waiting, scheduledAt := now));
    }
  }

  lemma RescheduleKeeps(s: QueueState, id: JobId, delay: Duration, now: Time)
    requires Core(s)
    ensures Keeps(s, Reschedule(s, id, delay, now).state)
  {
    if Reschedule(s, id, delay, now).reply.Ok? {
      assert WellFormedJob(id, s.jobs[id]);
      PutKeeps(s, id, Reschedule(s, id, delay, now).reply.value);
    }
  }

  lemma RestoreParentKeeps(s: QueueState, parentId: JobId, childId: JobId)
    requires Core(s)
    ensures Keeps(s, RestoreParent(s, parentId, childId))
  {
    if RestoreParent(s, parentId, childId) != s {
      ClearKeepsIndexes(s, parentId, childId);
      ClearRemovesEveryTrace(s, parentId, childId);
      var cleared := ClearChildDependency(s, parentId, childId);
      assert Keeps(s, cleared);
      assert WellFormedJob(parentId, s.jobs[parentId]);
      PutKeeps(cleared, parentId, Parked(s.jobs[parentId]));
      QuietTransitive(s, cleared, RestoreParent(s, parentId, childId));
    }
  }

  lemma RetriedIsWellFormed(id: JobId, job: Job, now: Time)
    requires WellFormedJob(id, job)
    ensures WellFormedJob(id, RetriedJob(job, now))
  {
  }

  lemma RequeuedKeeps(s: QueueState, id: JobId, now: Time)
    requires Core(s) && id in s.jobs && s.jobs[id].state.IsTerminal()
    ensures Keeps(s, PutInOrder(ForgetReleasedOwner(s, id, s.jobs[id]), id, RetriedJob(s.jobs[id], now)))
  {
    var forgotten := ForgetReleasedOwner(s, id, s.jobs[id]);
    RetriedIsWellFormed(id, s.jobs[id], now);
    assert Core(forgotten) && Quiet(s, forgotten);
    PutInOrderKeeps(forgotten, id, RetriedJob(s.jobs[id], now));
    QuietTransitive(s, forgotten, PutInOrder(forgotten, id, RetriedJob(s.jobs[id], now)));
  }

  lemma RetryKeeps(s: QueueState, id: JobId, now: Time)
    requires Core(s)
    ensures Keeps(s, Retry(s, id, now).state)
  {
    if Retry(s, id, now).reply.Ok? {
      RequeuedKeeps(s, id, now);
      var waiting := PutInOrder(ForgetReleasedOwner(s, id, s.jobs[id]), id, RetriedJob(s.jobs[id], now));
      if s.jobs[id].parentId.Some? {
        RestoreParentKeeps(waiting, s.jobs[id].parentId.value, id);
        QuietTransitive(s, waiting, RestoreParent(waiting, s.jobs[id].parentId.value, id));
      }
    }
  }

  lemma SetPriorityKeeps(s: QueueState, id: JobId, priority: nat, lifo: Option<bool>)
    requires Core(s)
    ensures Keeps(s, SetPriority(s, id, priority, lifo).state)
  {
    if SetPriority(s, id, priority, lifo).reply.Ok? {
      var current := s.jobs[id];
      assert WellFormedJob(id, current);
      var options := current.options.(priority := priority, lifo := if lifo.Some? then lifo.value else current.options.lifo);
      assert options.FailurePolicies() == current.options.FailurePolicies();
      var updated := current.(priority := priority, options := options);
      if current.state == Waiting { PutInOrderKeeps(s, id, updated); } else { PutKeeps(s, id, updated); }
    }
  }

  lemma RemoveJobKeeps(s: QueueState, id: JobId, now: Time)
    requires Core(s)
    ensures Keeps(s, RemoveJob(s, id, now).state)
  {
    if id in s.jobs {
      RemoveIsCalm(s, id);
      KeepsThenCalm(s, s, Remove(s, id));
      if s.jobs[id].parentId.Some? {
        ReleaseParentIsCalm(Remove(s, id), s.jobs[id].parentId.value, now);
        KeepsThenCalm(s, Remove(s, id), ReleaseParent(Remove(s, id), s.jobs[id].parentId.value, now));
      }
    }
  }

  lemma ReplaceRepeatKeeps(s: QueueState, job: Job, owner: Option<JobId>)
    requires Core(s) && IsNew(job) && (job.id !in s.jobs || owner == Some(job.id))
    ensures Keeps(s, ReplaceRepeat(s, job, owner))
  {
    if owner.Some? {
      var freed := Remove(s, owner.value);
      RemoveIsCalm(s, owner.value);
      KeepsThenCalm(s, s, freed);
      InsertKeeps(freed, job);
      QuietTransitive(s, freed, Insert(freed, job));
    } else {
      InsertKeeps(s, job);
    }
  }

  lemma UpsertRepeatKeeps(s: QueueState, spec: JobSpec, uuid: JobId, now: Time)
    requires Core(s) && uuid != ""
    ensures Keeps(s, UpsertRepeat(s, spec, uuid, now).state)
  {
    var job := NewJob(s.queue, spec, uuid, now);
    if UpsertRepeat(s, spec, uuid, now).reply.Ok? {
      NewJobIsNew(s.queue, spec, uuid, now);
      ReplaceRepeatKeeps(s, job, Find(s, RepeatOwners(s, job.repeatKey.value)));
    }
  }

  lemma RemoveAllAndReleaseKeeps(s: QueueState, ids: seq<JobId>, now: Time)
    requires Core(s)
    ensures Keeps(s, RemoveAllAndRelease(s, ids, now))
  {
    RemoveAllIsCalm(s, Elements(ids));
    var removed := RemoveAll(s, Elements(ids));
    ReleaseParentsIsCalm(removed, ParentsOf(s, ids), now);
    CalmTransitive(s, removed, RemoveAllAndRelease(s, ids, now));
    KeepsThenCalm(s, s, RemoveAllAndRelease(s, ids, now));
  }

  lemma SaveStacktraceKeeps(s: QueueState, id: JobId, reason: string)
    requires Core(s)
    ensures Keeps(s, SaveStacktrace(s, id, reason).state)
  {
    if id in s.jobs {
      assert WellFormedJob(id, s.jobs[id]);
      PutKeeps(s, id, s.jobs[id].(failedReason := Some(reason)));
    }
  }

  lemma RemoveDeduplicationKeyKeeps(s: QueueState, key: string, now: Time)
    requires Core(s)
    ensures Keeps(s, RemoveDeduplicationKey(s, key, now).state)
  {
  }

  lemma ObliterateKeeps(s: QueueState, force: bool)
    requires Core(s)
    ensures Keeps(s, Obliterate(s, force).state)
  {
  }

  lemma RemoveRepeatKeeps(s: QueueState, key: string, now: Time)
    requires Core(s)
    ensures Keeps(s, RemoveRepeat(s, key, now).state)
  {
    var owner := Find(s, RepeatOwners(s, key));
    if owner.Some? { RemoveJobKeeps(s, owner.value, now); }
  }

  lemma CleanKeeps(s: QueueState, state: JobState, grace: Duration, limit: nat, now: Time)
    requires Core(s)
    ensures Keeps(s, Clean(s, state, grace, limit, now).state)
  {
    var ranks := CleanRanks(s, state, Earlier(now, grace));
    RemoveAllAndReleaseKeeps(s, Take(Sorted(ranks, ranks.Keys), limit), now);
  }

  lemma DrainKeeps(s: QueueState, includeDelayed: bool, now: Time)
    requires Core(s)
    ensures Keeps(s, Drain(s, includeDelayed, now).state)
  {
    var ranks := DrainRanks(s, includeDelayed);
    RemoveAllAndReleaseKeeps(s, Sorted(ranks, ranks.Keys), now);
  }

  lemma RehashKeeps(s: QueueState, layout: Layout)
    requires Core(s)
    ensures Keeps(s, Rehash(s, layout))
  {
  }

  lemma SetPausedKeeps(s: QueueState, paused: bool)
    requires Core(s)
    ensures Keeps(s, SetPaused(s, paused))
  {
  }

  // -- Every operation -----------------------------------------------------------------

  /** Generated ids are not in use: a claim's token, a repeat successor's id. */
  ghost predicate FreshIds(s: QueueState, op: Op)
  {
    match op
    case OpClaim(_, token, _, _) => FreshToken(s, token)
    case OpComplete(_, _, _, uuid, _, _) => uuid !in s.jobs
    case _ => true
  }

  lemma SubmissionKeeps(s: QueueState, op: Op)
    requires Core(s) && op.WellFormed() && op.Submits()
    ensures Keeps(s, Submission(s, op).state)
  {
    match op
    case OpAdd(spec, uuid, now) => AddKeeps(s, spec, uuid, now);
    case OpAddMany(specs, uuids, now) => AddManyKeeps(s, specs, uuids, now);
    case OpAddFlow(parent, uuid, specs, uuids, now) => AddFlowKeeps(s, parent, uuid, specs, uuids, now);
    case OpAddFlowChildren(id, token, specs, uuids, now) => AddFlowChildrenKeeps(s, id, token, specs, uuids, now);
    case OpUpsertRepeat(spec, uuid, now) => UpsertRepeatKeeps(s, spec, uuid, now);
  }

  lemma RemovalKeeps(s: QueueState, op: Op)
    requires Core(s) && op.CleansUp()
    ensures Keeps(s, Removal(s, op).state)
  {
    match op
    case OpRemoveUnprocessedChildren(id, now) => RemoveUnprocessedChildrenKeeps(s, id, now);
    case OpRemoveChildDependency(id, now) => RemoveChildDependencyKeeps(s, id, now);
    case OpRemove(id, now) => RemoveJobKeeps(s, id, now);
    case OpRemoveRepeat(key, now) => RemoveRepeatKeeps(s, key, now);
    case OpClean(state, grace, limit, now) => CleanKeeps(s, state, grace, limit, now);
    case OpDrain(includeDelayed, now) => DrainKeeps(s, includeDelayed, now);
  }

  lemma RewriteKeeps(s: QueueState, op: Op)
    requires Core(s) && op.TouchesOne()
    ensures Keeps(s, Rewrite(s, op).state)
  {
    match op
    case OpRenew(id, token, leaseFor, now) => RenewKeeps(s, id, token, leaseFor, now);
    case OpDelayActive(id, token, delay, now) => DelayActiveKeeps(s, id, token, delay, now);
    case OpReleaseActive(id, token, now) => ReleaseActiveKeeps(s, id, token, now);
    case OpPromote(id, now) => PromoteKeeps(s, id, now);
    case OpReschedule(id, delay, now) => RescheduleKeeps(s, id, delay, now);
    case OpSetPriority(id, priority, lifo, _) => SetPriorityKeeps(s, id, priority, lifo);
    case OpRemoveDeduplicationKey(key, now) => RemoveDeduplicationKeyKeeps(s, key, now);
    case OpObliterate(force, _) => ObliterateKeeps(s, force);
    case OpSaveStacktrace(id, reason, _) => SaveStacktraceKeeps(s, id, reason);
    case OpSetPaused(paused, _) => SetPausedKeeps(s, paused);
    case OpRehash(layout, _) => RehashKeeps(s, layout);
  }

  lemma WorkKeeps(s: QueueState, op: Op)
    requires Core(s) && op.WellFormed() && FreshIds(s, op) && op.Works()
    ensures Core(Work(s, op).state)
    ensures !op.OpClaim? ==> Quiet(s, Work(s, op).state)
  {
    match op
    case OpPromoteDue(now) => PromoteDueKeeps(s, now);
    case OpClaim(worker, token, leaseFor, now) => ClaimKeepsCore(s, worker, token, leaseFor, now);
    case OpComplete(id, token, value, uuid, cronNext, now) => CompleteKeeps(s, id, token, value, uuid, cronNext, now);
    case OpFail(id, token, error, allowRetry, backoff, now) => FailKeeps(s, id, token, error, allowRetry, backoff, now);
    case OpRecoverStalled(now) => RecoverStalledKeeps(s, now);
    case OpRetry(id, now) => RetryKeeps(s, id, now);
  }

  /** No operation but a claim hands out a token; all keep the core invariant. */
  lemma StepKeepsCore(s: QueueState, op: Op)
    requires Core(s) && op.WellFormed() && FreshIds(s, op)
    ensures Core(Step(s, op).state)
    ensures !op.OpClaim? ==> Quiet(s, Step(s, op).state)
  {
    if op.Submits() {
      SubmissionKeeps(s, op);
    } else if op.CleansUp() {
      RemovalKeeps(s, op);
    } else if op.TouchesOne() {
      RewriteKeeps(s, op);
    } else {
      WorkKeeps(s, op);
    }
  }

  lemma EmptyQueueIsCore(queue: string, layout: Layout)
    ensures Core(EmptyQueue(queue, layout))
  {
  }
}
