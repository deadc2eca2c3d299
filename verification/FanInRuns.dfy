/**
  No lost wake-up over whole runs: every operation keeps the fan-in invariant,
  under conditions its caller can check.
 */
module FanInRuns {
  import opened Ordering
  import opened JobTypes
  import opened QueueModel
  import opened CoreInvariant
  import opened CoreSubmit
  import opened CoreLifecycle
  import opened Operations
  import opened Steps
  import opened FanIn
  import opened FanInSubmit
  import Descendants

  // -- Claiming and finishing ---------------------------------------------------------

  lemma QueuedAllKeepsFlow(s: QueueState, t: QueueState, ids: seq<JobId>)
    requires Flow(s) && QueuedAll(s, t, ids) && forall id | id in ids :: id in s.jobs && s.jobs[id].state == Delayed
    ensures Flow(t)
  {
    forall id | id in s.jobs ensures SameFlowJob(s.jobs[id], t.jobs[id]) {
      if id in ids { assert s.jobs[id].state == Delayed; }
    }
    RewriteKeepsFlow(s, t, {});
  }

  lemma PromoteDueKeepsFlow(s: QueueState, now: Time)
    requires Core(s) && Flow(s)
    ensures Flow(PromoteDue(s, now).state)
  {
    var due := Sorted(DueRanks(s, now), DueRanks(s, now).Keys);
    PromoteEachFrame(s, due);
    QueuedAllKeepsFlow(s, PromoteEach(s, due), due);
  }

  lemma ClaimKeepsFlow(s: QueueState, worker: string, token: Token, leaseFor: Duration, now: Time)
    requires Core(s) && Flow(s)
    ensures Flow(ClaimNext(s, worker, token, leaseFor, now).state)
  {
    if !s.paused {
      PromoteDueKeepsFlow(s, now);
      var promoted := PromoteDue(s, now).state;
      var id := Claimable(promoted);
      if id.Some? {
        assert IsClaimable(promoted, id.value);
        PutKeepsFlow(promoted, id.value, Claimed(promoted.jobs[id.value], worker, token, leaseFor, now), {});
      }
    }
  }

  function ParentSet(job: Job): set<JobId>
  {
    if job.parentId.Some? then {job.parentId.value} else {}
  }

  /** A job reaching a terminal state may leave its own parent asleep, and no other. */
  lemma FinishedKeepsFlow(s: QueueState, id: JobId, finished: Job)
    requires Core(s) && Flow(s) && id in s.jobs && finished.state.IsTerminal()
    requires finished.parentId == s.jobs[id].parentId && finished.childIds == s.jobs[id].childIds
    requires finished.options == s.jobs[id].options
    ensures FlowUpTo(Put(s, id, finished), ParentSet(finished))
  {
    var t := Put(s, id, finished);
    forall x | Unlisted(s, x) ensures Unlisted(t, x) {
      forall p | p in t.jobs ensures x !in t.jobs[p].childIds { assert t.jobs[p].childIds == s.jobs[p].childIds; }
    }
    forall p, c | p in t.jobs && FailsParentOutright(t, c, p) ensures Unlisted(t, p) { assert FailsParentOutright(s, c, p); }
    forall p | IsParked(t, p) && p !in ParentSet(finished) ensures exists c :: Blocking(t, p, c) {
      assert IsParked(s, p);
      var c :| Blocking(s, p, c);
      assert s.jobs[c].parentId == Some(p) && c != id;
      assert Blocking(t, p, c);
    }
  }

  /** Finishing a job, indexing it with its parent and applying retention. */
  lemma FinishKeepsFlow(s: QueueState, id: JobId, finished: Job, now: Time)
    requires Core(s) && Flow(s) && id in s.jobs && finished.state.IsTerminal() && WellFormedJob(id, finished)
    requires finished.parentId == s.jobs[id].parentId && finished.childIds == s.jobs[id].childIds
    requires finished.options == s.jobs[id].options && finished.enqueuedSeq == s.jobs[id].enqueuedSeq
    ensures FlowUpTo(RetainFinished(RecordWithParent(Put(s, id, finished), finished), id, finished, now), ParentSet(finished))
  {
    var stored := Put(s, id, finished);
    FinishedKeepsFlow(s, id, finished);
    PutKeeps(s, id, finished);
    RecordWithParentIsCalm(stored, finished);
    var recorded := RecordWithParent(stored, finished);
    assert recorded.jobs == stored.jobs by { RecordTouchesNoJob(stored, finished); }
    LiveKeepsFlow(stored, recorded, ParentSet(finished));
    RetainFinishedKeepsFlow(recorded, id, finished, now, ParentSet(finished));
  }

  lemma SingletonGone(job: Job)
    requires job.parentId.Some?
    ensures ParentSet(job) - {job.parentId.value} == {}
  {
  }

  lemma CompleteKeepsFlow(s: QueueState, id: JobId, token: Token, value: Value, uuid: JobId, cronNext: Option<Time>, now: Time)
    requires Core(s) && Flow(s) && uuid != "" && uuid !in s.jobs && Unlisted(s, uuid)
    ensures Flow(Complete(s, id, token, value, uuid, cronNext, now).state)
  {
    if Complete(s, id, token, value, uuid, cronNext, now).reply.Ok? {
      assert WellFormedJob(id, s.jobs[id]);
      var completed := CompletedJob(s.jobs[id], value, now);
      var parents := ParentSet(completed);
      FinishKeepsFlow(s, id, completed, now);
      FinishKeeps(s, id, completed, now);
      FinishUnlisted(s, id, completed, now, uuid);
      var retained := RetainFinished(RecordWithParent(Put(s, id, completed), completed), id, completed, now);
      var next := NextRepeatJob(s.queue, completed, uuid, cronNext, now);
      var succeeded := if next.Some? then Insert(retained, next.value) else retained;
      if next.Some? {
        NextRepeatJobIsNew(s.queue, completed, uuid, cronNext, now);
        InsertKeepsFlow(retained, next.value, parents);
        InsertKeeps(retained, next.value);
      }
      assert Core(succeeded) && FlowUpTo(succeeded, parents);
      if completed.parentId.Some? {
        ReleaseParentKeepsFlow(succeeded, completed.parentId.value, now, parents);
        SingletonGone(completed);
      }
    }
  }

  /** Finishing a job lists nobody new. */
  lemma FinishUnlisted(s: QueueState, id: JobId, finished: Job, now: Time, other: JobId)
    requires Core(s) && Flow(s) && id in s.jobs && finished.state.IsTerminal() && WellFormedJob(id, finished)
    requires finished.parentId == s.jobs[id].parentId && finished.childIds == s.jobs[id].childIds
    requires finished.options == s.jobs[id].options && finished.enqueuedSeq == s.jobs[id].enqueuedSeq
    requires Unlisted(s, other)
    ensures Unlisted(RetainFinished(RecordWithParent(Put(s, id, finished), finished), id, finished, now), other)
  {
    var stored := Put(s, id, finished);
    PutKeeps(s, id, finished);
    FinishedKeepsFlow(s, id, finished);
    assert Unlisted(stored, other) by {
      forall p | p in stored.jobs ensures other !in stored.jobs[p].childIds { assert stored.jobs[p].childIds == s.jobs[p].childIds; }
    }
    RecordWithParentIsCalm(stored, finished);
    var recorded := RecordWithParent(stored, finished);
    RetainFinishedIsCalm(recorded, id, finished, now);
    CalmTransitive(stored, recorded, RetainFinished(recorded, id, finished, now));
    CalmKeepsStructure(stored, RetainFinished(recorded, id, finished, now));
  }

  lemma FailKeepsFlow(s: QueueState, id: JobId, token: Token, error: string, allowRetry: bool, backoff: Duration, now: Time)
    requires Core(s) && Flow(s)
    ensures Flow(Fail(s, id, token, error, allowRetry, backoff, now).state)
  {
    if RequireLease(s, id, token).None? {
      assert WellFormedJob(id, s.jobs[id]);
      if allowRetry && ShouldRetry(s.jobs[id]) {
        PutKeepsFlow(s, id, RetryingJob(s.jobs[id], error, backoff, now), {});
      } else {
        var failed := FailedJob(s.jobs[id], error, now);
        FinishKeepsFlow(s, id, failed, now);
        FinishKeeps(s, id, failed, now);
        var retained := RetainFinished(RecordWithParent(Put(s, id, failed), failed), id, failed, now);
        FailureIsPoliced(s, id, failed, now);
        ReactKeepsFlow(retained, failed, now, ParentSet(failed));
        if failed.parentId.Some? { SingletonGone(failed); }
      }
    }
  }

  /** In nested flows a failing job has a policy, so its failure never fails a listed parent outright. */
  lemma FailureIsPoliced(s: QueueState, id: JobId, failed: Job, now: Time)
    requires Core(s) && Flow(s) && id in s.jobs && failed.state.IsTerminal() && WellFormedJob(id, failed)
    requires failed.parentId == s.jobs[id].parentId && failed.childIds == s.jobs[id].childIds
    requires failed.options == s.jobs[id].options && failed.enqueuedSeq == s.jobs[id].enqueuedSeq
    ensures MayFailOutright(RetainFinished(RecordWithParent(Put(s, id, failed), failed), id, failed, now), failed)
  {
    var retained := RetainFinished(RecordWithParent(Put(s, id, failed), failed), id, failed, now);
    FinishKeeps(s, id, failed, now);
    if failed.parentId.Some? && failed.parentId.value in retained.jobs && ReactionTo(failed) == FailOutright {
      assert FailsParentOutright(s, id, failed.parentId.value);
      FinishUnlisted(s, id, failed, now, failed.parentId.value);
    }
  }

  lemma LeaseOpsKeepFlow(s: QueueState, id: JobId, token: Token, d: Duration, now: Time)
    requires Flow(s)
    ensures Flow(Renew(s, id, token, d, now).state)
    ensures Flow(DelayActive(s, id, token, d, now).state)
    ensures Flow(ReleaseActive(s, id, token, now).state)
  {
    if RequireLease(s, id, token).None? {
      PutKeepsFlow(s, id, Renew(s, id, token, d, now).reply.value, {});
      PutKeepsFlow(s, id, DelayActive(s, id, token, d, now).reply.value, {});
      PutKeepsFlow(s, id, ReleaseActive(s, id, token, now).reply.value, {});
    }
  }

  // -- Recovery ------------------------------------------------------------------------

  ghost function ParentsOfJobs(jobs: seq<Job>): set<JobId>
  {
    set k | 0 <= k < |jobs| && jobs[k].parentId.Some? :: jobs[k].parentId.value
  }

  /** Parents of the failures that call for one kind of reaction. */
  ghost function ParentsWith(jobs: seq<Job>, r: Reaction): set<JobId>
  {
    set k | 0 <= k < |jobs| && jobs[k].parentId.Some? && ReactionTo(jobs[k]) == r :: jobs[k].parentId.value
  }

  lemma {:induction false} FailedAmongMeans(s: QueueState, ids: seq<JobId>)
    ensures forall x :: x in FailedAmong(s, ids) <==> exists id :: id in ids && id in s.jobs && s.jobs[id].state == Failed && s.jobs[id] == x
    decreases |ids|
  {
    if ids != [] {
      var n := |ids| - 1;
      FailedAmongMeans(s, ids[..n]);
      assert ids == ids[..n] + [ids[n]];
      forall x ensures x in FailedAmong(s, ids) <==> exists id :: id in ids && id in s.jobs && s.jobs[id].state == Failed && s.jobs[id] == x {
        if x in FailedAmong(s, ids) && x !in FailedAmong(s, ids[..n]) { assert ids[n] in ids && s.jobs[ids[n]] == x; }
      }
    }
  }

  /** Recovery rewrites no link, no option, and parks nobody. */
  lemma RecoverEachLinks(s: QueueState, ids: seq<JobId>, now: Time)
    requires NoDuplicates(ids) && forall id | id in ids :: id in s.jobs && s.jobs[id].state == Active
    ensures var t := RecoverEach(s, ids, now);
            && t.jobs.Keys == s.jobs.Keys
            && (forall id | id in s.jobs :: t.jobs[id].parentId == s.jobs[id].parentId && t.jobs[id].childIds == s.jobs[id].childIds
                  && t.jobs[id].options == s.jobs[id].options && (IsParked(t, id) ==> IsParked(s, id)))
            && (forall id | id in s.jobs && id !in ids :: t.jobs[id] == s.jobs[id])
            && (forall id | id in ids :: t.jobs[id].state == Failed || !t.jobs[id].state.IsTerminal())
  {
    var t := RecoverEach(s, ids, now);
    RecoverEachFrame(s, ids, now);
    forall id | id in s.jobs ensures t.jobs[id].parentId == s.jobs[id].parentId && t.jobs[id].childIds == s.jobs[id].childIds
      && t.jobs[id].options == s.jobs[id].options && (IsParked(t, id) ==> IsParked(s, id))
    {
      if id in ids { assert RecoveredFrom(s.jobs[id], t.jobs[id], now); }
    }
    forall id | id in ids ensures t.jobs[id].state == Failed || !t.jobs[id].state.IsTerminal() {
      assert RecoveredFrom(s.jobs[id], t.jobs[id], now);
    }
  }

  /** After the stalled jobs were rewritten, only parents of the failed ones may be asleep. */
  lemma RecoverEachKeepsFlow(s: QueueState, ids: seq<JobId>, now: Time)
    requires Core(s) && Flow(s) && NoDuplicates(ids) && forall id | id in ids :: id in s.jobs && s.jobs[id].state == Active
    ensures var t := RecoverEach(s, ids, now); FlowUpTo(t, ParentsOfJobs(FailedAmong(t, ids)))
  {
    var t := RecoverEach(s, ids, now);
    RecoverEachLinks(s, ids, now);
    forall x | Unlisted(s, x) ensures Unlisted(t, x) {
      forall p | p in t.jobs ensures x !in t.jobs[p].childIds { assert t.jobs[p].childIds == s.jobs[p].childIds; }
    }
    forall p, c | p in t.jobs && FailsParentOutright(t, c, p) ensures Unlisted(t, p) { assert FailsParentOutright(s, c, p); }
    forall p | IsParked(t, p) && p !in ParentsOfJobs(FailedAmong(t, ids)) ensures exists c :: Blocking(t, p, c) {
      var c :| Blocking(s, p, c);
      assert s.jobs[c].parentId == Some(p);
      if c in ids { FailedChildsParent(t, ids, c); }
      assert Blocking(t, p, c);
    }
  }

  /** The parent of a recovered job that failed is among the parents of the failures. */
  lemma FailedChildsParent(t: QueueState, ids: seq<JobId>, c: JobId)
    requires c in ids && c in t.jobs && t.jobs[c].parentId.Some?
    ensures t.jobs[c].state == Failed ==> t.jobs[c].parentId.value in ParentsOfJobs(FailedAmong(t, ids))
  {
    var failures := FailedAmong(t, ids);
    FailedAmongMeans(t, ids);
    if t.jobs[c].state == Failed {
      assert t.jobs[c] in failures;
      var k :| 0 <= k < |failures| && failures[k] == t.jobs[c];
      assert failures[k].parentId.Some?;
    }
  }

  lemma SettleFailureKeepsFlow(s: QueueState, failed: Job, now: Time, asleep: set<JobId>)
    requires Core(s) && FlowUpTo(s, asleep)
    ensures FlowUpTo(SettleFailure(s, failed, now), asleep)
  {
    RecordWithParentIsCalm(s, failed);
    RecordTouchesNoJob(s, failed);
    var recorded := RecordWithParent(s, failed);
    LiveKeepsFlow(s, recorded, asleep);
    if failed.options.FailedRetention().Some? {
      ApplyRetentionKeepsFlow(recorded, Failed, failed.options.FailedRetention().value, now, asleep);
    }
  }

  lemma {:induction false} SettleFailuresKeepsFlow(s: QueueState, failures: seq<Job>, now: Time, asleep: set<JobId>)
    requires Core(s) && FlowUpTo(s, asleep)
    ensures FlowUpTo(SettleFailures(s, failures, now), asleep)
    decreases |failures|
  {
    if failures != [] {
      var n := |failures| - 1;
      SettleFailuresIsCalm(s, failures[..n], now);
      SettleFailuresKeepsFlow(s, failures[..n], now, asleep);
      SettleFailureKeepsFlow(SettleFailures(s, failures[..n], now), failures[n], now, asleep);
    }
  }

  ghost predicate AllMayFailOutright(s: QueueState, failures: seq<Job>)
  {
    forall k | 0 <= k < |failures| :: MayFailOutright(s, failures[k])
  }

  lemma CalmKeepsMayFail(s: QueueState, t: QueueState, failures: seq<Job>)
    requires Structure(s) && Calm(s, t) && AllMayFailOutright(s, failures)
    ensures AllMayFailOutright(t, failures)
  {
    CalmKeepsStructure(s, t);
    forall k | 0 <= k < |failures| ensures MayFailOutright(t, failures[k]) { assert MayFailOutright(s, failures[k]); }
  }

  lemma {:induction false} ReactAllKeepsFlow(s: QueueState, failures: seq<Job>, r: Reaction, now: Time, asleep: set<JobId>)
    requires Core(s) && FlowUpTo(s, asleep) && AllMayFailOutright(s, failures)
    ensures FlowUpTo(ReactAll(s, failures, r, now), asleep - ParentsWith(failures, r))
    decreases |failures|
  {
    if failures == [] {
      assert asleep - ParentsWith(failures, r) == asleep;
    } else {
      var n := |failures| - 1;
      var last := failures[n];
      var fewer := failures[..n];
      ReactAllIsCalm(s, fewer, r, now);
      ReactAllKeepsFlow(s, fewer, r, now, asleep);
      var before := ReactAll(s, fewer, r, now);
      var rest := asleep - ParentsWith(fewer, r);
      CalmKeepsMayFail(s, before, failures);
      ParentsWithOneMore(fewer, last, r);
      assert failures == fewer + [last];
      if ReactionTo(last) == r {
        ReactKeepsFlow(before, last, now, rest);
        assert asleep - ParentsWith(failures, r) == if last.parentId.Some? then rest - {last.parentId.value} else rest;
      }
    }
  }

  lemma ParentsWithOneMore(jobs: seq<Job>, last: Job, r: Reaction)
    ensures ParentsWith(jobs + [last], r) ==
              ParentsWith(jobs, r) + (if last.parentId.Some? && ReactionTo(last) == r then {last.parentId.value} else {})
  {
    var all := jobs + [last];
    forall p ensures p in ParentsWith(all, r) <==> p in ParentsWith(jobs, r) + (if last.parentId.Some? && ReactionTo(last) == r then {last.parentId.value} else {}) {
      if p in ParentsWith(jobs, r) {
        var k :| 0 <= k < |jobs| && jobs[k].parentId.Some? && ReactionTo(jobs[k]) == r && jobs[k].parentId.value == p;
        assert all[k] == jobs[k];
      }
      if last.parentId.Some? && ReactionTo(last) == r && p == last.parentId.value { assert all[|jobs|] == last; }
    }
  }

  lemma ReactionsKeepFlow(s: QueueState, failures: seq<Job>, now: Time)
    requires Core(s) && FlowUpTo(s, ParentsOfJobs(failures)) && AllMayFailOutright(s, failures)
    ensures Flow(Reactions(s, failures, now))
  {
    var asleep := ParentsOfJobs(failures);
    var a := ReactAll(s, failures, Defer, now);
    var b := ReactAll(a, failures, Continue, now);
    var c := ReactAll(b, failures, Release, now);
    ReactAllIsCalm(s, failures, Defer, now);
    ReactAllIsCalm(a, failures, Continue, now);
    ReactAllIsCalm(b, failures, Release, now);
    ReactAllKeepsFlow(s, failures, Defer, now, asleep);
    CalmKeepsMayFail(s, a, failures);
    ReactAllKeepsFlow(a, failures, Continue, now, asleep - ParentsWith(failures, Defer));
    CalmKeepsMayFail(a, b, failures);
    ReactAllKeepsFlow(b, failures, Release, now, asleep - ParentsWith(failures, Defer) - ParentsWith(failures, Continue));
    CalmKeepsMayFail(b, c, failures);
    ReactAllKeepsFlow(c, failures, FailOutright, now,
      asleep - ParentsWith(failures, Defer) - ParentsWith(failures, Continue) - ParentsWith(failures, Release));
    EveryParentReactedTo(failures);
  }

  lemma EveryParentReactedTo(failures: seq<Job>)
    ensures ParentsOfJobs(failures) - ParentsWith(failures, Defer) - ParentsWith(failures, Continue)
            - ParentsWith(failures, Release) - ParentsWith(failures, FailOutright) == {}
  {
    forall p | p in ParentsOfJobs(failures)
      ensures p in ParentsWith(failures, Defer) || p in ParentsWith(failures, Continue)
              || p in ParentsWith(failures, Release) || p in ParentsWith(failures, FailOutright)
    {
      var k :| 0 <= k < |failures| && failures[k].parentId.Some? && failures[k].parentId.value == p;
      assert p in ParentsWith(failures, ReactionTo(failures[k]));
    }
  }

  ghost predicate AllFailedRecords(s: QueueState, failures: seq<Job>)
  {
    forall k | 0 <= k < |failures| :: failures[k].id in s.jobs && s.jobs[failures[k].id] == failures[k] && failures[k].state == Failed
  }

  lemma FailuresAreRecords(s: QueueState, ids: seq<JobId>)
    requires Records(s)
    ensures AllFailedRecords(s, FailedAmong(s, ids))
  {
    var failures := FailedAmong(s, ids);
    FailedAmongMeans(s, ids);
    forall k | 0 <= k < |failures|
      ensures failures[k].id in s.jobs && s.jobs[failures[k].id] == failures[k] && failures[k].state == Failed
    {
      assert failures[k] in failures;
      var id :| id in ids && id in s.jobs && s.jobs[id].state == Failed && s.jobs[id] == failures[k];
      assert WellFormedJob(id, s.jobs[id]);
    }
  }

  lemma FailuresMayFail(s: QueueState, failures: seq<Job>)
    requires PolicedNesting(s) && AllFailedRecords(s, failures)
    ensures AllMayFailOutright(s, failures)
  {
    forall k | 0 <= k < |failures| ensures MayFailOutright(s, failures[k]) {
      if failures[k].parentId.Some? && failures[k].parentId.value in s.jobs && ReactionTo(failures[k]) == FailOutright {
        assert FailsParentOutright(s, failures[k].id, failures[k].parentId.value);
      }
    }
  }

  lemma RecoverStalledKeepsFlow(s: QueueState, now: Time)
    requires Core(s) && Flow(s)
    ensures Flow(RecoverStalled(s, now).state)
  {
    var stalled := Sorted(StalledRanks(s, now), StalledRanks(s, now).Keys);
    var recovered := RecoverEach(s, stalled, now);
    RecoverEachKeeps(s, stalled, now);
    RecoverEachKeepsFlow(s, stalled, now);
    var failures := FailedAmong(recovered, stalled);
    FailuresAreRecords(recovered, stalled);
    FailuresMayFail(recovered, failures);
    AfterRecoveryKeepsFlow(recovered, failures, now);
  }

  lemma AfterRecoveryKeepsFlow(s: QueueState, failures: seq<Job>, now: Time)
    requires Core(s) && FlowUpTo(s, ParentsOfJobs(failures)) && AllMayFailOutright(s, failures)
    requires forall k | 0 <= k < |failures| :: failures[k].id in s.jobs && s.jobs[failures[k].id].state == Failed
    ensures Flow(AfterRecovery(s, failures, now))
  {
    var asleep := ParentsOfJobs(failures);
    var removed := RemoveAll(s, RemovedAtOnce(failures));
    RemoveKeepsFlow(s, RemovedAtOnce(failures), asleep);
    RemoveAllIsCalm(s, RemovedAtOnce(failures));
    CalmKeepsMayFail(s, removed, failures);
    SettleFailuresKeepsFlow(removed, failures, now, asleep);
    SettleFailuresIsCalm(removed, failures, now);
    CalmKeepsMayFail(removed, SettleFailures(removed, failures, now), failures);
    ReactionsKeepFlow(SettleFailures(removed, failures, now), failures, now);
  }

  // -- Management ------------------------------------------------------------------------

  lemma RetryKeepsFlow(s: QueueState, id: JobId, now: Time)
    requires Core(s) && Flow(s)
    ensures Flow(Retry(s, id, now).state)
  {
    if Retry(s, id, now).reply.Ok? {
      var waiting := PutInOrder(ForgetReleasedOwner(s, id, s.jobs[id]), id, RetriedJob(s.jobs[id], now));
      RevivedKeepsFlow(s, id, waiting);
      if s.jobs[id].parentId.Some? { RestoreKeepsFlow(waiting, s.jobs[id].parentId.value, id); }
    }
  }

  /** Reviving a finished job can only give its parent somebody to wait for. */
  lemma RevivedKeepsFlow(s: QueueState, id: JobId, t: QueueState)
    requires Flow(s) && id in s.jobs && t.jobs.Keys == s.jobs.Keys
    requires forall x | x in s.jobs && x != id :: t.jobs[x] == s.jobs[x]
    requires t.jobs[id].parentId == s.jobs[id].parentId && t.jobs[id].childIds == s.jobs[id].childIds
    requires t.jobs[id].options == s.jobs[id].options && t.jobs[id].state == Waiting
    ensures Flow(t)
  {
    forall x | Unlisted(s, x) ensures Unlisted(t, x) {
      forall p | p in t.jobs ensures x !in t.jobs[p].childIds { assert t.jobs[p].childIds == s.jobs[p].childIds; }
    }
    forall p, c | p in t.jobs && FailsParentOutright(t, c, p) ensures Unlisted(t, p) { assert FailsParentOutright(s, c, p); }
    forall p | IsParked(t, p) ensures exists c :: Blocking(t, p, c) {
      assert IsParked(s, p);
      var c :| Blocking(s, p, c);
      assert Blocking(t, p, c);
    }
  }

  /** A parent parked again behind a revived child waits for that child. */
  lemma RestoreKeepsFlow(s: QueueState, parentId: JobId, childId: JobId)
    requires Flow(s) && childId in s.jobs && !s.jobs[childId].state.IsTerminal()
    ensures Flow(RestoreParent(s, parentId, childId))
  {
    var t := RestoreParent(s, parentId, childId);
    if t != s {
      assert t.jobs == s.jobs[parentId := Parked(s.jobs[parentId])];
      forall x | Unlisted(s, x) ensures Unlisted(t, x) {
        forall p | p in t.jobs ensures x !in t.jobs[p].childIds { assert t.jobs[p].childIds == s.jobs[p].childIds; }
      }
      forall p, c | p in t.jobs && FailsParentOutright(t, c, p) ensures Unlisted(t, p) { assert FailsParentOutright(s, c, p); }
      forall p | IsParked(t, p) ensures exists c :: Blocking(t, p, c) {
        if p == parentId {
          assert Blocking(t, p, childId);
        } else {
          assert IsParked(s, p);
          var c :| Blocking(s, p, c);
          assert Blocking(t, p, c);
        }
      }
    }
  }

  lemma RewritesKeepFlow(s: QueueState, id: JobId, delay: Duration, priority: nat, lifo: Option<bool>, reason: string, now: Time)
    requires Flow(s)
    ensures Flow(Promote(s, id, now).state) && Flow(Reschedule(s, id, delay, now).state)
    ensures Flow(SetPriority(s, id, priority, lifo).state) && Flow(SaveStacktrace(s, id, reason).state)
  {
    if id in s.jobs {
      PutInOrderKeepsFlow(s, id, s.jobs[id].(state := if s.jobs[id].state == Delayed then Waiting else s.jobs[id].state, scheduledAt := now), {});
      if Reschedule(s, id, delay, now).reply.Ok? { PutKeepsFlow(s, id, Reschedule(s, id, delay, now).reply.value, {}); }
      var current := s.jobs[id];
      var options := current.options.(priority := priority, lifo := if lifo.Some? then lifo.value else current.options.lifo);
      PutInOrderKeepsFlow(s, id, current.(priority := priority, options := options), {});
      PutKeepsFlow(s, id, s.jobs[id].(failedReason := Some(reason)), {});
    }
  }

  lemma RemoveJobKeepsFlow(s: QueueState, id: JobId, now: Time)
    requires Core(s) && Flow(s)
    ensures Flow(RemoveJob(s, id, now).state)
  {
    if id in s.jobs {
      var parents := ParentSet(s.jobs[id]);
      RemoveIsRemoveAll(s, id);
      Widen(s, {}, parents);
      RemoveKeepsFlow(s, {id}, parents);
      RemoveIsCalm(s, id);
      if s.jobs[id].parentId.Some? {
        ReleaseParentKeepsFlow(Remove(s, id), s.jobs[id].parentId.value, now, parents);
        SingletonGone(s.jobs[id]);
      }
    }
  }

  lemma OwnerGoneKeepsFlow(s: QueueState, owner: JobId)
    requires Core(s) && Flow(s) && owner in s.jobs && s.jobs[owner].parentId.None?
    ensures Core(Remove(s, owner)) && Flow(Remove(s, owner))
  {
    RemoveIsRemoveAll(s, owner);
    RemoveKeepsFlow(s, {owner}, {});
    RemoveIsCalm(s, owner);
  }

  lemma OwnerGoneUnlisted(s: QueueState, owner: JobId, id: JobId)
    requires Linked(s) && owner in s.jobs && s.jobs[owner].parentId.None?
    requires NotReused(s, id) && (id !in s.jobs || id == owner)
    ensures Unlisted(Remove(s, owner), id) && id !in Remove(s, owner).jobs
  {
  }

  lemma ReplaceRepeatKeepsFlow(s: QueueState, job: Job, owner: Option<JobId>)
    requires Core(s) && Flow(s) && IsNew(job) && job.parentId.None? && NotReused(s, job.id)
    requires owner.Some? ==> owner.value in s.jobs && s.jobs[owner.value].parentId.None?
    requires job.id !in s.jobs || owner == Some(job.id)
    ensures Flow(ReplaceRepeat(s, job, owner))
  {
    if owner.Some? {
      OwnerGoneKeepsFlow(s, owner.value);
      OwnerGoneUnlisted(s, owner.value, job.id);
      InsertKeepsFlow(Remove(s, owner.value), job, {});
    } else {
      InsertKeepsFlow(s, job, {});
    }
  }

  lemma UpsertRepeatKeepsFlow(s: QueueState, spec: JobSpec, uuid: JobId, now: Time)
    requires Core(s) && Flow(s) && uuid != "" && NotReused(s, NewJob(s.queue, spec, uuid, now).id)
    ensures Flow(UpsertRepeat(s, spec, uuid, now).state)
  {
    if UpsertRepeat(s, spec, uuid, now).reply.Ok? {
      var job := NewJob(s.queue, spec, uuid, now);
      NewJobIsNew(s.queue, spec, uuid, now);
      ReplaceRepeatKeepsFlow(s, job, Find(s, RepeatOwners(s, job.repeatKey.value)));
    }
  }

  lemma {:induction false} ParentsOfMeans(s: QueueState, ids: seq<JobId>)
    ensures forall id | id in ids && id in s.jobs && s.jobs[id].parentId.Some? :: s.jobs[id].parentId.value in ParentsOf(s, ids)
    decreases |ids|
  {
    if ids != [] {
      ParentsOfMeans(s, ids[..|ids| - 1]);
      assert ids == ids[..|ids| - 1] + [ids[|ids| - 1]];
    }
  }

  lemma RemoveAllAndReleaseKeepsFlow(s: QueueState, ids: seq<JobId>, now: Time)
    requires Core(s) && Flow(s)
    ensures Flow(RemoveAllAndRelease(s, ids, now))
  {
    var parents := ParentsOf(s, ids);
    ParentsOfMeans(s, ids);
    Widen(s, {}, Elements(parents));
    RemoveKeepsFlow(s, Elements(ids), Elements(parents));
    RemoveAllIsCalm(s, Elements(ids));
    ReleaseParentsKeepsFlow(RemoveAll(s, Elements(ids)), parents, now, Elements(parents));
    assert Elements(parents) - Elements(parents) == {};
  }

  /** Whoever the walk removes is listed by the parent or by another removed job. */
  lemma WalkedParent(s: QueueState, parentId: JobId, id: JobId)
    requires Linked(s) && parentId in s.jobs
    requires id in Descendants.Walk(s.jobs, s.jobs[parentId].childIds, {}).out
    ensures id in s.jobs
    ensures s.jobs[id].parentId == Some(parentId)
      || (s.jobs[id].parentId.Some? && s.jobs[id].parentId.value in Descendants.Walk(s.jobs, s.jobs[parentId].childIds, {}).out)
  {
    var roots := s.jobs[parentId].childIds;
    Descendants.WalkIsReachability(s.jobs, roots);
    var path :| Descendants.RemovablePath(s.jobs, roots, path) && path[|path| - 1] == id;
    assert Descendants.Removable(s.jobs, path[|path| - 1]);
    if |path| > 1 { ListerIsReachable(s, roots, path); }
  }

  lemma ListerIsReachable(s: QueueState, roots: seq<JobId>, path: seq<JobId>)
    requires Linked(s) && Descendants.RemovablePath(s.jobs, roots, path) && |path| > 1 && path[|path| - 1] in s.jobs
    ensures s.jobs[path[|path| - 1]].parentId == Some(path[|path| - 2]) && Descendants.Reachable(s.jobs, roots, path[|path| - 2])
  {
    var shorter := path[..|path| - 1];
    assert Descendants.RemovablePath(s.jobs, roots, shorter) && shorter[|shorter| - 1] == path[|path| - 2];
    assert path[|path| - 1] in s.jobs[path[|path| - 2]].childIds;
  }

  lemma RemoveUnprocessedChildrenKeepsFlow(s: QueueState, parentId: JobId, now: Time)
    requires Core(s) && Flow(s)
    ensures Flow(RemoveUnprocessedChildren(s, parentId, now).state)
  {
    if parentId in s.jobs {
      var out := Descendants.Walk(s.jobs, s.jobs[parentId].childIds, {}).out;
      var ids := Elements(out);
      forall id | id in ids ensures id in s.jobs && s.jobs[id].parentId.Some?
        && (s.jobs[id].parentId.value in {parentId} || s.jobs[id].parentId.value in ids)
      {
        WalkedParent(s, parentId, id);
      }
      Widen(s, {}, {parentId});
      RemoveKeepsFlow(s, ids, {parentId});
      RemoveAllIsCalm(s, ids);
      ReleaseParentKeepsFlow(RemoveAll(s, ids), parentId, now, {parentId});
      assert {parentId} - {parentId} == {};
    }
  }

  lemma ClearTouchesNoJob(s: QueueState, parentId: JobId, childId: JobId)
    ensures ClearChildDependency(s, parentId, childId).jobs == s.jobs
  {
  }

  lemma DetachedFrame(s: QueueState, parentId: JobId, childId: JobId)
    requires parentId in s.jobs && childId in s.jobs
    ensures var t := Detached(s, parentId, childId);
            && t.jobs.Keys == s.jobs.Keys
            && forall x | x in s.jobs ::
                 t.jobs[x] == s.jobs[x].(
                   childIds := if x == parentId then Without(s.jobs[x].childIds, childId) else s.jobs[x].childIds,
                   parentId := if x == childId then None else s.jobs[x].parentId)
  {
    var unlisted := Put(s, parentId, s.jobs[parentId].(childIds := Without(s.jobs[parentId].childIds, childId)));
    ClearTouchesNoJob(unlisted, parentId, childId);
  }

  lemma DetachedKeepsStructure(s: QueueState, parentId: JobId, childId: JobId)
    requires Structure(s) && parentId in s.jobs && childId in s.jobs && s.jobs[childId].parentId == Some(parentId)
    ensures Structure(Detached(s, parentId, childId))
  {
    var t := Detached(s, parentId, childId);
    WithoutContains(s.jobs[parentId].childIds, childId);
    DetachedFrame(s, parentId, childId);
    forall x | Unlisted(s, x) ensures Unlisted(t, x) {
      forall p | p in t.jobs ensures x !in t.jobs[p].childIds { assert x !in s.jobs[p].childIds; }
    }
    forall p, c | p in t.jobs && FailsParentOutright(t, c, p) ensures Unlisted(t, p) { assert FailsParentOutright(s, c, p); }
  }

  lemma DetachedKeepsFlow(s: QueueState, parentId: JobId, childId: JobId)
    requires Core(s) && Flow(s) && parentId in s.jobs && childId in s.jobs && s.jobs[childId].parentId == Some(parentId)
    ensures FlowUpTo(Detached(s, parentId, childId), {parentId})
  {
    var t := Detached(s, parentId, childId);
    WithoutContains(s.jobs[parentId].childIds, childId);
    DetachedFrame(s, parentId, childId);
    DetachedKeepsStructure(s, parentId, childId);
    forall p | IsParked(t, p) && p !in {parentId} ensures exists c :: Blocking(t, p, c) {
      assert IsParked(s, p);
      var c :| Blocking(s, p, c);
      assert s.jobs[c].parentId == Some(p);
      assert Blocking(t, p, c);
    }
  }

  lemma RemoveChildDependencyKeepsFlow(s: QueueState, childId: JobId, now: Time)
    requires Core(s) && Flow(s)
    ensures Flow(RemoveChildDependency(s, childId, now).state)
  {
    if childId in s.jobs && s.jobs[childId].parentId.Some? && s.jobs[childId].parentId.value in s.jobs {
      var parentId := s.jobs[childId].parentId.value;
      DetachedKeepsFlow(s, parentId, childId);
      DetachedKeeps(s, parentId, childId);
      ReleaseParentKeepsFlow(Detached(s, parentId, childId), parentId, now, {parentId});
      assert {parentId} - {parentId} == {};
    }
  }

  lemma JobsOnly(s: QueueState, t: QueueState)
    requires Flow(s) && t.jobs == s.jobs
    ensures Flow(t)
  {
    RewriteKeepsFlow(s, t, {});
  }

  // -- Every operation --------------------------------------------------------------------

  /**
    What a caller checks before submitting jobs: ids still listed by a stored
    parent are not taken by new jobs, and nested flows carry failure policies.
   */
  ghost predicate Respectful(s: QueueState, op: Op)
    requires op.WellFormed()
  {
    match op
    case OpAdd(spec, uuid, now) => NotReused(s, NewJob(s.queue, spec, uuid, now).id)
    case OpAddMany(specs, uuids, now) => forall k | 0 <= k < |specs| :: NotReused(s, NewJob(s.queue, specs[k], uuids[k], now).id)
    case OpAddFlow(parent, uuid, specs, uuids, now) =>
      var root := NewJob(s.queue, parent, uuid, now).id;
      MayJoin(s, root, ChildJobs(s.queue, root, specs, uuids, now))
    case OpAddFlowChildren(id, _, specs, uuids, now) => MayJoin(s, id, ChildJobs(s.queue, id, specs, uuids, now))
    case OpUpsertRepeat(spec, uuid, now) => NotReused(s, NewJob(s.queue, spec, uuid, now).id)
    case OpComplete(_, _, _, uuid, _, _) => Unlisted(s, uuid)
    case _ => true
  }

  lemma AddFlowKeepsFlow(s: QueueState, spec: JobSpec, uuid: JobId, specs: seq<JobSpec>, uuids: seq<JobId>, now: Time)
    requires Core(s) && Flow(s) && |specs| == |uuids| && uuid != "" && "" !in uuids
    requires var root := NewJob(s.queue, spec, uuid, now).id; MayJoin(s, root, ChildJobs(s.queue, root, specs, uuids, now))
    ensures Flow(AddFlow(s, spec, uuid, specs, uuids, now).state)
  {
    if spec.options.ValidAt(now) && forall k | 0 <= k < |specs| :: specs[k].options.ValidAt(now) {
      var parent := NewJob(s.queue, spec, uuid, now);
      NewJobIsNew(s.queue, spec, uuid, now);
      var children := ChildJobs(s.queue, parent.id, specs, uuids, now);
      if NoDuplicates([parent.id] + Ids(children)) {
        ChildJobsAreChildren(s.queue, parent.id, specs, uuids, now);
        if parent.id in s.jobs { AddFlowToExistingKeepsFlow(s, parent.id, children, now); }
        else { AddNewFlowKeepsFlow(s, parent, children, now); }
      }
    }
  }

  lemma AddFlowChildrenKeepsFlow(s: QueueState, id: JobId, token: Token, specs: seq<JobSpec>, uuids: seq<JobId>, now: Time)
    requires Core(s) && Flow(s) && |specs| == |uuids| && "" !in uuids
    requires MayJoin(s, id, ChildJobs(s.queue, id, specs, uuids, now))
    ensures Flow(AddFlowChildren(s, id, token, specs, uuids, now).state)
  {
    AddFlowChildrenCases(s, id, token, specs, uuids, now);
    if AddFlowChildren(s, id, token, specs, uuids, now).state != s {
      ParkBehindKeepsFlow(s, id, ChildJobs(s.queue, id, specs, uuids, now), now);
    }
  }

  lemma CleanAndDrainKeepFlow(s: QueueState, state: JobState, grace: Duration, limit: nat, includeDelayed: bool, now: Time)
    requires Core(s) && Flow(s)
    ensures Flow(Clean(s, state, grace, limit, now).state) && Flow(Drain(s, includeDelayed, now).state)
  {
    var ranks := CleanRanks(s, state, Earlier(now, grace));
    RemoveAllAndReleaseKeepsFlow(s, Take(Sorted(ranks, ranks.Keys), limit), now);
    var drained := DrainRanks(s, includeDelayed);
    RemoveAllAndReleaseKeepsFlow(s, Sorted(drained, drained.Keys), now);
  }

  lemma SubmissionKeepsFlow(s: QueueState, op: Op)
    requires Core(s) && Flow(s) && op.WellFormed() && op.Submits() && Respectful(s, op)
    ensures Flow(Submission(s, op).state)
  {
    match op
    case OpAdd(spec, uuid, now) => AddKeepsFlow(s, spec, uuid, now);
    case OpAddMany(specs, uuids, now) => AddManyKeepsFlow(s, specs, uuids, now);
    case OpAddFlow(parent, uuid, specs, uuids, now) => AddFlowKeepsFlow(s, parent, uuid, specs, uuids, now);
    case OpAddFlowChildren(id, token, specs, uuids, now) => AddFlowChildrenKeepsFlow(s, id, token, specs, uuids, now);
    case OpUpsertRepeat(spec, uuid, now) => UpsertRepeatKeepsFlow(s, spec, uuid, now);
  }

  lemma RemovalKeepsFlow(s: QueueState, op: Op)
    requires Core(s) && Flow(s) && op.CleansUp()
    ensures Flow(Removal(s, op).state)
  {
    match op
    case OpRemoveUnprocessedChildren(id, now) => RemoveUnprocessedChildrenKeepsFlow(s, id, now);
    case OpRemoveChildDependency(id, now) => RemoveChildDependencyKeepsFlow(s, id, now);
    case OpRemove(id, now) => RemoveJobKeepsFlow(s, id, now);
    case OpRemoveRepeat(key, now) =>
      var owner := Find(s, RepeatOwners(s, key));
      if owner.Some? { RemoveJobKeepsFlow(s, owner.value, now); }
    case OpClean(state, grace, limit, now) => CleanAndDrainKeepFlow(s, state, grace, limit, false, now);
    case OpDrain(includeDelayed, now) => CleanAndDrainKeepFlow(s, Waiting, 0, 0, includeDelayed, now);
  }

  lemma GivenUpKeepsFlow(s: QueueState, op: Op)
    requires Core(s) && Flow(s) && (op.OpRenew? || op.OpDelayActive? || op.OpReleaseActive?)
    ensures Flow(Rewrite(s, op).state)
  {
    match op
    case OpRenew(id, token, leaseFor, now) => LeaseOpsKeepFlow(s, id, token, leaseFor, now);
    case OpDelayActive(id, token, delay, now) => LeaseOpsKeepFlow(s, id, token, delay, now);
    case OpReleaseActive(id, token, now) => LeaseOpsKeepFlow(s, id, token, 0, now);
  }

  lemma ManagedKeepsFlow(s: QueueState, op: Op)
    requires Core(s) && Flow(s) && (op.OpPromote? || op.OpReschedule? || op.OpSetPriority? || op.OpSaveStacktrace?)
    ensures Flow(Rewrite(s, op).state)
  {
    match op
    case OpPromote(id, now) => RewritesKeepFlow(s, id, 0, 0, None, "", now);
    case OpReschedule(id, delay, now) => RewritesKeepFlow(s, id, delay, 0, None, "", now);
    case OpSetPriority(id, priority, lifo, now) => RewritesKeepFlow(s, id, 0, priority, lifo, "", now);
    case OpSaveStacktrace(id, reason, now) => RewritesKeepFlow(s, id, 0, 0, None, reason, now);
  }

  lemma FlagsKeepFlow(s: QueueState, op: Op)
    requires Flow(s) && (op.OpRemoveDeduplicationKey? || op.OpSetPaused? || op.OpRehash?)
    ensures Flow(Rewrite(s, op).state)
  {
    JobsOnly(s, Rewrite(s, op).state);
  }

  lemma RewriteStepKeepsFlow(s: QueueState, op: Op)
    requires Core(s) && Flow(s) && op.TouchesOne()
    ensures Flow(Rewrite(s, op).state)
  {
    if op.OpRenew? || op.OpDelayActive? || op.OpReleaseActive? {
      GivenUpKeepsFlow(s, op);
    } else if op.OpPromote? || op.OpReschedule? || op.OpSetPriority? || op.OpSaveStacktrace? {
      ManagedKeepsFlow(s, op);
    } else if op.OpObliterate? {
      ObliterateKeepsFlow(s, op.force);
    } else {
      FlagsKeepFlow(s, op);
    }
  }

  lemma WorkKeepsFlow(s: QueueState, op: Op)
    requires Core(s) && Flow(s) && op.WellFormed() && op.Works() && FreshIds(s, op) && Respectful(s, op)
    ensures Flow(Work(s, op).state)
  {
    match op
    case OpPromoteDue(now) => PromoteDueKeepsFlow(s, now);
    case OpClaim(worker, token, leaseFor, now) => ClaimKeepsFlow(s, worker, token, leaseFor, now);
    case OpComplete(id, token, value, uuid, cronNext, now) => CompleteKeepsFlow(s, id, token, value, uuid, cronNext, now);
    case OpFail(id, token, error, allowRetry, backoff, now) => FailKeepsFlow(s, id, token, error, allowRetry, backoff, now);
    case OpRecoverStalled(now) => RecoverStalledKeepsFlow(s, now);
    case OpRetry(id, now) => RetryKeepsFlow(s, id, now);
  }

  /** No lost wake-up: every operation keeps the fan-in invariant. */
  lemma StepKeepsFlow(s: QueueState, op: Op)
    requires Core(s) && Flow(s) && op.WellFormed() && FreshIds(s, op) && Respectful(s, op)
    ensures Flow(Step(s, op).state)
  {
    if op.Submits() {
      SubmissionKeepsFlow(s, op);
    } else if op.CleansUp() {
      RemovalKeepsFlow(s, op);
    } else if op.TouchesOne() {
      RewriteStepKeepsFlow(s, op);
    } else {
      WorkKeepsFlow(s, op);
    }
  }

  lemma ObliterateKeepsFlow(s: QueueState, force: bool)
    requires Flow(s)
    ensures Flow(Obliterate(s, force).state)
  {
    if Obliterate(s, force).state.jobs == s.jobs { JobsOnly(s, Obliterate(s, force).state); }
  }

  // -- Every run ----------------------------------------------------------------------------

  ghost predicate RespectfulRun(s: QueueState, ops: seq<Op>)
    decreases |ops|
  {
    ops == [] ||
    (ops[0].WellFormed() && FreshIds(s, ops[0]) && Respectful(s, ops[0]) && RespectfulRun(Step(s, ops[0]).state, ops[1..]))
  }

  lemma {:induction false} RunKeepsFlow(s: QueueState, ops: seq<Op>)
    requires Core(s) && Flow(s) && RespectfulRun(s, ops)
    requires forall k | 0 <= k < |ops| :: ops[k].WellFormed()
    ensures Core(Run(s, ops)) && Flow(Run(s, ops))
    decreases |ops|
  {
    if ops != [] {
      StepKeepsCore(s, ops[0]);
      StepKeepsFlow(s, ops[0]);
      RunKeepsFlow(Step(s, ops[0]).state, ops[1..]);
    }
  }

  /**
    No lost wake-up: after any run from the empty queue, a parent waiting for
    children lists a stored child that has not finished and that names it as
    the parent to wake.
   */
  lemma NoLostWakeUp(queue: string, layout: Layout, ops: seq<Op>, p: JobId)
    requires RespectfulRun(EmptyQueue(queue, layout), ops)
    requires forall k | 0 <= k < |ops| :: ops[k].WellFormed()
    requires var s := Run(EmptyQueue(queue, layout), ops); p in s.jobs && s.jobs[p].state == WaitingChildren
    ensures var s := Run(EmptyQueue(queue, layout), ops);
            exists c :: c in s.jobs[p].childIds && c in s.jobs && !s.jobs[c].state.IsTerminal() && s.jobs[c].parentId == Some(p)
  {
    EmptyQueueIsCore(queue, layout);
    RunKeepsFlow(EmptyQueue(queue, layout), ops);
    var s := Run(EmptyQueue(queue, layout), ops);
    assert IsParked(s, p);
    var c :| Blocking(s, p, c);
  }
}
