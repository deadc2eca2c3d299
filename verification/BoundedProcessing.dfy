/**
  A standalone job is processed a bounded number of times: failures use up its
  retries, stalls its stall allowance, and nothing else makes it run again.
 */
module BoundedProcessing {
  import opened Ordering
  import opened JobTypes
  import opened QueueModel
  import opened CoreInvariant
  import opened CoreSubmit
  import opened CoreLifecycle
  import opened Operations
  import opened Steps
  import opened FanIn
  import opened FanInSubmit
  import opened FanInRuns
  import opened Retention
  import Descendants

  /** The inductive measure: attempts are paid for by retries and stalls. */
  predicate Within(job: Job)
  {
    && job.options.repeat.None? && job.state != WaitingChildren
    && job.attemptsMade <= job.options.maxRetries + job.stalledCount + 1
    && job.attemptsMade <= job.options.maxRetries + job.options.maxStalledCount + 1
    && (!job.state.IsTerminal() ==> job.stalledCount <= job.options.maxStalledCount)
    && (job.state == Waiting || job.state == Delayed ==> job.attemptsMade <= job.options.maxRetries + job.stalledCount)
  }

  /** Nobody names `id` as its parent. */
  ghost predicate Nameless(s: QueueState, id: JobId)
  {
    forall c | c in s.jobs :: s.jobs[c].parentId != Some(id)
  }

  /** A record rewritten without a new attempt: at most a delayed job starts to wait. */
  predicate Mild(before: Job, after: Job)
  {
    && after.attemptsMade == before.attemptsMade && after.stalledCount == before.stalledCount
    && after.options.maxRetries == before.options.maxRetries && after.options.maxStalledCount == before.options.maxStalledCount
    && after.options.repeat == before.options.repeat
    && (after.state == before.state || (before.state == Delayed && after.state == Waiting))
  }

  /** `id` is gone, or only mildly changed, and still nobody's parent. */
  ghost predicate Tends(s: QueueState, t: QueueState, id: JobId)
  {
    && (Nameless(s, id) ==> Nameless(t, id))
    && (id in t.jobs ==> id in s.jobs && Mild(s.jobs[id], t.jobs[id]))
  }

  lemma TendsTransitive(s: QueueState, t: QueueState, u: QueueState, id: JobId)
    requires Tends(s, t, id) && Tends(t, u, id)
    ensures Tends(s, u, id)
  {
  }

  // -- Clean-up ---------------------------------------------------------------------------------

  /** A calm step that leaves `id`'s record alone. */
  lemma CalmTends(s: QueueState, t: QueueState, id: JobId)
    requires Calm(s, t) && (id in t.jobs ==> t.jobs[id] == s.jobs[id])
    ensures Tends(s, t, id)
  {
    forall c | c in t.jobs ensures t.jobs[c].parentId == s.jobs[c].parentId { assert CalmJob(s.jobs[c], t.jobs[c]); }
  }

  lemma RemoveAllTends(s: QueueState, ids: set<JobId>, id: JobId)
    ensures Tends(s, RemoveAll(s, ids), id)
  {
  }

  lemma RetainTends(s: QueueState, x: JobId, job: Job, now: Time, id: JobId)
    ensures Tends(s, RetainFinished(s, x, job, now), id)
  {
    RetainedSame(s, x, job, now);
  }

  lemma ResumeTends(s: QueueState, p: JobId, deferred: Option<JobId>, now: Time, id: JobId)
    requires p in s.jobs && p != id
    ensures Tends(s, PutInOrder(s, p, Resumed(s.jobs[p], deferred, now)), id)
  {
    PutInOrderRewrites(s, p, Resumed(s.jobs[p], deferred, now));
  }

  lemma FailParentTends(s: QueueState, p: JobId, reason: string, now: Time, id: JobId)
    requires Core(s) && p != id
    ensures Tends(s, FailParent(s, p, reason, now), id)
  {
    FailParentIsCalm(s, p, reason, now);
    FailParentFrame(s, p, reason, now);
    CalmTends(s, FailParent(s, p, reason, now), id);
  }

  /** Releasing a parent leaves any other job alone, and a job that is not parked even if it is the parent. */
  lemma ReleaseTends(s: QueueState, p: JobId, now: Time, id: JobId)
    requires Core(s) && (p != id || !IsParked(s, id))
    ensures Tends(s, ReleaseParent(s, p, now), id)
  {
    if IsParked(s, p) {
      match ScanChildren(s, s.jobs[p].childIds)
      case Blocked =>
      case Ready(Some(child), _) => ResumeTends(s, p, Some(child), now, id);
      case Ready(None, Some(child)) =>
        FailParentTends(s, p, ChildFailureReason(child, if child in s.jobs then s.jobs[child].failedReason else None), now, id);
      case Ready(None, None) => ResumeTends(s, p, None, now, id);
    }
  }

  lemma {:induction false} ReleaseAllTends(s: QueueState, parentIds: seq<JobId>, now: Time, id: JobId)
    requires Core(s) && id !in parentIds
    ensures Tends(s, ReleaseParents(s, parentIds, now), id)
    decreases |parentIds|
  {
    if parentIds != [] {
      var n := |parentIds| - 1;
      var before := ReleaseParents(s, parentIds[..n], now);
      assert parentIds == parentIds[..n] + [parentIds[n]];
      ReleaseAllTends(s, parentIds[..n], now, id);
      ReleaseParentsIsCalm(s, parentIds[..n], now);
      ReleaseTends(before, parentIds[n], now, id);
      TendsTransitive(s, before, ReleaseParents(s, parentIds, now), id);
    }
  }

  lemma ReactTends(s: QueueState, child: Job, now: Time, id: JobId)
    requires Core(s) && child.parentId != Some(id)
    ensures Tends(s, React(s, child, now), id)
  {
    if child.parentId.Some? {
      var p := child.parentId.value;
      match ReactionTo(child)
      case Defer => if p in s.jobs && !s.jobs[p].state.IsTerminal() { ResumeTends(s, p, Some(child.id), now, id); }
      case Continue => if IsParked(s, p) { ResumeTends(s, p, None, now, id); }
      case Release => ReleaseTends(s, p, now, id);
      case FailOutright => FailParentTends(s, p, ChildFailureReason(child.id, child.failedReason), now, id);
    }
  }

  lemma {:induction false} ReactAllTends(s: QueueState, failures: seq<Job>, r: Reaction, now: Time, id: JobId)
    requires Core(s) && forall k | 0 <= k < |failures| :: failures[k].parentId != Some(id)
    ensures Core(ReactAll(s, failures, r, now)) && Tends(s, ReactAll(s, failures, r, now), id)
    decreases |failures|
  {
    ReactAllIsCalm(s, failures, r, now);
    if failures != [] {
      var n := |failures| - 1;
      var before := ReactAll(s, failures[..n], r, now);
      ReactAllTends(s, failures[..n], r, now, id);
      if ReactionTo(failures[n]) == r {
        ReactTends(before, failures[n], now, id);
        TendsTransitive(s, before, ReactAll(s, failures, r, now), id);
      }
    }
  }

  lemma ReactionsTend(s: QueueState, failures: seq<Job>, now: Time, id: JobId)
    requires Core(s) && forall k | 0 <= k < |failures| :: failures[k].parentId != Some(id)
    ensures Tends(s, Reactions(s, failures, now), id)
  {
    ReactAllTends(s, failures, Defer, now, id);
    var a := ReactAll(s, failures, Defer, now);
    ReactAllTends(a, failures, Continue, now, id);
    var b := ReactAll(a, failures, Continue, now);
    ReactAllTends(b, failures, Release, now, id);
    var c := ReactAll(b, failures, Release, now);
    ReactAllTends(c, failures, FailOutright, now, id);
    TendsTransitive(s, a, b, id);
    TendsTransitive(s, b, c, id);
    TendsTransitive(s, c, Reactions(s, failures, now), id);
  }

  lemma {:induction false} SettleAllTends(s: QueueState, failures: seq<Job>, now: Time, id: JobId)
    ensures Tends(s, SettleFailures(s, failures, now), id)
    decreases |failures|
  {
    if failures != [] {
      var n := |failures| - 1;
      var before := SettleFailures(s, failures[..n], now);
      SettleAllTends(s, failures[..n], now, id);
      RecordTouchesNoJob(before, failures[n]);
      if failures[n].options.FailedRetention().Some? {
        RetentionTouchesOneState(RecordWithParent(before, failures[n]), Failed, failures[n].options.FailedRetention().value, now);
      }
    }
  }

  lemma AfterRecoveryTends(s: QueueState, failures: seq<Job>, now: Time, id: JobId)
    requires Core(s) && forall k | 0 <= k < |failures| :: failures[k].parentId != Some(id)
    ensures Tends(s, AfterRecovery(s, failures, now), id)
  {
    var removed := RemoveAll(s, RemovedAtOnce(failures));
    var settled := SettleFailures(removed, failures, now);
    RemoveAllIsCalm(s, RemovedAtOnce(failures));
    RemoveAllTends(s, RemovedAtOnce(failures), id);
    SettleFailuresIsCalm(removed, failures, now);
    SettleAllTends(removed, failures, now, id);
    ReactionsTend(settled, failures, now, id);
    TendsTransitive(s, removed, settled, id);
    TendsTransitive(s, settled, Reactions(settled, failures, now), id);
  }

  // -- Submitting ----------------------------------------------------------------------------------

  lemma InsertTends(s: QueueState, job: Job, id: JobId)
    requires job.id != id && job.parentId != Some(id)
    ensures Tends(s, Insert(s, job), id)
  {
  }

  lemma ExtendTends(s: QueueState, candidate: Job, x: JobId, now: Time, id: JobId)
    ensures Tends(s, ExtendExpiration(s, candidate, x, now), id)
  {
  }

  lemma AddJobTends(s: QueueState, job: Job, now: Time, id: JobId)
    requires job.parentId.None? && (id in s.jobs || job.id != id)
    ensures Tends(s, AddJob(s, job, now).state, id)
  {
    AddJobCases(s, job, now);
    var owner := FindDeduplicationOwner(s, job, now);
    if job.id in s.jobs {
    } else if owner.None? {
      InsertTends(s, job, id);
    } else {
      ExtendTends(s, job, owner.value, now, id);
      RemoveIsRemoveAll(s, owner.value);
      RemoveAllTends(s, {owner.value}, id);
      InsertTends(Remove(s, owner.value), PreserveExpiration(job, s.jobs[owner.value]), id);
      TendsTransitive(s, Remove(s, owner.value), Insert(Remove(s, owner.value), PreserveExpiration(job, s.jobs[owner.value])), id);
    }
  }

  lemma {:induction false} AddJobsTends(s: QueueState, jobs: seq<Job>, now: Time, id: JobId)
    requires forall k | 0 <= k < |jobs| :: jobs[k].parentId.None? && jobs[k].id != id
    ensures Tends(s, AddJobs(s, jobs, now).state, id)
    decreases |jobs|
  {
    if jobs != [] {
      var n := |jobs| - 1;
      AddJobsTends(s, jobs[..n], now, id);
      AddJobTends(AddJobs(s, jobs[..n], now).state, jobs[n], now, id);
      TendsTransitive(s, AddJobs(s, jobs[..n], now).state, AddJobs(s, jobs, now).state, id);
    }
  }

  lemma SameFlowTends(s: QueueState, t: QueueState, id: JobId)
    requires OnlyExpirations(s, t)
    ensures Tends(s, t, id)
  {
    forall c | c in t.jobs ensures t.jobs[c].parentId == s.jobs[c].parentId && Mild(s.jobs[c], t.jobs[c]) {
      assert t.jobs[c] == s.jobs[c].(deduplicationExpiresAt := t.jobs[c].deduplicationExpiresAt);
    }
  }

  lemma AttachedTends(s: QueueState, t: QueueState, parentId: JobId, children: seq<Job>, id: JobId)
    requires AttachedAll(s, t, parentId, children) && parentId != id && AreChildren(parentId, children)
    requires id in s.jobs || id !in Ids(children)
    ensures Tends(s, t, id)
  {
    if id in t.jobs && id in Ids(children) {
      var k :| 0 <= k < |children| && Ids(children)[k] == id;
      assert IsAttached(s, t, parentId, children[k]);
    }
    forall c | c in t.jobs && c in Ids(children) ensures t.jobs[c].parentId == Some(parentId) {
      var k :| 0 <= k < |children| && Ids(children)[k] == c;
      assert IsAttached(s, t, parentId, children[k]);
    }
  }

  lemma GrownTends(s: QueueState, parentId: JobId, parent: Job, joining: seq<Job>, now: Time, id: JobId)
    requires Core(s) && AreChildren(parentId, joining) && parentId in s.jobs && WellFormedJob(parentId, parent)
    requires ListsAtLeast(s, parentId, parent) && (parent.lockToken.None? || parent.lockToken == s.jobs[parentId].lockToken)
    requires parent.enqueuedSeq == s.jobs[parentId].enqueuedSeq && parent.parentId == s.jobs[parentId].parentId
    requires parentId != id && (id in s.jobs || id !in Ids(joining))
    ensures Tends(s, JoinFlow(s, parentId, parent, joining, now), id)
  {
    PutKeeps(s, parentId, parent);
    assert Tends(s, Put(s, parentId, parent), id);
    JoinedTends(s, Put(s, parentId, parent), parentId, joining, now, id);
  }

  lemma JoinedTends(s: QueueState, linked: QueueState, parentId: JobId, joining: seq<Job>, now: Time, id: JobId)
    requires Core(linked) && AreChildren(parentId, joining) && Tends(s, linked, id)
    requires parentId != id && (id in linked.jobs || id !in Ids(joining))
    ensures Tends(s, ReleaseParent(AttachChildren(linked, parentId, joining), parentId, now), id)
  {
    var attached := AttachChildren(linked, parentId, joining);
    AttachChildrenKeeps(linked, parentId, joining);
    AttachFrame(linked, parentId, joining);
    AttachedTends(linked, attached, parentId, joining, id);
    ReleaseTends(attached, parentId, now, id);
    TendsTransitive(s, linked, attached, id);
    TendsTransitive(s, attached, ReleaseParent(attached, parentId, now), id);
  }

  lemma StartTends(s: QueueState, root: Job, joining: seq<Job>, now: Time, id: JobId)
    requires Core(s) && AreChildren(root.id, joining) && root.id !in s.jobs && WellFormedJob(root.id, root) && root.parentId.None?
    requires root.state != Active && root.enqueuedSeq == 0 && root.id != id && (id in s.jobs || id !in Ids(joining))
    ensures Tends(s, StartFlow(s, root, joining, now), id)
  {
    var inserted := Insert(s, root);
    InsertKeeps(s, root);
    InsertTends(s, root, id);
    AttachChildrenKeeps(inserted, root.id, joining);
    AttachFrame(inserted, root.id, joining);
    var attached := AttachChildren(inserted, root.id, joining);
    AttachedTends(inserted, attached, root.id, joining, id);
    ReleaseTends(attached, root.id, now, id);
    TendsTransitive(s, inserted, attached, id);
    TendsTransitive(s, attached, ReleaseParent(attached, root.id, now), id);
  }

  lemma ScanTends(s: QueueState, children: seq<Job>, taken: set<string>, now: Time, id: JobId)
    requires Core(s)
    ensures Tends(s, ScanDeduplication(s, children, taken, now).state, id)
  {
    ScanKeeps(s, children, taken, now);
    SameFlowTends(s, ScanDeduplication(s, children, taken, now).state, id);
  }

  lemma AddToStoredTends(s: QueueState, parentId: JobId, children: seq<Job>, parked: bool, now: Time, id: JobId)
    requires Core(s) && parentId in s.jobs && AreChildren(parentId, children) && parentId != id && id in s.jobs
    requires parked ==> s.jobs[parentId].state == Active
    ensures var scan := ScanDeduplication(s, children, {}, now);
            var joining := Unskipped(children, scan.skipped);
            var stored := if parked then Parked(scan.state.jobs[parentId]) else scan.state.jobs[parentId];
            && Tends(s, scan.state, id)
            && Tends(s, JoinFlow(scan.state, parentId, stored.(childIds := AppendNew(s.jobs[parentId].childIds, Ids(joining))), joining, now), id)
  {
    var scan := ScanDeduplication(s, children, {}, now);
    var joining := Unskipped(children, scan.skipped);
    ScanKeeps(s, children, {}, now);
    ScanTends(s, children, {}, now, id);
    UnskippedAreChildren(parentId, children, scan.skipped);
    assert WellFormedJob(parentId, scan.state.jobs[parentId]) && WellFormedJob(parentId, s.jobs[parentId]);
    AppendNewContains(s.jobs[parentId].childIds, Ids(joining));
    var stored := if parked then Parked(scan.state.jobs[parentId]) else scan.state.jobs[parentId];
    var parent := stored.(childIds := AppendNew(s.jobs[parentId].childIds, Ids(joining)));
    GrownTends(scan.state, parentId, parent, joining, now, id);
    TendsTransitive(s, scan.state, JoinFlow(scan.state, parentId, parent, joining, now), id);
  }

  lemma AddNewFlowTends(s: QueueState, parent: Job, children: seq<Job>, now: Time, id: JobId)
    requires Core(s) && parent.id !in s.jobs && IsNew(parent) && parent.parentId.None? && AreChildren(parent.id, children)
    requires id in s.jobs
    ensures Tends(s, AddNewFlow(s, parent, children, now).state, id)
  {
    var owner := FindDeduplicationOwner(s, parent, now);
    if owner.Some? {
      ExtendTends(s, parent, owner.value, now, id);
    } else if FirstConflict(s, parent.id, [], children).None? {
      var taken := if ActiveDeduplicationId(parent, now).Some? then {ActiveDeduplicationId(parent, now).value} else {};
      var scan := ScanDeduplication(s, children, taken, now);
      var joining := Unskipped(children, scan.skipped);
      ScanKeeps(s, children, taken, now);
      ScanTends(s, children, taken, now, id);
      UnskippedAreChildren(parent.id, children, scan.skipped);
      var root := RootJob(parent, joining, now);
      if !scan.conflict && RepeatKeysFree(scan.state, [root] + Unstored(scan.state, joining)) {
        RootJobWellFormed(parent, joining, now);
        StartTends(scan.state, root, joining, now, id);
        TendsTransitive(s, scan.state, StartFlow(scan.state, root, joining, now), id);
      }
    }
  }

  // -- Finishing other jobs -----------------------------------------------------------------------------

  lemma FinishTends(s: QueueState, x: JobId, finished: Job, now: Time, id: JobId)
    requires x in s.jobs && x != id && finished.parentId == s.jobs[x].parentId
    ensures Tends(s, RetainFinished(RecordWithParent(Put(s, x, finished), finished), x, finished, now), id)
  {
    var stored := Put(s, x, finished);
    RecordTouchesNoJob(stored, finished);
    var recorded := RecordWithParent(stored, finished);
    RetainTends(recorded, x, finished, now, id);
    assert Tends(s, recorded, id);
    TendsTransitive(s, recorded, RetainFinished(recorded, x, finished, now), id);
  }

  lemma SuccessionTends(queue: string, s: QueueState, completed: Job, uuid: JobId, cronNext: Option<Time>, now: Time, id: JobId)
    requires Core(s) && WellFormedJob(completed.id, completed) && uuid != "" && uuid !in s.jobs && uuid != id && completed.parentId != Some(id)
    ensures var next := NextRepeatJob(queue, completed, uuid, cronNext, now);
            var succeeded := if next.Some? then Insert(s, next.value) else s;
            Tends(s, if completed.parentId.Some? then ReleaseParent(succeeded, completed.parentId.value, now) else succeeded, id)
  {
    var next := NextRepeatJob(queue, completed, uuid, cronNext, now);
    var succeeded := if next.Some? then Insert(s, next.value) else s;
    if next.Some? {
      NextRepeatJobIsNew(queue, completed, uuid, cronNext, now);
      InsertKeeps(s, next.value);
      InsertTends(s, next.value, id);
    }
    if completed.parentId.Some? {
      ReleaseTends(succeeded, completed.parentId.value, now, id);
      TendsTransitive(s, succeeded, ReleaseParent(succeeded, completed.parentId.value, now), id);
    }
  }

  lemma CompleteOtherTends(s: QueueState, x: JobId, token: Token, value: Value, uuid: JobId, cronNext: Option<Time>, now: Time, id: JobId)
    requires Core(s) && uuid != "" && uuid !in s.jobs && uuid != id && x != id && Nameless(s, id)
    ensures Tends(s, Complete(s, x, token, value, uuid, cronNext, now).state, id)
  {
    if Complete(s, x, token, value, uuid, cronNext, now).reply.Ok? {
      assert WellFormedJob(x, s.jobs[x]);
      var completed := CompletedJob(s.jobs[x], value, now);
      FinishKeeps(s, x, completed, now);
      FinishTends(s, x, completed, now, id);
      var retained := RetainFinished(RecordWithParent(Put(s, x, completed), completed), x, completed, now);
      SuccessionTends(s.queue, retained, completed, uuid, cronNext, now, id);
      TendsTransitive(s, retained, Complete(s, x, token, value, uuid, cronNext, now).state, id);
    }
  }

  lemma RetriedOtherTends(s: QueueState, x: JobId, token: Token, error: string, allowRetry: bool, backoff: Duration, now: Time, id: JobId)
    requires x != id && Nameless(s, id) && RequireLease(s, x, token).None? && allowRetry && ShouldRetry(s.jobs[x])
    ensures Tends(s, Fail(s, x, token, error, allowRetry, backoff, now).state, id)
  {
  }

  lemma FinallyFailedOtherTends(s: QueueState, x: JobId, token: Token, error: string, allowRetry: bool, backoff: Duration, now: Time, id: JobId)
    requires Core(s) && x != id && Nameless(s, id) && RequireLease(s, x, token).None? && !(allowRetry && ShouldRetry(s.jobs[x]))
    ensures Tends(s, Fail(s, x, token, error, allowRetry, backoff, now).state, id)
  {
    assert WellFormedJob(x, s.jobs[x]);
    FailedOtherTends(s, x, FailedJob(s.jobs[x], error, now), now, id);
  }

  lemma FailOtherTends(s: QueueState, x: JobId, token: Token, error: string, allowRetry: bool, backoff: Duration, now: Time, id: JobId)
    requires Core(s) && x != id && Nameless(s, id)
    ensures Tends(s, Fail(s, x, token, error, allowRetry, backoff, now).state, id)
  {
    if RequireLease(s, x, token).None? {
      if allowRetry && ShouldRetry(s.jobs[x]) {
        RetriedOtherTends(s, x, token, error, allowRetry, backoff, now, id);
      } else {
        FinallyFailedOtherTends(s, x, token, error, allowRetry, backoff, now, id);
      }
    }
  }

  lemma FailedOtherTends(s: QueueState, x: JobId, failed: Job, now: Time, id: JobId)
    requires Core(s) && x != id && Nameless(s, id) && x in s.jobs && s.jobs[x].state == Active
    requires WellFormedJob(x, failed) && failed.state == Failed && failed.parentId == s.jobs[x].parentId && failed.childIds == s.jobs[x].childIds
    requires failed.lockToken.None? && failed.enqueuedSeq == s.jobs[x].enqueuedSeq
    ensures Tends(s, React(RetainFinished(RecordWithParent(Put(s, x, failed), failed), x, failed, now), failed, now), id)
  {
    FinishKeeps(s, x, failed, now);
    FinishTends(s, x, failed, now, id);
    var retained := RetainFinished(RecordWithParent(Put(s, x, failed), failed), x, failed, now);
    ReactTends(retained, failed, now, id);
    TendsTransitive(s, retained, React(retained, failed, now), id);
  }

  // -- The job's own steps ---------------------------------------------------------------------------------

  /** What one operation may make of the job: `claims` attempts more, and still within its measure. */
  ghost predicate StaysWithin(s: QueueState, t: QueueState, id: JobId, claims: nat)
    requires id in s.jobs
  {
    && Nameless(t, id)
    && (id in t.jobs ==>
          && Within(t.jobs[id]) && t.jobs[id].attemptsMade == s.jobs[id].attemptsMade + claims
          && t.jobs[id].options.maxRetries == s.jobs[id].options.maxRetries
          && t.jobs[id].options.maxStalledCount == s.jobs[id].options.maxStalledCount)
  }

  lemma TendsStaysWithin(s: QueueState, t: QueueState, id: JobId)
    requires Tends(s, t, id) && id in s.jobs && Within(s.jobs[id]) && Nameless(s, id)
    ensures StaysWithin(s, t, id, 0)
  {
  }

  lemma ThenTends(s: QueueState, t: QueueState, u: QueueState, id: JobId, claims: nat)
    requires id in s.jobs && StaysWithin(s, t, id, claims) && Tends(t, u, id)
    ensures StaysWithin(s, u, id, claims)
  {
  }

  lemma CompleteOwnStays(s: QueueState, id: JobId, token: Token, value: Value, uuid: JobId, cronNext: Option<Time>, now: Time)
    requires Core(s) && id in s.jobs && Within(s.jobs[id]) && Nameless(s, id) && uuid != "" && uuid !in s.jobs
    ensures StaysWithin(s, Complete(s, id, token, value, uuid, cronNext, now).state, id, 0)
  {
    if Complete(s, id, token, value, uuid, cronNext, now).reply.Ok? {
      assert WellFormedJob(id, s.jobs[id]);
      var completed := CompletedJob(s.jobs[id], value, now);
      FinishKeeps(s, id, completed, now);
      OwnFinishStays(s, id, completed, now);
      var retained := RetainFinished(RecordWithParent(Put(s, id, completed), completed), id, completed, now);
      SuccessionTends(s.queue, retained, completed, uuid, cronNext, now, id);
      ThenTends(s, retained, Complete(s, id, token, value, uuid, cronNext, now).state, id, 0);
    }
  }

  lemma OwnFinishStays(s: QueueState, id: JobId, finished: Job, now: Time)
    requires id in s.jobs && Nameless(s, id) && finished.parentId == s.jobs[id].parentId
    requires Within(finished) && finished.attemptsMade == s.jobs[id].attemptsMade && finished.options == s.jobs[id].options
    ensures StaysWithin(s, RetainFinished(RecordWithParent(Put(s, id, finished), finished), id, finished, now), id, 0)
  {
    var stored := Put(s, id, finished);
    RecordTouchesNoJob(stored, finished);
    var recorded := RecordWithParent(stored, finished);
    assert StaysWithin(s, recorded, id, 0);
    RetainTends(recorded, id, finished, now, id);
    ThenTends(s, recorded, RetainFinished(recorded, id, finished, now), id, 0);
  }

  lemma FailOwnStays(s: QueueState, id: JobId, token: Token, error: string, allowRetry: bool, backoff: Duration, now: Time)
    requires Core(s) && id in s.jobs && Within(s.jobs[id]) && Nameless(s, id)
    ensures StaysWithin(s, Fail(s, id, token, error, allowRetry, backoff, now).state, id, 0)
  {
    if RequireLease(s, id, token).None? {
      assert WellFormedJob(id, s.jobs[id]);
      if !(allowRetry && ShouldRetry(s.jobs[id])) {
        var failed := FailedJob(s.jobs[id], error, now);
        FinishKeeps(s, id, failed, now);
        OwnFinishStays(s, id, failed, now);
        var retained := RetainFinished(RecordWithParent(Put(s, id, failed), failed), id, failed, now);
        ReactTends(retained, failed, now, id);
        ThenTends(s, retained, React(retained, failed, now), id, 0);
      }
    }
  }

  /** A stall costs one unit of the stall allowance, or ends the job. */
  lemma RecoveredStays(s: QueueState, ids: seq<JobId>, now: Time, id: JobId)
    requires NoDuplicates(ids) && (forall x | x in ids :: x in s.jobs && s.jobs[x].state == Active)
    requires id in s.jobs && Within(s.jobs[id]) && Nameless(s, id)
    ensures StaysWithin(s, RecoverEach(s, ids, now), id, 0)
  {
    RecoverEachFrame(s, ids, now);
    RecoverEachLinks(s, ids, now);
    var t := RecoverEach(s, ids, now);
    if id in ids { assert RecoveredFrom(s.jobs[id], t.jobs[id], now); }
  }

  lemma RecoverStalledStays(s: QueueState, now: Time, id: JobId)
    requires Core(s) && id in s.jobs && Within(s.jobs[id]) && Nameless(s, id)
    ensures StaysWithin(s, RecoverStalled(s, now).state, id, 0)
  {
    var stalled := Sorted(StalledRanks(s, now), StalledRanks(s, now).Keys);
    var recovered := RecoverEach(s, stalled, now);
    RecoverEachKeeps(s, stalled, now);
    RecoveredStays(s, stalled, now, id);
    var failures := FailedAmong(recovered, stalled);
    FailedAmongMeans(recovered, stalled);
    forall k | 0 <= k < |failures| ensures failures[k].parentId != Some(id) {
      assert failures[k] in failures;
      var x :| x in stalled && x in recovered.jobs && recovered.jobs[x].state == Failed && recovered.jobs[x] == failures[k];
    }
    AfterRecoveryTends(recovered, failures, now, id);
    ThenTends(s, recovered, RecoverStalled(s, now).state, id, 0);
  }

  lemma PromoteDueTends(s: QueueState, now: Time, id: JobId)
    ensures Tends(s, PromoteDue(s, now).state, id)
  {
    var due := Sorted(DueRanks(s, now), DueRanks(s, now).Keys);
    PromoteEachFrame(s, due);
    var t := PromoteEach(s, due);
    forall c | c in t.jobs ensures t.jobs[c].parentId == s.jobs[c].parentId && Mild(s.jobs[c], t.jobs[c]) {
      if c in due { assert s.jobs[c].state == Delayed; }
    }
  }

  /** The operation claims `id`. */
  ghost predicate ClaimsJob(s: QueueState, op: Op, id: JobId)
  {
    op.OpClaim? && var reply := ClaimNext(s, op.worker, op.token, op.leaseFor, op.now).reply; reply.Some? && reply.value.id == id
  }

  lemma ClaimStays(s: QueueState, worker: string, token: Token, leaseFor: Duration, now: Time, id: JobId)
    requires Core(s) && id in s.jobs && Within(s.jobs[id]) && Nameless(s, id)
    ensures var o := ClaimNext(s, worker, token, leaseFor, now);
            StaysWithin(s, o.state, id, if o.reply.Some? && o.reply.value.id == id then 1 else 0)
  {
    if !s.paused {
      PromoteDueTends(s, now, id);
      PromoteDueKeeps(s, now);
      var promoted := PromoteDue(s, now).state;
      TendsStaysWithin(s, promoted, id);
      var claimed := Claimable(promoted);
      if claimed.Some? {
        assert claimed.value in ClaimableIds(promoted);
        assert WellFormedJob(claimed.value, promoted.jobs[claimed.value]);
        PromoteDueRetains(s, now, id);
      }
    }
  }

  lemma PromoteDueRetains(s: QueueState, now: Time, id: JobId)
    requires id in s.jobs
    ensures id in PromoteDue(s, now).state.jobs
  {
    PromoteEachFrame(s, Sorted(DueRanks(s, now), DueRanks(s, now).Keys));
  }

  // -- Every operation -----------------------------------------------------------------------------------------

  /** The operation does not make the job run again by hand, put it off, turn it into a parent or resubmit it in bulk. */
  predicate LeavesAlone(op: Op, id: JobId)
    requires op.WellFormed()
  {
    match op
    case OpRetry(x, _) => x != id
    case OpReleaseActive(x, _, _) => x != id
    case OpDelayActive(x, _, _, _) => x != id
    case OpAddFlowChildren(x, _, _, _, _) => x != id
    case OpAddFlow(parent, uuid, _, _, _) => IdOf(parent, uuid) != id
    case OpAddMany(specs, uuids, _) => SubmitsNot(specs, uuids, id)
    case _ => true
  }

  predicate SubmitsNot(specs: seq<JobSpec>, uuids: seq<JobId>, id: JobId)
    requires |specs| == |uuids|
  {
    forall k | 0 <= k < |specs| :: IdOf(specs[k], uuids[k]) != id
  }

  lemma AddFlowChildrenTends(s: QueueState, x: JobId, token: Token, specs: seq<JobSpec>, uuids: seq<JobId>, now: Time, id: JobId)
    requires Core(s) && |specs| == |uuids| && "" !in uuids && id in s.jobs && x != id
    ensures Tends(s, AddFlowChildren(s, x, token, specs, uuids, now).state, id)
  {
    AddFlowChildrenCases(s, x, token, specs, uuids, now);
    if AddFlowChildren(s, x, token, specs, uuids, now).state != s {
      AddToStoredTends(s, x, ChildJobs(s.queue, x, specs, uuids, now), true, now, id);
    }
  }

  lemma AddTends(s: QueueState, spec: JobSpec, uuid: JobId, now: Time, id: JobId)
    requires Core(s) && id in s.jobs && s.jobs[id].repeatKey.None?
    ensures Tends(s, Add(s, spec, uuid, now).state, id)
  {
    if spec.options.ValidAt(now) { AddJobTends(s, NewJob(s.queue, spec, uuid, now), now, id); }
  }

  lemma AddManyTends(s: QueueState, specs: seq<JobSpec>, uuids: seq<JobId>, now: Time, id: JobId)
    requires Core(s) && |specs| == |uuids| && "" !in uuids && id in s.jobs && s.jobs[id].repeatKey.None?
    requires SubmitsNot(specs, uuids, id)
    ensures Tends(s, AddMany(s, specs, uuids, now).state, id)
  {
    if forall k | 0 <= k < |specs| :: specs[k].options.ValidAt(now) { AddJobsTends(s, NewJobs(s.queue, specs, uuids, now), now, id); }
  }

  lemma SubmitJobsTends(s: QueueState, op: Op, id: JobId)
    requires Core(s) && op.WellFormed() && id in s.jobs && s.jobs[id].repeatKey.None?
    requires op.OpAdd? || op.OpUpsertRepeat? || (op.OpAddMany? && SubmitsNot(op.specs, op.uuids, id))
    ensures Tends(s, Submission(s, op).state, id)
  {
    if op.OpAdd? {
      AddTends(s, op.spec, op.uuid, op.now, id);
    } else if op.OpAddMany? {
      AddManyTends(s, op.specs, op.uuids, op.now, id);
    } else {
      UpsertTends(s, op.spec, op.uuid, op.now, id);
    }
  }

  lemma SubmitFlowTends(s: QueueState, op: Op, id: JobId)
    requires Core(s) && op.WellFormed() && id in s.jobs
    requires (op.OpAddFlow? && IdOf(op.parent, op.uuid) != id) || (op.OpAddFlowChildren? && op.id != id)
    ensures Tends(s, Submission(s, op).state, id)
  {
    if op.OpAddFlow? {
      AddFlowTends(s, op.parent, op.uuid, op.specs, op.uuids, op.now, id);
    } else {
      AddFlowChildrenTends(s, op.id, op.token, op.specs, op.uuids, op.now, id);
    }
  }

  lemma SubmitTends(s: QueueState, op: Op, id: JobId)
    requires Core(s) && op.WellFormed() && id in s.jobs && s.jobs[id].repeatKey.None? && LeavesAlone(op, id)
    requires op.Submits()
    ensures Tends(s, Submission(s, op).state, id)
  {
    if op.OpAddFlow? || op.OpAddFlowChildren? { SubmitFlowTends(s, op, id); } else { SubmitJobsTends(s, op, id); }
  }

  lemma AddFlowTends(s: QueueState, spec: JobSpec, uuid: JobId, specs: seq<JobSpec>, uuids: seq<JobId>, now: Time, id: JobId)
    requires Core(s) && |specs| == |uuids| && uuid != "" && "" !in uuids && id in s.jobs && NewJob(s.queue, spec, uuid, now).id != id
    ensures Tends(s, AddFlow(s, spec, uuid, specs, uuids, now).state, id)
  {
    AddFlowCases(s, spec, uuid, specs, uuids, now);
    if AddFlow(s, spec, uuid, specs, uuids, now).state != s {
      var parent := NewJob(s.queue, spec, uuid, now);
      var children := ChildJobs(s.queue, parent.id, specs, uuids, now);
      if parent.id in s.jobs { AddToStoredTends(s, parent.id, children, false, now, id); }
      else { AddNewFlowTends(s, parent, children, now, id); }
    }
  }

  /** The occurrence an upsert replaces has a repeat key, so it is not `id`. */
  lemma UpsertTends(s: QueueState, spec: JobSpec, uuid: JobId, now: Time, id: JobId)
    requires Core(s) && id in s.jobs && s.jobs[id].repeatKey.None?
    ensures Tends(s, UpsertRepeat(s, spec, uuid, now).state, id)
  {
    if UpsertRepeat(s, spec, uuid, now).reply.Ok? { UpsertedTends(s, spec, uuid, now, id); }
  }

  lemma UpsertedTends(s: QueueState, spec: JobSpec, uuid: JobId, now: Time, id: JobId)
    requires Core(s) && id in s.jobs && s.jobs[id].repeatKey.None? && UpsertRepeat(s, spec, uuid, now).reply.Ok?
    ensures Tends(s, UpsertRepeat(s, spec, uuid, now).state, id)
  {
    var job := NewJob(s.queue, spec, uuid, now);
    var owner := Find(s, RepeatOwners(s, job.repeatKey.value));
    assert owner.Some? ==> IsRepeatOwner(s, owner.value, job.repeatKey.value);
    ReplaceTends(s, job, owner, id);
  }

  lemma ReplaceTends(s: QueueState, job: Job, owner: Option<JobId>, id: JobId)
    requires Core(s) && id in s.jobs && s.jobs[id].repeatKey.None? && job.parentId.None?
    requires job.id in s.jobs ==> owner == Some(job.id)
    requires owner.Some? ==> owner.value in s.jobs && s.jobs[owner.value].repeatKey.Some?
    ensures Tends(s, ReplaceRepeat(s, job, owner), id)
  {
    if owner.Some? {
      RemoveIsRemoveAll(s, owner.value);
      RemoveAllTends(s, {owner.value}, id);
      InsertTends(Remove(s, owner.value), job, id);
      TendsTransitive(s, Remove(s, owner.value), Insert(Remove(s, owner.value), job), id);
    } else {
      InsertTends(s, job, id);
    }
  }

  lemma RemoveAndReleaseTends(s: QueueState, ids: seq<JobId>, now: Time, id: JobId)
    requires Core(s) && Nameless(s, id)
    ensures Tends(s, RemoveAllAndRelease(s, ids, now), id)
  {
    ParentsNameOthers(s, ids, id);
    var removed := RemoveAll(s, Elements(ids));
    RemoveAllIsCalm(s, Elements(ids));
    RemoveAllTends(s, Elements(ids), id);
    ReleaseAllTends(removed, ParentsOf(s, ids), now, id);
    TendsTransitive(s, removed, RemoveAllAndRelease(s, ids, now), id);
  }

  lemma {:induction false} ParentsNameOthers(s: QueueState, ids: seq<JobId>, id: JobId)
    requires Nameless(s, id)
    ensures id !in ParentsOf(s, ids)
    decreases |ids|
  {
    if ids != [] { ParentsNameOthers(s, ids[..|ids| - 1], id); }
  }

  lemma CleanTends(s: QueueState, state: JobState, grace: Duration, limit: nat, now: Time, id: JobId)
    requires Core(s) && Nameless(s, id)
    ensures Tends(s, Clean(s, state, grace, limit, now).state, id)
  {
    var ranks := CleanRanks(s, state, Earlier(now, grace));
    RemoveAndReleaseTends(s, Take(Sorted(ranks, ranks.Keys), limit), now, id);
  }

  lemma DrainTends(s: QueueState, includeDelayed: bool, now: Time, id: JobId)
    requires Core(s) && Nameless(s, id)
    ensures Tends(s, Drain(s, includeDelayed, now).state, id)
  {
    var ranks := DrainRanks(s, includeDelayed);
    RemoveAndReleaseTends(s, Sorted(ranks, ranks.Keys), now, id);
  }

  lemma RemoveJobTends(s: QueueState, x: JobId, now: Time, id: JobId)
    requires Core(s) && Nameless(s, id)
    ensures Tends(s, RemoveJob(s, x, now).state, id)
  {
    if x in s.jobs {
      var removed := Remove(s, x);
      RemoveIsRemoveAll(s, x);
      RemoveIsCalm(s, x);
      RemoveAllTends(s, {x}, id);
      if s.jobs[x].parentId.Some? {
        ReleaseTends(removed, s.jobs[x].parentId.value, now, id);
        TendsTransitive(s, removed, ReleaseParent(removed, s.jobs[x].parentId.value, now), id);
      }
    }
  }

  lemma RemoveUnprocessedTends(s: QueueState, p: JobId, now: Time, id: JobId)
    requires Core(s) && !IsParked(s, id)
    ensures Tends(s, RemoveUnprocessedChildren(s, p, now).state, id)
  {
    if p in s.jobs {
      var ids := Elements(Descendants.Walk(s.jobs, s.jobs[p].childIds, {}).out);
      RemoveAllIsCalm(s, ids);
      RemoveAllTends(s, ids, id);
      ReleaseTends(RemoveAll(s, ids), p, now, id);
      TendsTransitive(s, RemoveAll(s, ids), ReleaseParent(RemoveAll(s, ids), p, now), id);
    }
  }

  lemma DetachTends(s: QueueState, c: JobId, now: Time, id: JobId)
    requires Core(s) && Nameless(s, id)
    ensures Tends(s, RemoveChildDependency(s, c, now).state, id)
  {
    if RemoveChildDependency(s, c, now).reply == Ok(true) {
      var p := s.jobs[c].parentId.value;
      var t := Detached(s, p, c);
      DetachedFrame(s, p, c);
      DetachedKeeps(s, p, c);
      assert Tends(s, t, id);
      ReleaseTends(t, p, now, id);
      TendsTransitive(s, t, ReleaseParent(t, p, now), id);
    }
  }

  lemma RetryOtherTends(s: QueueState, x: JobId, now: Time, id: JobId)
    requires Nameless(s, id) && x != id
    ensures Tends(s, Retry(s, x, now).state, id)
  {
    if Retry(s, x, now).reply.Ok? {
      var waiting := PutInOrder(ForgetReleasedOwner(s, x, s.jobs[x]), x, RetriedJob(s.jobs[x], now));
      assert Tends(s, waiting, id);
      if s.jobs[x].parentId.Some? { ClearTouchesNoJob(waiting, s.jobs[x].parentId.value, x); }
    }
  }

  lemma RewriteTends(s: QueueState, op: Op, id: JobId)
    requires op.WellFormed() && op.TouchesOne() && LeavesAlone(op, id)
    ensures Tends(s, Rewrite(s, op).state, id)
  {
    var t := Rewrite(s, op).state;
    TouchedJobsAreRewritten(s, op);
    NamelessStays(s, t, id);
    if id in t.jobs {
      assert Rewritten(s.jobs[id], t.jobs[id]);
      if s.jobs[id].state == Active { ActiveJobStays(s, op, id); }
    }
  }

  lemma NamelessStays(s: QueueState, t: QueueState, id: JobId)
    requires RewrittenAll(s, t)
    ensures Nameless(s, id) ==> Nameless(t, id)
  {
    forall c | c in t.jobs ensures t.jobs[c].parentId == s.jobs[c].parentId { assert Rewritten(s.jobs[c], t.jobs[c]); }
  }

  lemma ActiveJobStays(s: QueueState, op: Op, id: JobId)
    requires op.WellFormed() && op.TouchesOne() && LeavesAlone(op, id)
    requires id in s.jobs && s.jobs[id].state == Active && id in Rewrite(s, op).state.jobs
    ensures Rewrite(s, op).state.jobs[id].state == Active
  {
    if op.OpRenew? || op.OpDelayActive? || op.OpReleaseActive? {
      ActiveJobNotGivenUp(s, op, id);
    } else if op.OpPromote? || op.OpReschedule? {
      ActiveJobNotMoved(s, op, id);
    } else if op.OpSetPriority? || op.OpSaveStacktrace? {
      ActiveJobRetouched(s, op, id);
    }
  }

  lemma ActiveJobNotGivenUp(s: QueueState, op: Op, id: JobId)
    requires (op.OpRenew? || op.OpDelayActive? || op.OpReleaseActive?) && (op.id == id ==> op.OpRenew?)
    requires id in s.jobs && s.jobs[id].state == Active
    ensures var t := Rewrite(s, op).state; id in t.jobs && t.jobs[id].state == Active
  {
  }

  lemma ActiveJobNotMoved(s: QueueState, op: Op, id: JobId)
    requires (op.OpPromote? || op.OpReschedule?) && id in s.jobs && s.jobs[id].state == Active
    ensures var t := Rewrite(s, op).state; id in t.jobs && t.jobs[id].state == Active
  {
  }

  lemma ActiveJobRetouched(s: QueueState, op: Op, id: JobId)
    requires (op.OpSetPriority? || op.OpSaveStacktrace?) && id in s.jobs && s.jobs[id].state == Active
    ensures var t := Rewrite(s, op).state; id in t.jobs && t.jobs[id].state == Active
  {
  }

  lemma CleanUpTends(s: QueueState, op: Op, id: JobId)
    requires Core(s) && Nameless(s, id) && !IsParked(s, id) && op.CleansUp()
    ensures Tends(s, Removal(s, op).state, id)
  {
    match op
    case OpRemoveUnprocessedChildren(p, now) => RemoveUnprocessedTends(s, p, now, id);
    case OpRemoveChildDependency(c, now) => DetachTends(s, c, now, id);
    case OpRemove(x, now) => RemoveJobTends(s, x, now, id);
    case OpRemoveRepeat(key, now) =>
      var owner := Find(s, RepeatOwners(s, key));
      if owner.Some? { RemoveJobTends(s, owner.value, now, id); }
    case OpClean(state, grace, limit, now) => CleanTends(s, state, grace, limit, now, id);
    case OpDrain(includeDelayed, now) => DrainTends(s, includeDelayed, now, id);
  }

  /** Whatever operation happens, the job stays within its measure, one attempt up exactly when it was claimed. */
  lemma StepStaysWithin(s: QueueState, op: Op, id: JobId)
    requires Core(s) && op.WellFormed() && FreshIds(s, op) && LeavesAlone(op, id)
    requires id in s.jobs && Within(s.jobs[id]) && Nameless(s, id)
    ensures StaysWithin(s, Step(s, op).state, id, if ClaimsJob(s, op, id) then 1 else 0)
  {
    if op.OpClaim? {
      WorkStep(s, op);
      ClaimStepStays(s, op, id);
    } else if op.Works() {
      WorkStep(s, op);
      WorkStays(s, op, id);
    } else {
      OtherStepStays(s, op, id);
    }
  }

  lemma OtherStepStays(s: QueueState, op: Op, id: JobId)
    requires Core(s) && op.WellFormed() && LeavesAlone(op, id) && !op.Works()
    requires id in s.jobs && Within(s.jobs[id]) && Nameless(s, id)
    ensures StaysWithin(s, Step(s, op).state, id, 0)
  {
    assert WellFormedJob(id, s.jobs[id]);
    OtherStepTends(s, op, id);
    TendsStaysWithin(s, Step(s, op).state, id);
  }

  lemma HolderWorkStays(s: QueueState, op: Op, id: JobId)
    requires op.WellFormed() && op.Works() && (op.OpComplete? || op.OpFail?) && FreshIds(s, op)
    requires Core(s) && id in s.jobs && Within(s.jobs[id]) && Nameless(s, id)
    ensures StaysWithin(s, Work(s, op).state, id, 0)
  {
    if op.OpComplete? {
      CompleteStays(s, op.id, op.token, op.value, op.uuid, op.cronNext, op.now, id);
    } else {
      FailStays(s, op.id, op.token, op.error, op.allowRetry, op.backoff, op.now, id);
    }
  }

  lemma WorkStays(s: QueueState, op: Op, id: JobId)
    requires op.WellFormed() && op.Works() && !op.OpClaim? && LeavesAlone(op, id) && FreshIds(s, op)
    requires Core(s) && id in s.jobs && Within(s.jobs[id]) && Nameless(s, id)
    ensures StaysWithin(s, Work(s, op).state, id, 0)
  {
    if op.OpComplete? || op.OpFail? { HolderWorkStays(s, op, id); } else { QueueWorkStays(s, op, id); }
  }

  lemma QueueWorkStays(s: QueueState, op: Op, id: JobId)
    requires op.WellFormed() && op.Works()
    requires op.OpRecoverStalled? || op.OpPromoteDue? || (op.OpRetry? && op.id != id)
    requires Core(s) && id in s.jobs && Within(s.jobs[id]) && Nameless(s, id)
    ensures StaysWithin(s, Work(s, op).state, id, 0)
  {
    if op.OpRecoverStalled? {
      RecoverStalledStays(s, op.now, id);
    } else if op.OpPromoteDue? {
      PromoteDueStays(s, op.now, id);
    } else {
      RetryOtherStays(s, op.id, op.now, id);
    }
  }

  lemma ClaimStepStays(s: QueueState, op: Op, id: JobId)
    requires Core(s) && op.OpClaim? && id in s.jobs && Within(s.jobs[id]) && Nameless(s, id)
    ensures StaysWithin(s, Work(s, op).state, id, if ClaimsJob(s, op, id) then 1 else 0)
  {
    ClaimStays(s, op.worker, op.token, op.leaseFor, op.now, id);
  }

  lemma PromoteDueStays(s: QueueState, now: Time, id: JobId)
    requires Core(s) && id in s.jobs && Within(s.jobs[id]) && Nameless(s, id)
    ensures StaysWithin(s, PromoteDue(s, now).state, id, 0)
  {
    assert WellFormedJob(id, s.jobs[id]);
    PromoteDueTends(s, now, id);
    TendsStaysWithin(s, PromoteDue(s, now).state, id);
  }

  lemma RetryOtherStays(s: QueueState, x: JobId, now: Time, id: JobId)
    requires Core(s) && id in s.jobs && Within(s.jobs[id]) && Nameless(s, id) && x != id
    ensures StaysWithin(s, Retry(s, x, now).state, id, 0)
  {
    assert WellFormedJob(id, s.jobs[id]);
    RetryOtherTends(s, x, now, id);
    TendsStaysWithin(s, Retry(s, x, now).state, id);
  }

  lemma CompleteStays(s: QueueState, x: JobId, token: Token, value: Value, uuid: JobId, cronNext: Option<Time>, now: Time, id: JobId)
    requires Core(s) && id in s.jobs && Within(s.jobs[id]) && Nameless(s, id) && uuid != "" && uuid !in s.jobs
    ensures StaysWithin(s, Complete(s, x, token, value, uuid, cronNext, now).state, id, 0)
  {
    if x == id {
      CompleteOwnStays(s, id, token, value, uuid, cronNext, now);
    } else {
      CompleteOtherTends(s, x, token, value, uuid, cronNext, now, id);
      TendsStaysWithin(s, Complete(s, x, token, value, uuid, cronNext, now).state, id);
    }
  }

  lemma FailStays(s: QueueState, x: JobId, token: Token, error: string, allowRetry: bool, backoff: Duration, now: Time, id: JobId)
    requires Core(s) && id in s.jobs && Within(s.jobs[id]) && Nameless(s, id)
    ensures StaysWithin(s, Fail(s, x, token, error, allowRetry, backoff, now).state, id, 0)
  {
    if x == id {
      FailOwnStays(s, id, token, error, allowRetry, backoff, now);
    } else {
      FailOtherTends(s, x, token, error, allowRetry, backoff, now, id);
      TendsStaysWithin(s, Fail(s, x, token, error, allowRetry, backoff, now).state, id);
    }
  }

  lemma OtherStepTends(s: QueueState, op: Op, id: JobId)
    requires Core(s) && op.WellFormed() && LeavesAlone(op, id) && !op.Works()
    requires id in s.jobs && s.jobs[id].repeatKey.None? && !IsParked(s, id) && Nameless(s, id)
    ensures Tends(s, Step(s, op).state, id)
  {
    if op.Submits() {
      SubmitTends(s, op, id);
    } else if op.CleansUp() {
      CleanUpTends(s, op, id);
    } else {
      RewriteTends(s, op, id);
    }
  }

  // -- Every run --------------------------------------------------------------------------------------------------

  /** A run with fresh ids that leaves the job alone while it is stored, and its id unused once it is gone. */
  ghost predicate LeftAlone(s: QueueState, ops: seq<Op>, id: JobId)
    decreases |ops|
  {
    ops == [] ||
    (&& ops[0].WellFormed() && FreshIds(s, ops[0])
     && (id in s.jobs ==> LeavesAlone(ops[0], id))
     && (id !in s.jobs ==> id !in Step(s, ops[0]).state.jobs)
     && LeftAlone(Step(s, ops[0]).state, ops[1..], id))
  }

  /** How often the run claims the job. */
  ghost function TimesClaimed(s: QueueState, ops: seq<Op>, id: JobId): nat
    requires forall k | 0 <= k < |ops| :: ops[k].WellFormed()
    decreases |ops|
  {
    if ops == [] then 0 else
      (if ClaimsJob(s, ops[0], id) then 1 else 0) + TimesClaimed(Step(s, ops[0]).state, ops[1..], id)
  }

  /** A claimed job is stored afterwards. */
  lemma ClaimedIsStored(s: QueueState, worker: string, token: Token, leaseFor: Duration, now: Time)
    requires Core(s)
    ensures var o := ClaimNext(s, worker, token, leaseFor, now); o.reply.Some? ==> o.reply.value.id in o.state.jobs
  {
    PromoteDueKeeps(s, now);
    var promoted := PromoteDue(s, now).state;
    var claimed := Claimable(promoted);
    if claimed.Some? { assert WellFormedJob(claimed.value, promoted.jobs[claimed.value]); }
  }

  lemma ClaimedJobIsStored(s: QueueState, op: Op, id: JobId)
    requires Core(s) && op.WellFormed() && ClaimsJob(s, op, id)
    ensures id in Step(s, op).state.jobs
  {
    WorkStep(s, op);
    ClaimedIsStored(s, op.worker, op.token, op.leaseFor, op.now);
  }

  lemma {:induction false} GoneIsNeverClaimed(s: QueueState, ops: seq<Op>, id: JobId)
    requires forall k | 0 <= k < |ops| :: ops[k].WellFormed()
    requires Core(s) && LeftAlone(s, ops, id) && id !in s.jobs
    ensures TimesClaimed(s, ops, id) == 0
    decreases |ops|
  {
    if ops != [] {
      StepKeepsCore(s, ops[0]);
      if ClaimsJob(s, ops[0], id) { ClaimedJobIsStored(s, ops[0], id); }
      GoneIsNeverClaimed(Step(s, ops[0]).state, ops[1..], id);
    }
  }

  /**
    Bounded processing: over every run that neither retries, releases nor delays
    it by hand, a standalone job that does not repeat is claimed, attempts made
    before included, at most `maxRetries + maxStalledCount + 1` times.
   */
  lemma {:induction false} ClaimsAreBounded(s: QueueState, ops: seq<Op>, id: JobId)
    requires forall k | 0 <= k < |ops| :: ops[k].WellFormed()
    requires Core(s) && id in s.jobs && Within(s.jobs[id]) && Nameless(s, id) && LeftAlone(s, ops, id)
    ensures s.jobs[id].attemptsMade + TimesClaimed(s, ops, id)
            <= s.jobs[id].options.maxRetries + s.jobs[id].options.maxStalledCount + 1
    decreases |ops|
  {
    if ops != [] {
      var t := Step(s, ops[0]).state;
      StepKeepsCore(s, ops[0]);
      StepStaysWithin(s, ops[0], id);
      if id in t.jobs {
        ClaimsAreBounded(t, ops[1..], id);
      } else {
        GoneIsNeverClaimed(t, ops[1..], id);
        if ClaimsJob(s, ops[0], id) { ClaimedJobIsStored(s, ops[0], id); }
      }
    }
  }
}
